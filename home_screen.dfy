/**
 * The home screen of the cane companion app: an emergency-contact list edited
 * through two text fields, and the device location obtained once permission is
 * granted and then followed through a position watch.
 *
 * The component's state hooks become the fields of `HomeState`; each handler
 * becomes a method that reassigns them. The asynchronous permission / fix /
 * watch chain is driven by one event method per awaited result, and the
 * ghost field `phase` records how far along that chain the effect is.
 */
module HomeScreen {
  import opened Wrappers
  import opened Positioning

  /** A stored emergency contact; `id` is supplied by the caller. */
  datatype Contact = Contact(id: string, name: string, phone: string)

  /** What the add handler reports (the source shows an alert on failure). */
  datatype AddOutcome = MissingFields | Added(contact: Contact)

  /** What the remove handler reports (one alert per branch in the source). */
  datatype RemoveOutcome = NoContacts | ContactRemoved

  /** How far the location effect has come. */
  datatype LocationPhase =
    | AwaitingPermission  // the permission request is outstanding
    | AwaitingFix         // permission granted, initial fix outstanding
    | Watching            // initial fix stored, watch callbacks arrive
    | Denied              // permission refused; the effect has returned

  /** What the location area of the screen shows. */
  datatype LocationView = MapView(center: Coords) | ErrorText(message: string) | Spinner

  /** Every stored contact has a non-empty name and phone. */
  predicate WellFormed(c: Contact)
  {
    c.name != "" && c.phone != ""
  }

  predicate AllWellFormed(cs: seq<Contact>)
  {
    forall i :: 0 <= i < |cs| ==> WellFormed(cs[i])
  }

  /** The location fields that each phase of the effect leaves behind. */
  predicate LocationConsistent(phase: LocationPhase, location: Option<Coords>, errorMsg: Option<string>)
  {
    match phase
    case AwaitingPermission => location == None && errorMsg == None
    case AwaitingFix => location == None && errorMsg == None
    case Watching => location.Some? && errorMsg == None
    case Denied => location == None && errorMsg == Some(DenialText)
  }

  /**
   * The conditional rendering of the location area: the map when there is a
   * location, otherwise the error text when `errorMsg` is truthy, otherwise
   * the spinner.
   */
  function View(location: Option<Coords>, errorMsg: Option<string>): (v: LocationView)
    ensures v.MapView? <==> location.Some?
    ensures v.MapView? ==> v.center == location.value
    ensures v.ErrorText? <==> location.None? && Truthy(errorMsg)
    ensures v.ErrorText? ==> v.message == errorMsg.value
    ensures v == Spinner <==> location.None? && !Truthy(errorMsg)
  {
    if location.Some? then MapView(location.value)
    else if Truthy(errorMsg) then ErrorText(errorMsg.value)
    else Spinner
  }

  /**
   * In every state the effect can reach, the view is decided by the phase
   * alone: the spinner while waiting, the denial text once refused and the
   * map at the latest sample while watching.
   */
  lemma ViewByPhase(phase: LocationPhase, location: Option<Coords>, errorMsg: Option<string>)
    requires LocationConsistent(phase, location, errorMsg)
    ensures phase == Denied ==> View(location, errorMsg) == ErrorText(DenialText)
    ensures phase == Watching ==> View(location, errorMsg) == MapView(location.value)
    ensures phase in {AwaitingPermission, AwaitingFix} ==> View(location, errorMsg) == Spinner
  {
  }

  class HomeState {
    var contactName: string
    var contactPhone: string
    var contacts: seq<Contact>
    var location: Option<Coords>
    var errorMsg: Option<string>
    ghost var phase: LocationPhase

    ghost predicate Valid()
      reads this
    {
      AllWellFormed(contacts) && LocationConsistent(phase, location, errorMsg)
    }

    /** Mounting the screen: empty fields, no contacts, permission requested. */
    constructor ()
      ensures Valid()
      ensures contactName == "" && contactPhone == "" && contacts == []
      ensures location == None && errorMsg == None && phase == AwaitingPermission
    {
      contactName, contactPhone, contacts := "", "", [];
      location, errorMsg, phase := None, None, AwaitingPermission;
    }

    /** The name field's `onChangeText`. */
    method SetContactName(text: string)
      requires Valid()
      modifies this`contactName
      ensures Valid()
      ensures contactName == text
    {
      contactName := text;
    }

    /** The phone field's `onChangeText`. */
    method SetContactPhone(text: string)
      requires Valid()
      modifies this`contactPhone
      ensures Valid()
      ensures contactPhone == text
    {
      contactPhone := text;
    }

    /**
     * `handleAddContact`: refuse when either field is empty; otherwise append
     * a contact built from the two fields and clear them.
     */
    method AddContact(id: string) returns (outcome: AddOutcome)
      requires Valid()
      modifies this`contacts, this`contactName, this`contactPhone
      ensures Valid()
      ensures outcome == MissingFields <==> old(contactName) == "" || old(contactPhone) == ""
      ensures outcome == MissingFields ==>
        contacts == old(contacts) && contactName == old(contactName) && contactPhone == old(contactPhone)
      ensures outcome.Added? ==>
        && outcome.contact == Contact(id, old(contactName), old(contactPhone))
        && contacts == old(contacts) + [outcome.contact]
        && contactName == "" && contactPhone == ""
    {
      if contactName == "" || contactPhone == "" {
        return MissingFields;
      }
      var newContact := Contact(id, contactName, contactPhone);
      contacts := contacts + [newContact];
      contactName := "";
      contactPhone := "";
      outcome := Added(newContact);
    }

    /**
     * `handleRemoveContact`: refuse on an empty list; otherwise drop the last
     * contact and clear both fields.
     */
    method RemoveContact() returns (outcome: RemoveOutcome)
      requires Valid()
      modifies this`contacts, this`contactName, this`contactPhone
      ensures Valid()
      ensures outcome == NoContacts <==> old(contacts) == []
      ensures outcome == NoContacts ==>
        contacts == old(contacts) && contactName == old(contactName) && contactPhone == old(contactPhone)
      ensures outcome == ContactRemoved ==>
        && contacts == old(contacts)[..|old(contacts)| - 1]
        && |contacts| == |old(contacts)| - 1
        && contactName == "" && contactPhone == ""
    {
      if |contacts| == 0 {
        return NoContacts;
      }
      contacts := contacts[..|contacts| - 1];
      contactName := "";
      contactPhone := "";
      outcome := ContactRemoved;
    }

    /**
     * The permission request resolves. Anything but `'granted'` stores the
     * denial text and ends the effect; `'granted'` goes on to fetch a fix.
     */
    method OnPermissionResult(status: string) returns (fetchStarted: bool)
      requires Valid() && phase == AwaitingPermission
      modifies this`errorMsg, this`phase
      ensures Valid()
      ensures fetchStarted <==> status == Granted
      ensures !fetchStarted ==> errorMsg == Some(DenialText) && phase == Denied
      ensures fetchStarted ==> errorMsg == old(errorMsg) && phase == AwaitingFix
    {
      if status != Granted {
        errorMsg := Some(DenialText);
        phase := Denied;
        return false;
      }
      phase := AwaitingFix;
      fetchStarted := true;
    }

    /** The initial fix arrives: store it and open the watch. */
    method OnInitialFix(fix: Coords)
      requires Valid() && phase == AwaitingFix
      modifies this`location, this`phase
      ensures Valid()
      ensures location == Some(fix) && phase == Watching
    {
      location := Some(fix);
      phase := Watching;
    }

    /** A watch callback: the latest sample replaces the stored one. */
    method OnWatchUpdate(sample: Coords)
      requires Valid() && phase == Watching
      modifies this`location
      ensures Valid()
      ensures location == Some(sample)
    {
      location := Some(sample);
    }
  }

  /** Adding a contact and removing one straight after restores the list. */
  method AddThenRemove(h: HomeState, id: string) returns (added: AddOutcome, removed: RemoveOutcome)
    requires h.Valid() && h.contactName != "" && h.contactPhone != ""
    modifies h
    ensures h.Valid()
    ensures added.Added? && removed == ContactRemoved
    ensures h.contacts == old(h.contacts)
  {
    added := h.AddContact(id);
    removed := h.RemoveContact();
  }

  /**
   * Two adds and one remove from a fresh screen: both adds succeed in order,
   * the remove drops the second contact, and an add with an empty phone is
   * refused without touching the list.
   */
  method ContactsScenario() returns (afterAdds: seq<Contact>, afterRemove: seq<Contact>, refused: AddOutcome)
    ensures afterAdds == [Contact("1", "Mom", "555-1111"), Contact("2", "Dad", "555-2222")]
    ensures afterRemove == [Contact("1", "Mom", "555-1111")]
    ensures refused == MissingFields
  {
    var h := new HomeState();
    h.SetContactName("Mom");
    h.SetContactPhone("555-1111");
    var a := h.AddContact("1");
    h.SetContactName("Dad");
    h.SetContactPhone("555-2222");
    a := h.AddContact("2");
    afterAdds := h.contacts;
    var r := h.RemoveContact();
    afterRemove := h.contacts;
    h.SetContactName("Nobody");
    refused := h.AddContact("3");
    assert h.contacts == afterRemove;
  }

  /**
   * The location effect end to end: a refusal leaves the error text on
   * screen with no location; a grant shows the map at the initial fix and
   * then at the latest watch sample only.
   */
  method LocationScenario(status: string, fix: Coords, first: Coords, second: Coords)
      returns (view: LocationView)
    ensures status != Granted ==> view == ErrorText(DenialText)
    ensures status == Granted ==> view == MapView(second)
  {
    var h := new HomeState();
    assert View(h.location, h.errorMsg) == Spinner;
    var fetching := h.OnPermissionResult(status);
    if fetching {
      h.OnInitialFix(fix);
      assert View(h.location, h.errorMsg) == MapView(fix);
      h.OnWatchUpdate(first);
      h.OnWatchUpdate(second);
    }
    view := View(h.location, h.errorMsg);
  }
}
