/**
 * The stand-alone location screen: a button that asks for permission and, if
 * granted, fetches one position fix; below it the coordinates and the error
 * text, each shown when its field is set.
 *
 * Unlike the home screen this one can be re-run from the button, so a refusal
 * after an earlier fix leaves that fix in place, and `errorMsg` is never reset.
 */
module LocationButton {
  import opened Wrappers
  import opened Positioning

  /** One `<Text>` line of the screen. */
  datatype TextLine = CoordinatesText(latitude: real, longitude: real) | ErrorLine(message: string)

  /** The lines rendered under the button: coordinates first, then the error. */
  function Rendered(location: Option<Coords>, errorMsg: Option<string>): (lines: seq<TextLine>)
    ensures |lines| == (if location.Some? then 1 else 0) + (if Truthy(errorMsg) then 1 else 0)
    ensures (exists i :: 0 <= i < |lines| && lines[i].CoordinatesText?) <==> location.Some?
    ensures location.Some? ==>
      lines[0] == CoordinatesText(location.value.latitude, location.value.longitude)
    ensures (exists i :: 0 <= i < |lines| && lines[i].ErrorLine?) <==> Truthy(errorMsg)
    ensures Truthy(errorMsg) ==> lines[|lines| - 1] == ErrorLine(errorMsg.value)
  {
    var lines :=
      (if location.Some? then [CoordinatesText(location.value.latitude, location.value.longitude)] else [])
      + (if Truthy(errorMsg) then [ErrorLine(errorMsg.value)] else []);
    assert location.Some? ==> lines[0].CoordinatesText?;
    assert Truthy(errorMsg) ==> lines[|lines| - 1].ErrorLine?;
    lines
  }

  class LocationApp {
    var location: Option<Coords>
    var errorMsg: Option<string>

    /** The only text ever stored in `errorMsg` is the denial text. */
    ghost predicate Valid()
      reads this
    {
      errorMsg == None || errorMsg == Some(DenialText)
    }

    constructor ()
      ensures Valid() && location == None && errorMsg == None
    {
      location, errorMsg := None, None;
    }

    /**
     * `getLocation`, with what the two awaited calls produce: the permission
     * status, or `None` when the request rejects; and the fix, or `None` when
     * the fetch rejects. A rejection ends the handler with both fields as they
     * were. A fetch is made only when the status is `'granted'`; any other
     * status stores the denial text.
     */
    method GetLocation(status: Option<string>, fetched: Option<Coords>) returns (fetchAttempted: bool)
      requires Valid()
      modifies this
      ensures Valid()
      ensures fetchAttempted <==> status == Some(Granted)
      ensures status.None? ==> location == old(location) && errorMsg == old(errorMsg)
      ensures status.Some? && status.value != Granted ==>
        errorMsg == Some(DenialText) && location == old(location)
      ensures fetchAttempted && fetched.Some? ==> location == fetched && errorMsg == old(errorMsg)
      ensures fetchAttempted && fetched.None? ==> location == old(location) && errorMsg == old(errorMsg)
    {
      if status.None? {
        return false;
      }
      if status.value != Granted {
        errorMsg := Some(DenialText);
        return false;
      }
      fetchAttempted := true;
      if fetched.Some? {
        location := fetched;
      }
    }

    /** In a reachable state the error line is shown exactly when `errorMsg` is set. */
    lemma ErrorShownIffSet()
      requires Valid()
      ensures Truthy(errorMsg) <==> errorMsg.Some?
    {
    }
  }

  /**
   * Pressing the button twice, refused and then granted: the screen ends up
   * showing both the coordinates and the denial text. The reverse order keeps
   * the earlier fix on screen next to the error.
   */
  method DenyThenGrant(fix: Coords, denied: string) returns (denyFirst: seq<TextLine>, grantFirst: seq<TextLine>)
    requires denied != Granted
    ensures denyFirst == [CoordinatesText(fix.latitude, fix.longitude), ErrorLine(DenialText)]
    ensures grantFirst == denyFirst
  {
    var app := new LocationApp();
    var ok := app.GetLocation(Some(denied), Some(fix));
    ok := app.GetLocation(Some(Granted), Some(fix));
    denyFirst := Rendered(app.location, app.errorMsg);
    app := new LocationApp();
    ok := app.GetLocation(Some(Granted), Some(fix));
    ok := app.GetLocation(Some(denied), Some(fix));
    grantFirst := Rendered(app.location, app.errorMsg);
  }
}
