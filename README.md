# Smart Cane companion app: verified model of its logic

The Smart Cane app is a React Native front end plus a Raspberry Pi script.
Four small pieces of it carry behaviour worth stating precisely, and this
project models each of them in Dafny and proves what it promises:

- **Emergency contacts** (`HomeScreen.js`). The user types a name and a phone
  number into two fields. *Add* appends a contact built from those fields and
  clears them, or refuses when either field is empty. *Remove* drops the last
  contact and clears both fields, or refuses when the list is empty. Class
  `HomeScreen.HomeState` holds the screen's state fields. Its invariant
  `Valid()` says that every stored contact has a non-empty name and phone.
- **Location on the home screen** (`HomeScreen.js`). On mount the screen asks
  for location permission. Any status other than `'granted'` stores a fixed
  denial text. `'granted'` stores an initial fix and then replaces it on each
  watch callback. Each awaited result is an event method of `HomeState`, and
  the ghost field `phase` records how far the chain has come. The pure function
  `HomeScreen.View` picks the map, the error text or the spinner.
- **Location button** (`location.js`). `LocationButton.LocationApp.GetLocation`
  runs one permission request and, if granted, one fetch. It can be pressed
  again, and `errorMsg` is never cleared. `LocationButton.Rendered` says which
  text lines appear.
- **Obstacle direction** (`RPIObjectCode.py`).
  `ObstacleDirection.BinDetections` is the per-frame loop. It keeps the
  confident, non-tiny boxes and sums their areas into left, center and right
  bins by the box's x-centre. The loop is proved equal to the reference sums
  `BinArea`. `Decide` points toward the side bin with strictly the least area,
  and otherwise forward. `DirectionSender` is the five-second send gate. Its
  invariant says that consecutive send attempts are at least five seconds
  apart, counting the start time as the first.

Module `Positioning` holds the coordinates type and the `'granted'` status
that the platform's positioning calls return. It also holds the denial text,
which is the app's own string literal, written out at `HomeScreen.js:66` and
`location.js:13`. The module also defines `Truthy`, JavaScript truthiness of
an optional string, which the source's `errorMsg ?` and `errorMsg &&` tests
depend on. Module `Wrappers` holds `Option`, standing for the source's `null`.

Three behaviours of the code worth noting:

- The remove handler does not return the contact it drops. It only reports
  that a contact was removed.
- The watch handle returned at `HomeScreen.js:73` is discarded, so the
  subscription is never released.
- `location.js` can re-run its request from the button. A denial after a
  successful fix therefore keeps the old fix, and a later grant leaves the
  old error text on screen.

## Model

| member | source | states |
|---|---|---|
| HomeScreen.HomeState.constructor | HomeScreen.js:10-14 | The screen starts with empty input fields, no contacts, no location and no error. The permission request is outstanding. |
| HomeScreen.HomeState.SetContactName | HomeScreen.js:90-91 | Typing into the name field sets `contactName` to the text and changes nothing else. |
| HomeScreen.HomeState.SetContactPhone | HomeScreen.js:98-99 | Typing into the phone field sets `contactPhone` to the text and changes nothing else. |
| HomeScreen.HomeState.AddContact | HomeScreen.js:18-33 | Refused exactly when the name or the phone is empty, and then nothing changes. Otherwise the list becomes the old list plus one contact carrying the given id, name and phone, and both fields become `''`. Every stored contact keeps a non-empty name and phone. |
| HomeScreen.HomeState.RemoveContact | HomeScreen.js:35-46 | Refused exactly when the list is empty, and then nothing changes. Otherwise the list becomes the old list without its last entry, one shorter, and both fields become `''`. |
| HomeScreen.HomeState.OnPermissionResult | HomeScreen.js:64-68 | A fetch starts exactly when the status is `'granted'`. Any other status stores the denial text and ends the effect with no location. |
| HomeScreen.HomeState.OnInitialFix | HomeScreen.js:70-73 | The initial fix becomes the location and the watch opens. |
| HomeScreen.HomeState.OnWatchUpdate | HomeScreen.js:73-78 | Each watch sample replaces the stored location. Only the latest sample is kept. |
| HomeScreen.View | HomeScreen.js:129-155 | The map, centred on the location, shows exactly when there is a location. Otherwise the error text shows exactly when `errorMsg` is a non-empty string. Otherwise the spinner shows. |
| HomeScreen.ViewByPhase | HomeScreen.js:129-155 | In every reachable state: the spinner while waiting, the denial text after a refusal, and the map at the latest sample while watching. |
| HomeScreen.AddThenRemove | HomeScreen.js:18-46 | With both fields filled, an add followed by a remove succeeds twice and restores the original list. |
| HomeScreen.ContactsScenario | HomeScreen.js:18-46 | From a fresh screen, adding Mom and then Dad gives `[Mom, Dad]` in order. A remove then leaves `[Mom]`. An add with an empty phone is refused and leaves the list alone. |
| HomeScreen.LocationScenario | HomeScreen.js:62-80 | A refused permission ends showing the denial text. A granted one ends showing the map at the last watch sample. |
| LocationButton.Rendered | location.js:25-28 | One coordinates line appears exactly when there is a location, and it comes first. One error line appears exactly when `errorMsg` is a non-empty string, and it comes last. No other lines appear, and both can appear together. |
| LocationButton.LocationApp.constructor | location.js:6-7 | The screen starts with neither a location nor an error. |
| LocationButton.LocationApp.GetLocation | location.js:9-20 | A position fetch happens exactly when the status is `'granted'`. A successful fetch replaces the location while `errorMsg` keeps its value. Any other status stores the denial text and keeps whatever location was there before. When the permission request or the fetch rejects, the handler ends with both fields unchanged. |
| LocationButton.LocationApp.ErrorShownIffSet | location.js:12-28 | In a reachable state the error text shows exactly when `errorMsg` is set, because only the non-empty denial text is ever stored. |
| LocationButton.DenyThenGrant | location.js:9-28 | A denied press followed by a granted one, or the same two presses in the other order, ends with both the coordinates and the denial text on screen. |
| ObstacleDirection.BinOf | RPIObjectCode.py:71-78 | A box goes left exactly when its x-centre is below 0.33 and right exactly when it is above 0.66. It goes to center exactly when the x-centre lies in [0.33, 0.66], so both edge values go to center. |
| ObstacleDirection.Qualifying | RPIObjectCode.py:63-69 | A detection is kept exactly when it is in the frame, has a score above 0.5 and has a box area of at least 0.01. |
| ObstacleDirection.QualifyingMultiplicity | RPIObjectCode.py:63-78 | Each qualifying detection is kept as often as it occurs in the frame, so a repeated box is binned once per occurrence. A non-qualifying detection is never kept. |
| ObstacleDirection.BinDetections | RPIObjectCode.py:59-78 | The three accumulators the loop produces equal the reference per-bin sums of qualifying box areas. |
| ObstacleDirection.BinAreaAppend | RPIObjectCode.py:63-78 | One more detection adds its area to its own bin when it qualifies. It leaves every other bin unchanged, and leaves all bins unchanged when it does not qualify. |
| ObstacleDirection.BinAreaNonNegative | RPIObjectCode.py:59-69 | Every bin is non-negative, since bins start at 0 and only receive areas of at least 0.01. |
| ObstacleDirection.BinsPartitionQualifyingArea | RPIObjectCode.py:71-78 | Left plus center plus right equals the total area of the qualifying detections. |
| ObstacleDirection.OnlyQualifyingCount | RPIObjectCode.py:63-69 | Detections with a low score or a tiny box contribute nothing: every bin is the same over the filtered detections. |
| ObstacleDirection.NothingQualifiesAllZero | RPIObjectCode.py:59-69 | When no detection qualifies, every bin is 0. |
| ObstacleDirection.Decide | RPIObjectCode.py:94-99 | "Move left" exactly when left is strictly below both center and right. "Move right" exactly when right is strictly below both center and left. "Move forward" otherwise. The two turns therefore exclude each other, and equal left and right areas always give forward. `Message` maps the three directions to the literal texts "Move left", "Move right" and "Move forward" that are sent. |
| ObstacleDirection.EmptyFrameGoesForward | RPIObjectCode.py:59-99 | A frame in which nothing qualifies yields "Move forward". |
| ObstacleDirection.SpacedApart | RPIObjectCode.py:91-108 | In a sequence of attempt times that are each at least 5 s after the previous one, two attempts k places apart are at least 5·k s apart. |
| ObstacleDirection.DirectionSender.AttemptsSpread | RPIObjectCode.py:36-108 | For a sender in a reachable state, the last attempt is at least 5 s per attempt made after the clock reading taken at start. |
| ObstacleDirection.DirectionSender.constructor | RPIObjectCode.py:36 | The last message time starts at the clock reading taken before the loop. |
| ObstacleDirection.DirectionSender.Tick | RPIObjectCode.py:90-108 | An attempt is made exactly when at least 5 s have passed since the last one. The attempt carries the decided message, fails exactly when the send raises, and in both cases records the current time. No attempt means nothing changes. Recorded attempts stay at least 5 s apart. |
| ObstacleDirection.DirectionSender.ProcessFrame | RPIObjectCode.py:59-108 | One pass of the main loop: like `Tick`, with the message `Message(FrameDirection(ds))`, where `FrameDirection` is `Decide` applied to the frame's three bin areas. |
| ObstacleDirection.GateScenario | RPIObjectCode.py:90-108 | Frames at 3, 5, 6, 10 and 14 s after a start at 0 give: not due, sent, not due, a failed attempt, not due. A failed attempt also restarts the 5 s interval. |

## Left out

- `LoginScreen.js` and the sign-out handler (`HomeScreen.js:48-59`): calls to the hosted identity provider and navigation, with no local logic beyond empty-field guards.
- Alerts and console logging: represented only by the outcome values the methods return.
- JSX layout, styles, the contact list rendering and the map's region and marker details.
- The contact id: standing for `Date.now().toString()`, it is a parameter. Nothing is assumed about its uniqueness.
- Asynchrony: the awaited permission, fix and watch results are delivered in order as event methods. Their order is guaranteed by the `await` chain and is stated as `phase` preconditions. A rejected await on the home screen is simply an event that never arrives, so the view stays where it was: the spinner when the permission request or the fix rejects, the map at the initial fix when the watch call rejects. Two overlapping presses of the location button, which the source would interleave, are not modelled. Each press is one atomic `GetLocation`.
- The watch options (accuracy, 5000 ms, 5 m). They are passed to the platform and not acted on by the app.
- Subscription teardown: the source keeps no handle, so there is nothing to model.
- In the Pi script: camera capture, model inference, image conversion and drawing, the Bluetooth connection set-up and close, the `q` key, and the class labels, which are only drawn. The clock is a parameter of `Tick`. A failing send is a boolean parameter.
- Floating point: areas, centres and time differences are exact `real` values. Rounding and summation-order effects are not captured.
