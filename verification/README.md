# Balance-scale simulator: controller model

The page simulates a laboratory balance. The user drags weights, a petri dish,
weighing paper and a tagged specimen ("weight4": rabbit, cat or powder) onto a
tapered pan, switches the scale on and off, zeroes it (tare), and can enter a hidden
calibration mode by holding the settings button. This project models the logic under
those DOM handlers as pure functions over an immutable state record:

- `Catalogue`: object kinds and the nominal mass table, with the weight4 tag lookup.
- `Pan`: pan contents as a sequence of elements, first-occurrence removal on pick-up,
  conditional append on drop, the left-to-right mass sum and the `.some` test.
- `Rendering`: `toFixed(1)` on the reading and the "-0.0" to "0.0" fix, with a parser
  that reads a rendering back.
- `Geometry`: pointer coordinates from mouse or touch events, bounding boxes and the
  trapezoid drop test.
- `Controller`: the scale state (power, calibration flag, drift, tare, long-press
  timers, pan, drag in progress), one step function per event, the display, and
  `Run` over a sequence of events.
- `Properties`: lemmas relating several events.

Randomness and time are inputs. The power button receives the `Math.random()` draw.
The expiry of the 2-second long-press timer is an event of its own. `ArmedTimerFires`
is the timer the settings handle points at. `OrphanTimerFires` is an earlier timer
whose handle a second press overwrote. Element positions and the pan's box are input
records of reals (`Rect`, `PointerEvent`).

Quirks of the code that the model keeps as written:
- Powering on does not clear the calibration flag; only powering off does.
- Powering off does not cancel a pending long-press timer, which can then set the
  calibration flag while the scale is off (`Properties.TimerOutlivesPowerOff`).
- A second press on settings overwrites the timer handle without clearing the first
  timer (`Properties.SecondPressOrphansTimer`).
- A weight4 tag is looked up in the one table shared with class names, so a tag such
  as "weight1" weighs 25.0 (`Catalogue.TagSharesClassTable`).
- A release is meant to cancel the long-press, and calibration is meant to start only
  while the scale is on; the code cancels only the most recent timer and never checks
  power when a timer fires. The model follows the code.
- The zero button sets the tare to pan mass plus drift, the same two terms the reading
  adds, so the reading after zeroing is exactly 0 even in double arithmetic.
- A pan box of zero height makes the interpolation 0/0, which is NaN, so the drop
  test rejects; the model returns `false` there rather than requiring a positive height.

## Model

| member | source | states |
|---|---|---|
| Catalogue.TagMass | script.js:11-33 | a listed tag weighs its table entry (rabbit 75.5, cat 123.0, powder 50.8), an unlisted one weighs 0 by the `|| 0` fallback; the mass is never negative and is zero exactly when the tag is unlisted |
| Catalogue.MassOf | script.js:11-37 | total, non-negative lookup: 25.0, 50.0, 100.0 for the weights, 15.2 for the dish, 0.3 for the paper, the tag's table mass for weight4 (75.5 for a rabbit, 123.0 for a cat, 50.8 for powder), and zero only for a weight4 with an unlisted tag |
| Catalogue.TagSharesClassTable | script.js:30-33 | a weight4 tagged with a class name weighs what an object of that class weighs, because tags and classes share one table |
| Pan.IndexOf | script.js:149 | `indexOf`: -1 exactly when the element is absent, otherwise an index holding it with no earlier occurrence |
| Pan.RemoveAt | script.js:151 | `splice(i, 1)`: one slot fewer, the others kept in order, the multiset losing exactly that value |
| Pan.RemoveAtNoDup | script.js:151 | removing a slot from a duplicate-free list keeps it duplicate-free and removes its value entirely |
| Pan.Withdraw | script.js:149-152 | picking up removes one occurrence of the element and nothing else, leaves a duplicate-free pan duplicate-free, and leaves the element off it |
| Pan.Deposit | script.js:213-217 | the element is on the pan afterwards exactly when it was before or the drop hit; other elements are untouched; no duplicate is ever created |
| Pan.PanMass | script.js:66 | the summed mass of the pan is never negative |
| Pan.Any | script.js:52-56 | the left-to-right `.some` scan is true exactly when some element satisfies the test |
| Pan.PanMassAppend | script.js:66 | the mass of a concatenation is the sum of the parts' masses |
| Pan.PanMassWithdraw | script.js:149-154 | picking an element up lowers the pan mass by exactly its mass |
| Pan.PanMassSplice | script.js:151 | cutting one slot out of the pan lowers its mass by exactly the mass of the element in that slot |
| Pan.PanMassSplit | script.js:66 | the summed mass of the pan is the mass of any prefix plus the mass of the rest |
| Pan.PanMassSingleton | script.js:66 | a pan holding one element weighs that element's mass |
| Pan.PanMassPrefix | script.js:66 | extending a prefix of the pan by one slot adds the mass of the element in that slot, as the left-to-right sum does |
| Pan.PanMassPermutation | script.js:66 | the pan mass does not depend on the order of the pan |
| Rendering.Tenths | script.js:68 | `toFixed(1)` rounding: the magnitude in tenths is within half a tenth of the value, ties going up |
| Rendering.SignedTenths | script.js:68 | the rounded value is within half a tenth of the value and has its sign |
| Rendering.DigitsRoundTrip | script.js:68 | the decimal numeral written for a number reads back as that number |
| Rendering.ParseLayout | script.js:68 | a sign, numeral, point and digit read back as the signed tenths they spell |
| Rendering.ToFixed1 | script.js:68 | `toFixed(1)` text: at least three characters ending in a point and one digit, starting with a minus sign exactly when the value is negative (so a small negative value gives "-0.0") |
| Rendering.ToFixed1RoundTrip | script.js:68 | the `toFixed(1)` text reads back as the rounded value |
| Rendering.Render | script.js:68-71 | the shown text is never "-0.0", denotes the rounded value, and starts with a minus sign exactly when the rounded value is negative |
| Rendering.NegativeZeroShownAsZero | script.js:68-71 | a value in (-0.05, 0) is written "-0.0" by `toFixed` and shown as "0.0" |
| Geometry.EventCoords | script.js:137-144 | the pointer position is the first of: first touch, first changed touch, mouse position |
| Geometry.CenterOver | script.js:123-133 | accepted points lie in the vertical span; for a positive height acceptance equals the division-free half-plane description of the trapezoid; a zero-height pan accepts nothing |
| Geometry.SidesAsHalfPlanes | script.js:130-133 | the interpolated left and right boundaries are the two slanted half-planes of the trapezoid |
| Geometry.OverTrapezoid | script.js:118-134 | the test on the dragged box's centre: accepted centres lie in the pan's vertical span and inside the trapezoid |
| Geometry.TopEdge | script.js:123-133 | on the top edge exactly the open inset interval (left+0.2w, left+0.8w) is accepted |
| Geometry.BottomEdge | script.js:125-133 | on the bottom edge exactly the open interval (left, right) is accepted |
| Geometry.WidensDownward | script.js:130-133 | an accepted centre stays accepted when moved straight down within the pan |
| Controller.Reading | script.js:66-67 | the reading is the drift minus the tare plus a pan contribution that is never negative, and exactly the drift minus the tare on an empty pan |
| Controller.Display | script.js:39-64 | off: blank with the power-on prompt whatever else holds; on and calibrating: CAL; otherwise the reading, with the container warning exactly when some powder and no dish or paper is on the pan and the measuring prompt in every other case |
| Controller.ReadoutText | script.js:66-72 | the readout text is empty, "CAL", or the rendered reading with " g", never "-0.0 g" |
| Controller.Drift | script.js:78 | the drift lies in [-0.2, 0.2) for a draw in [0, 1) |
| Controller.PowerToggle | script.js:75-85 | power flips; on: the drift is the one drawn from the random input (hence bounded), the tare is the pan mass, the calibration flag is kept; off: calibration cleared, offsets kept; pan, drag and timers untouched |
| Controller.ZeroPress | script.js:87-93 | when on and not calibrating the reading afterwards is exactly 0 and only the tare changed; otherwise nothing changes |
| Controller.StartSettingsPress | script.js:95-101 | ignored when off; otherwise a new timer is armed and the pending count grows by one, an earlier one staying pending |
| Controller.EndSettingsPress | script.js:103-105 | clears only the armed timer; orphaned timers and the rest of the state are unchanged |
| Controller.FireArmedTimer | script.js:97-100 | the armed timer firing sets the calibration flag, on or off, and changes nothing else |
| Controller.FireOrphanTimer | script.js:97-100 | an orphaned timer firing sets the calibration flag and uses up exactly one orphan; the armed handle and the rest of the state are untouched |
| Controller.GrabbedTopLeft | script.js:183-185 | the element's top-left plus the grab offset is the pointer position |
| Controller.DragStart | script.js:146-166 | the pressed element becomes the grab, leaves the pan, and does not jump: its top-left stays at its box's corner |
| Controller.DragMove | script.js:177-189 | no grab: nothing; with a grab: the grab point stays under the pointer |
| Controller.DropHits | script.js:202-213 | the drop test applied to the box placed at pointer minus grab offset: a hit keeps the box centre in the pan's vertical span; for a positive pan height a hit is exactly the centre lying inside the trapezoid; a zero-height pan is never hit |
| Controller.DragEnd | script.js:191-221 | no grab: nothing; otherwise the grab always ends and the element is on the pan exactly when it was or the drop hit, with no duplicate created |
| Controller.Step | script.js:75-228 | the listener wiring: only the power button switches power; only power and timer firings change the calibration flag; only power and zero change the offsets; only settings presses and timer firings change the timers; only element presses and releases change the pan or the grab; a pointer move changes nothing |
| Properties.InitInv | script.js:18-23 | the page starts off, blank, with an empty pan, and satisfies the invariant |
| Properties.StepInv | script.js:146-221 | every single event keeps the pan duplicate-free, the grabbed element off the pan and the drift bounded |
| Properties.RunInv | script.js:146-221 | any interleaving of events keeps that invariant |
| Properties.PowerOnReadsDrift | script.js:75-80 | right after power-on the reading is the drift, in [-0.2, 0.2), whatever is on the pan |
| Properties.PowerOnKeepsCalibration | script.js:76-82 | powering on with the calibration flag set shows CAL |
| Properties.PowerCycleLeavesCalibration | script.js:75-85 | off then on leaves calibration and reads the fresh drift |
| Properties.TareThenDrop | script.js:87-93 | after zeroing, dropping an element on the pan reads exactly its mass |
| Properties.TareThenLift | script.js:87-93 | after zeroing, lifting an element off the pan reads minus its mass |
| Properties.ReadingIgnoresOrder | script.js:66-67 | rearranging the pan does not change the reading |
| Properties.CalibrationOnlyByTimer | script.js:95-105 | the calibration flag is set only by a pending timer firing |
| Properties.NoTimerNoCalibration | script.js:95-105 | with no timer pending and no further settings press, calibration never begins |
| Properties.ReleasedPressNeverCalibrates | script.js:103-113 | a press released before its timer fires never leads to calibration |
| Properties.HeldPressCalibrates | script.js:97-100 | a press held until its timer fires shows CAL |
| Properties.PressWhileOffIgnored | script.js:96 | a settings press while off arms nothing and leads to no calibration |
| Properties.TimerOutlivesPowerOff | script.js:81-83 | a timer armed before power-off fires while off, stays hidden by the blank display, and the next power-on shows CAL |
| Properties.SecondPressOrphansTimer | script.js:97 | after two presses and a release one timer is still pending and its firing shows CAL |
| Properties.ZeroIgnoredUnlessWeighing | script.js:88 | zero while off or calibrating changes nothing |
| Properties.DropCountsOnce | script.js:213-217 | after a drop the grabbed element is on the pan once if it hit and not at all if it missed |
| Properties.PickUpAndDropOnPan | script.js:149-152 | picking an element up and dropping it back on the pan leaves it there exactly once |
| Properties.IdlePointerIsNoOp | script.js:177-192 | a move or release with no grab changes nothing |
| Properties.PowderNeedsContainer | script.js:52-64 | powder alone warns; powder with a dish or paper does not |

## Left out

- DOM lookup, listener registration and removal, CSS classes, inline styles and
  `appendChild`: page plumbing with no state the controller reads back.
- `preventDefault` in the move handler: it only suppresses scrolling.
- The drop position in page coordinates (viewport position plus scroll): it is only
  written to the style. The drop test uses the element's viewport box, which after
  absolute positioning is that same position minus the scroll, so it is taken
  directly from the pointer and the grab offset.
- Floating point: masses, offsets and the drift are exact reals. `toFixed` acts on the
  real value rather than on the nearest double, and its exponent form for magnitudes
  of 1e21 and above is not modelled.
- Rendering.Tenths: rounds the exact real, not the double, so halfway cases a double
  cannot represent exactly may round differently.
- The Korean status texts: represented by the `Status` enumeration.
- Elements carrying several of the object classes at once, a missing element, and
  tags naming inherited object properties such as "constructor": the page has none.
- Catalogue.MassOf: a weight4 without a tag attribute reads the key "undefined", which
  the table does not list; it is modelled as any unlisted tag.
- Catalogue.IsPowder: the powder test at script.js:52 reads the animal-type attribute
  of every element on the pan, whatever its class; the model gives that attribute to
  weight4 elements only, so a dish, paper or weight1-3 carrying "powder" is not
  modelled. The page's other elements carry no such attribute.
- The order in which pending long-press timers fire: all use the same 2000 ms delay,
  so on the page they fire in the order they were armed, orphaned ones before the
  armed one. The model lets `ArmedTimerFires` and `OrphanTimerFires` come in any
  order, which admits more runs than the page has; the invariant and the
  calibration lemmas hold for all of them.
- The 2000 ms delay itself: time is not modelled; a timer's expiry is an event.
- Multi-touch beyond the first touch point, and event targets other than the
  draggable element itself.
