/** The balance's controller: the scale state, one step function per user or timer
    event, and the display computed from the state. Randomness and the settings
    timer are inputs: the power button receives the random draw, and the expiry of a
    long-press timer is an event of its own. */
module Controller {
  import opened Catalogue
  import opened Pan
  import opened Geometry
  import opened Optional
  import Rendering

  /** Long-press timers still pending. `armed` is the one the settings handle points
      at, which a release can clear; `orphans` counts earlier timers whose handle was
      overwritten by a later press and which nothing can clear any more. */
  datatype Timer = Timer(armed: bool, orphans: nat)

  /** The drag in progress, if any: the grabbed element and where inside its box it was grabbed. */
  datatype Grab = Idle | Holding(item: Item, offset: Point)

  datatype Scale = Scale(
    on: bool,
    calibrating: bool,
    initialOffset: real,
    tareOffset: real,
    timer: Timer,
    pan: seq<Item>,
    grab: Grab
  )

  /** The state on page load: off, nothing on the pan, no offsets, no timer, no drag. */
  const Init := Scale(false, false, 0.0, 0.0, Timer(false, 0), [], Idle)

  /** Number of long-press timers that will still fire. */
  function Pending(t: Timer): nat {
    (if t.armed then 1 else 0) + t.orphans
  }

  /** Status line under the readout. */
  datatype Status = PowerOnPrompt | CalibrationNotice | ContainerWarning | MeasurePrompt

  /** What the mass readout holds: nothing, the calibration sentinel, or a reading in grams. */
  datatype Readout = Blank | Cal | Grams(value: real)

  datatype Screen = Screen(readout: Readout, status: Status)

  /** The reading while weighing: pan mass plus the power-on drift minus the tare. */
  function Reading(s: Scale): (g: real)
    ensures g >= s.initialOffset - s.tareOffset
    ensures s.pan == [] ==> g == s.initialOffset - s.tareOffset
  {
    PanMass(s.pan) + s.initialOffset - s.tareOffset
  }

  /** `updateMassDisplay`. Off: blank with a prompt to power on, whatever the pan or
      the calibration flag hold. On and calibrating: the CAL sentinel. Otherwise the
      reading, with the container warning exactly when a powder is on the pan and
      neither a dish nor a paper is. */
  function Display(s: Scale): (d: Screen)
    ensures !s.on <==> d == Screen(Blank, PowerOnPrompt)
    ensures s.on && s.calibrating <==> d == Screen(Cal, CalibrationNotice)
    ensures s.on && !s.calibrating ==> d.readout == Grams(Reading(s))
    ensures s.on && !s.calibrating ==> d.status in {ContainerWarning, MeasurePrompt}
    ensures d.status == ContainerWarning <==>
      && s.on && !s.calibrating
      && (exists i :: 0 <= i < |s.pan| && IsPowder(s.pan[i]))
      && (forall j :: 0 <= j < |s.pan| ==> !IsContainer(s.pan[j]))
  {
    if !s.on then Screen(Blank, PowerOnPrompt)
    else if s.calibrating then Screen(Cal, CalibrationNotice)
    else
      var powder := Any(s.pan, IsPowder);
      var status := if powder && !Any(s.pan, IsContainer) then ContainerWarning else MeasurePrompt;
      Screen(Grams(Reading(s)), status)
  }

  /** The readout's text: empty, "CAL", or the rendered value followed by " g". */
  function ReadoutText(r: Readout): (t: string)
    ensures r.Grams? ==> t == Rendering.Render(r.value) + " g"
    ensures r.Grams? ==> t != "-0.0 g"
    ensures r.Blank? <==> t == ""
    ensures r.Cal? <==> t == "CAL"
  {
    match r
    case Blank => ""
    case Cal => "CAL"
    case Grams(v) =>
      var n := Rendering.Render(v);
      assert |n| >= 3 by {
        assert Rendering.ParseTenths(n).Some?;
      }
      assert (n + " g")[..|n|] == n;
      n + " g"
  }

  /** Power-on drift, `Math.random() * 0.4 - 0.2`, with the draw as an input. */
  function Drift(random: real): (d: real)
    ensures 0.0 <= random < 1.0 ==> -0.2 <= d < 0.2
  {
    random * 0.4 - 0.2
  }

  /** The power button. Turning on draws a new drift and tares to the mass already on
      the pan, but leaves the calibration flag alone. Turning off clears the
      calibration flag and nothing else; pending timers keep running. */
  function PowerToggle(s: Scale, random: real): (r: Scale)
    ensures r.on == !s.on
    ensures r.pan == s.pan && r.grab == s.grab && r.timer == s.timer
    ensures r.on ==> r.calibrating == s.calibrating
    ensures r.on ==> r.tareOffset == PanMass(s.pan)
    ensures r.on ==> r.initialOffset == Drift(random)
    ensures r.on && 0.0 <= random < 1.0 ==> -0.2 <= r.initialOffset < 0.2
    ensures !r.on ==> !r.calibrating
    ensures !r.on ==> r.initialOffset == s.initialOffset && r.tareOffset == s.tareOffset
  {
    if !s.on then s.(on := true, initialOffset := Drift(random), tareOffset := PanMass(s.pan))
    else s.(on := false, calibrating := false)
  }

  /** The zero button: when weighing, tares so that the reading becomes exactly 0;
      when off or calibrating, does nothing. */
  function ZeroPress(s: Scale): (r: Scale)
    ensures s.on && !s.calibrating ==> Display(r).readout == Grams(0.0)
    ensures s.on && !s.calibrating ==> r.(tareOffset := s.tareOffset) == s
    ensures !(s.on && !s.calibrating) ==> r == s
  {
    if s.on && !s.calibrating then s.(tareOffset := PanMass(s.pan) + s.initialOffset)
    else s
  }

  /** Press on the settings button: ignored when off; otherwise arms a new timer,
      and a timer armed before is orphaned rather than cleared. Arming does not look
      at the calibration flag. */
  function StartSettingsPress(s: Scale): (r: Scale)
    ensures !s.on ==> r == s
    ensures s.on ==> r.timer.armed && Pending(r.timer) == Pending(s.timer) + 1
    ensures r.(timer := s.timer) == s
  {
    if !s.on then s
    else s.(timer := Timer(true, s.timer.orphans + if s.timer.armed then 1 else 0))
  }

  /** Release, leave or cancel on the settings button: clears the timer the handle
      points at, if it is still pending; orphaned timers are out of its reach. */
  function EndSettingsPress(s: Scale): (r: Scale)
    ensures !r.timer.armed && r.timer.orphans == s.timer.orphans
    ensures r.(timer := s.timer) == s
  {
    s.(timer := s.timer.(armed := false))
  }

  /** The armed timer fires: calibration begins, whether or not the scale is on.
      When no armed timer is pending the event cannot happen, so nothing changes. */
  function FireArmedTimer(s: Scale): (r: Scale)
    ensures s.timer.armed ==> r.calibrating && !r.timer.armed && r.timer.orphans == s.timer.orphans
    ensures s.timer.armed ==> r.(calibrating := s.calibrating, timer := s.timer) == s
    ensures !s.timer.armed ==> r == s
  {
    if s.timer.armed then s.(calibrating := true, timer := s.timer.(armed := false)) else s
  }

  /** An orphaned timer fires: calibration begins, whether or not the scale is on. */
  function FireOrphanTimer(s: Scale): (r: Scale)
    ensures s.timer.orphans > 0 ==> r.calibrating && Pending(r.timer) == Pending(s.timer) - 1
    ensures s.timer.orphans > 0 ==> r.timer == s.timer.(orphans := s.timer.orphans - 1)
    ensures s.timer.orphans > 0 ==> r.(calibrating := s.calibrating, timer := s.timer) == s
    ensures s.timer.orphans == 0 ==> r == s
  {
    if s.timer.orphans > 0 then s.(calibrating := true, timer := s.timer.(orphans := s.timer.orphans - 1))
    else s
  }

  /** Top-left corner of the grabbed element for a pointer at `e`: the pointer minus the grab offset. */
  function GrabbedTopLeft(g: Grab, e: PointerEvent): (p: Point)
    requires g.Holding?
    ensures p.x + g.offset.x == EventCoords(e).x && p.y + g.offset.y == EventCoords(e).y
  {
    var c := EventCoords(e);
    Point(c.x - g.offset.x, c.y - g.offset.y)
  }

  /** Press on a draggable element whose box is `box`: it becomes the grabbed element,
      remembering where in the box it was grabbed, and it leaves the pan. */
  function DragStart(s: Scale, item: Item, e: PointerEvent, box: Rect): (r: Scale)
    ensures r.grab.Holding? && r.grab.item == item
    ensures GrabbedTopLeft(r.grab, e) == Point(box.left, box.top)
    ensures r.pan == Withdraw(s.pan, item)
    ensures r.(pan := s.pan, grab := s.grab) == s
  {
    var c := EventCoords(e);
    s.(pan := Withdraw(s.pan, item), grab := Holding(item, Point(c.x - box.left, c.y - box.top)))
  }

  /** Pointer motion: without a grab nothing happens; with one, the element's new
      top-left keeps the grab point under the pointer. The controller state is unchanged. */
  function DragMove(s: Scale, e: PointerEvent): (p: Option<Point>)
    ensures p.None? <==> s.grab.Idle?
    ensures p.Some? ==> p.value.x + s.grab.offset.x == EventCoords(e).x
    ensures p.Some? ==> p.value.y + s.grab.offset.y == EventCoords(e).y
  {
    if s.grab.Idle? then None else Some(GrabbedTopLeft(s.grab, e))
  }

  /** Whether releasing at `e` drops the grabbed element, of the given size, over the pan. */
  function DropHits(g: Grab, e: PointerEvent, width: real, height: real, panBox: Rect): (b: bool)
    requires g.Holding?
    ensures var c := EventCoords(e);
      var centre := Point(c.x - g.offset.x + width / 2.0, c.y - g.offset.y + height / 2.0);
      && (b ==> panBox.top <= centre.y <= panBox.Bottom())
      && (panBox.height > 0.0 ==> (b <==> InsideTaper(centre, panBox)))
      && (panBox.height == 0.0 ==> !b)
  {
    var p := GrabbedTopLeft(g, e);
    OverTrapezoid(Rect(p.x, p.y, width, height), panBox)
  }

  /** Release: without a grab nothing happens. Otherwise the grabbed element is put
      on the pan when its centre is over the pan and it is not there already, and the
      grab ends whatever the outcome. */
  function DragEnd(s: Scale, e: PointerEvent, width: real, height: real, panBox: Rect): (r: Scale)
    ensures s.grab.Idle? ==> r == s
    ensures r.grab.Idle?
    ensures s.grab.Holding? ==>
      (s.grab.item in r.pan <==> s.grab.item in s.pan || DropHits(s.grab, e, width, height, panBox))
    ensures s.grab.Holding? ==> forall y :: y != s.grab.item ==> (y in r.pan <==> y in s.pan)
    ensures NoDup(s.pan) ==> NoDup(r.pan)
    ensures r.(pan := s.pan, grab := s.grab) == s
  {
    if s.grab.Idle? then s
    else
      var hit := DropHits(s.grab, e, width, height, panBox);
      s.(pan := Deposit(s.pan, s.grab.item, hit), grab := Idle)
  }

  /** Every event the controller reacts to. */
  datatype Event =
    | PowerClick(random: real)
    | ZeroClick
    | SettingsDown
    | SettingsUp
    | ArmedTimerFires
    | OrphanTimerFires
    | Pressed(item: Item, e: PointerEvent, box: Rect)
    | Moved(e: PointerEvent)
    | Released(e: PointerEvent, width: real, height: real, panBox: Rect)

  /** An event the page can deliver: the random draw lies in [0, 1). */
  predicate ValidEvent(ev: Event) {
    ev.PowerClick? ==> 0.0 <= ev.random < 1.0
  }

  /** One event. Only the power button switches power; only the buttons and timers
      touch the calibration flag and the offsets; only presses and releases of a
      draggable element change the pan or the grab; a pointer move changes nothing. */
  function Step(s: Scale, ev: Event): (r: Scale)
    ensures r.on != s.on <==> ev.PowerClick?
    ensures r.calibrating != s.calibrating ==> ev.PowerClick? || ev.ArmedTimerFires? || ev.OrphanTimerFires?
    ensures (r.initialOffset, r.tareOffset) != (s.initialOffset, s.tareOffset) ==> ev.PowerClick? || ev.ZeroClick?
    ensures r.timer != s.timer ==> ev.SettingsDown? || ev.SettingsUp? || ev.ArmedTimerFires? || ev.OrphanTimerFires?
    ensures (r.pan, r.grab) != (s.pan, s.grab) ==> ev.Pressed? || ev.Released?
    ensures ev.Moved? ==> r == s
  {
    match ev
    case PowerClick(random) => PowerToggle(s, random)
    case ZeroClick => ZeroPress(s)
    case SettingsDown => StartSettingsPress(s)
    case SettingsUp => EndSettingsPress(s)
    case ArmedTimerFires => FireArmedTimer(s)
    case OrphanTimerFires => FireOrphanTimer(s)
    case Pressed(item, e, box) => DragStart(s, item, e, box)
    case Moved(_) => s
    case Released(e, width, height, panBox) => DragEnd(s, e, width, height, panBox)
  }

  /** The state after a sequence of events, taken in order. */
  function Run(s: Scale, evs: seq<Event>): Scale
    decreases |evs|
  {
    if |evs| == 0 then s else Run(Step(s, evs[0]), evs[1..])
  }
}
