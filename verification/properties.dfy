/** Properties of the controller that relate several events: the invariant every
    run keeps, what the readout shows after power-on and zeroing, when calibration
    can begin, and how drags keep the pan free of duplicates. */
module Properties {
  import opened Catalogue
  import opened Pan
  import opened Geometry
  import opened Controller

  /** The controller invariant: the pan holds each element at most once, the grabbed
      element is never on the pan (so it never counts towards the reading), and the
      drift lies in [-0.2, 0.2). */
  predicate Inv(s: Scale) {
    && NoDup(s.pan)
    && (s.grab.Holding? ==> s.grab.item !in s.pan)
    && -0.2 <= s.initialOffset < 0.2
  }

  lemma InitInv()
    ensures Inv(Init)
    ensures Display(Init) == Screen(Blank, PowerOnPrompt)
  {
  }

  /** Every single event keeps the invariant. */
  lemma StepInv(s: Scale, ev: Event)
    requires Inv(s)
    requires ValidEvent(ev)
    ensures Inv(Step(s, ev))
  {
    match ev
    case Pressed(item, e, box) =>
      assert Step(s, ev).pan == Withdraw(s.pan, item);
    case Released(e, width, height, panBox) =>
      assert Step(s, ev).grab.Idle?;
    case _ =>
  }

  /** Any interleaving of button presses, timer expiries and drag starts, moves and
      ends keeps the invariant; in particular the pan never holds duplicates. */
  lemma {:induction false} RunInv(s: Scale, evs: seq<Event>)
    requires Inv(s)
    requires forall i :: 0 <= i < |evs| ==> ValidEvent(evs[i])
    ensures Inv(Run(s, evs))
    decreases |evs|
  {
    if |evs| > 0 {
      StepInv(s, evs[0]);
      RunInv(Step(s, evs[0]), evs[1..]);
    }
  }

  /** Turning on with a calibration flag that is clear shows the drift alone, whatever
      lies on the pan: the tare absorbs the pan's mass. */
  lemma PowerOnReadsDrift(s: Scale, random: real)
    requires !s.on && !s.calibrating
    requires 0.0 <= random < 1.0
    ensures var d := Display(PowerToggle(s, random));
      d.readout.Grams? && d.readout.value == Drift(random) && -0.2 <= d.readout.value < 0.2
  {
  }

  /** Turning on does not clear a calibration flag that is already set. */
  lemma PowerOnKeepsCalibration(s: Scale, random: real)
    requires !s.on && s.calibrating
    ensures Display(PowerToggle(s, random)) == Screen(Cal, CalibrationNotice)
  {
  }

  /** Switching off and on again leaves calibration and starts over from the drift. */
  lemma PowerCycleLeavesCalibration(s: Scale, r1: real, r2: real)
    requires s.on
    requires 0.0 <= r2 < 1.0
    ensures var t := Run(s, [PowerClick(r1), PowerClick(r2)]);
      t.on && !t.calibrating && Display(t).readout == Grams(Drift(r2))
  {
    var evs := [PowerClick(r1), PowerClick(r2)];
    var u := PowerToggle(s, r1);
    assert evs[1..] == [PowerClick(r2)];
    assert Run(s, evs) == Run(u, [PowerClick(r2)]);
    assert Run(u, [PowerClick(r2)]) == Run(PowerToggle(u, r2), []);
  }

  /** The tare survives later additions: after zeroing, dropping an element on the pan
      reads exactly that element's mass. */
  lemma TareThenDrop(s: Scale, e: PointerEvent, width: real, height: real, panBox: Rect)
    requires Inv(s)
    requires s.on && !s.calibrating
    requires s.grab.Holding?
    requires DropHits(s.grab, e, width, height, panBox)
    ensures Display(DragEnd(ZeroPress(s), e, width, height, panBox)).readout
      == Grams(MassOf(s.grab.item.kind))
  {
    var z := ZeroPress(s);
    var t := DragEnd(z, e, width, height, panBox);
    assert t.pan == z.pan + [s.grab.item];
    PanMassAppend(z.pan, [s.grab.item]);
    PanMassSingleton(s.grab.item);
    assert t.on && !t.calibrating;
    assert Reading(t) == MassOf(s.grab.item.kind);
  }

  /** The tare survives removals too: after zeroing, picking an element off the pan
      reads minus that element's mass. */
  lemma TareThenLift(s: Scale, item: Item, e: PointerEvent, box: Rect)
    requires s.on && !s.calibrating
    requires item in s.pan
    ensures Display(DragStart(ZeroPress(s), item, e, box)).readout == Grams(-MassOf(item.kind))
  {
    var t := DragStart(ZeroPress(s), item, e, box);
    PanMassWithdraw(s.pan, item);
    assert t.on && !t.calibrating;
    assert Reading(t) == -MassOf(item.kind);
  }

  /** The reading does not depend on the order in which elements were put on the pan. */
  lemma ReadingIgnoresOrder(s: Scale, pan: seq<Item>)
    requires multiset(pan) == multiset(s.pan)
    ensures Reading(s.(pan := pan)) == Reading(s)
  {
    PanMassPermutation(pan, s.pan);
  }

  /** Calibration begins only when a pending long-press timer fires. */
  lemma CalibrationOnlyByTimer(s: Scale, ev: Event)
    requires !s.calibrating
    requires Step(s, ev).calibrating
    ensures || (ev.ArmedTimerFires? && s.timer.armed)
            || (ev.OrphanTimerFires? && s.timer.orphans > 0)
  {
  }

  /** With no timer pending and no further press of the settings button, calibration
      never begins, whatever else happens. */
  lemma {:induction false} NoTimerNoCalibration(s: Scale, evs: seq<Event>)
    requires !s.calibrating && Pending(s.timer) == 0
    requires forall i :: 0 <= i < |evs| ==> !evs[i].SettingsDown?
    ensures !Run(s, evs).calibrating
    decreases |evs|
  {
    if |evs| > 0 {
      var t := Step(s, evs[0]);
      assert !t.calibrating && Pending(t.timer) == 0 by {
        if t.calibrating {
          CalibrationOnlyByTimer(s, evs[0]);
        }
      }
      NoTimerNoCalibration(t, evs[1..]);
    }
  }

  /** A press released before the delay never leads to calibration, provided no other
      timer was pending and the settings button is not pressed again. */
  lemma ReleasedPressNeverCalibrates(s: Scale, evs: seq<Event>)
    requires !s.calibrating && Pending(s.timer) == 0
    requires forall i :: 0 <= i < |evs| ==> !evs[i].SettingsDown?
    ensures !Run(s, [SettingsDown, SettingsUp] + evs).calibrating
  {
    var t := EndSettingsPress(StartSettingsPress(s));
    assert Run(s, [SettingsDown, SettingsUp] + evs) == Run(t, evs) by {
      var evs' := [SettingsDown, SettingsUp] + evs;
      assert evs'[1..] == [SettingsUp] + evs;
      assert evs'[1..][1..] == evs;
    }
    NoTimerNoCalibration(t, evs);
  }

  /** A press held until its timer fires shows CAL. */
  lemma HeldPressCalibrates(s: Scale)
    requires s.on
    ensures Display(Run(s, [SettingsDown, ArmedTimerFires])) == Screen(Cal, CalibrationNotice)
  {
    assert Run(s, [SettingsDown, ArmedTimerFires]) == FireArmedTimer(StartSettingsPress(s)) by {
      assert [SettingsDown, ArmedTimerFires][1..] == [ArmedTimerFires];
    }
  }

  /** Pressing settings while off arms nothing: no timer, hence no calibration, follows. */
  lemma PressWhileOffIgnored(s: Scale, evs: seq<Event>)
    requires !s.on && !s.calibrating && Pending(s.timer) == 0
    requires forall i :: 0 <= i < |evs| ==> !evs[i].SettingsDown?
    ensures !Run(s, [SettingsDown] + evs).calibrating
  {
    assert ([SettingsDown] + evs)[1..] == evs;
    NoTimerNoCalibration(s, evs);
  }

  /** Switching off does not cancel a pending timer: it can still fire while the scale
      is off, the blank display hides it, and the next power-on shows CAL. */
  lemma TimerOutlivesPowerOff(s: Scale, r1: real, r2: real)
    requires s.on && !s.calibrating
    ensures var t := Run(s, [SettingsDown, PowerClick(r1), ArmedTimerFires]);
      && !t.on && t.calibrating
      && Display(t) == Screen(Blank, PowerOnPrompt)
      && Display(PowerToggle(t, r2)) == Screen(Cal, CalibrationNotice)
  {
    var evs := [SettingsDown, PowerClick(r1), ArmedTimerFires];
    var u := StartSettingsPress(s);
    var v := PowerToggle(u, r1);
    assert evs[1..] == [PowerClick(r1), ArmedTimerFires];
    assert evs[1..][1..] == [ArmedTimerFires];
    assert Run(s, evs) == Run(u, evs[1..]);
    assert Run(u, evs[1..]) == Run(v, [ArmedTimerFires]);
    assert Run(v, [ArmedTimerFires]) == Run(FireArmedTimer(v), []);
  }

  /** A second press overwrites the timer handle without clearing the first timer, so
      releasing the button cannot stop calibration any more. */
  lemma SecondPressOrphansTimer(s: Scale)
    requires s.on && !s.calibrating && Pending(s.timer) == 0
    ensures var t := Run(s, [SettingsDown, SettingsDown, SettingsUp]);
      !t.timer.armed && t.timer.orphans == 1
      && Display(FireOrphanTimer(t)) == Screen(Cal, CalibrationNotice)
  {
    var evs := [SettingsDown, SettingsDown, SettingsUp];
    assert Run(s, evs) == EndSettingsPress(StartSettingsPress(StartSettingsPress(s))) by {
      assert evs[1..] == [SettingsDown, SettingsUp];
      assert evs[1..][1..] == [SettingsUp];
    }
  }

  /** Zeroing while off or calibrating does nothing. */
  lemma ZeroIgnoredUnlessWeighing(s: Scale)
    requires !s.on || s.calibrating
    ensures Step(s, ZeroClick) == s
  {
  }

  /** A drop puts the grabbed element on the pan exactly once when it hits the pan,
      and leaves it off when it misses; dropping again and again never duplicates it. */
  lemma DropCountsOnce(s: Scale, e: PointerEvent, width: real, height: real, panBox: Rect)
    requires Inv(s)
    requires s.grab.Holding?
    ensures multiset(DragEnd(s, e, width, height, panBox).pan)[s.grab.item]
      == if DropHits(s.grab, e, width, height, panBox) then 1 else 0
  {
    assert multiset(s.pan)[s.grab.item] == 0;
  }

  /** A pick-up followed by a drop over the pan leaves the element on the pan once,
      whether or not it was there before. */
  lemma PickUpAndDropOnPan(s: Scale, item: Item, e1: PointerEvent, box: Rect,
                           e2: PointerEvent, width: real, height: real, panBox: Rect)
    requires Inv(s)
    requires DropHits(DragStart(s, item, e1, box).grab, e2, width, height, panBox)
    ensures var t := DragEnd(DragStart(s, item, e1, box), e2, width, height, panBox);
      multiset(t.pan)[item] == 1 && NoDup(t.pan) && t.grab.Idle?
  {
    var u := DragStart(s, item, e1, box);
    StepInv(s, Pressed(item, e1, box));
    DropCountsOnce(u, e2, width, height, panBox);
  }

  /** With no drag in progress, a move or a release changes nothing. */
  lemma IdlePointerIsNoOp(s: Scale, e: PointerEvent, width: real, height: real, panBox: Rect)
    requires s.grab.Idle?
    ensures Step(s, Moved(e)) == s
    ensures Step(s, Released(e, width, height, panBox)) == s
  {
  }

  /** The powder warning shows for a powder alone and clears once a container joins it. */
  lemma PowderNeedsContainer(s: Scale, powder: Item, dish: Item)
    requires s.on && !s.calibrating
    requires IsPowder(powder) && IsContainer(dish)
    ensures Display(s.(pan := [powder])).status == ContainerWarning
    ensures Display(s.(pan := [powder, dish])).status == MeasurePrompt
  {
    assert [powder, dish][1] == dish;
  }
}
