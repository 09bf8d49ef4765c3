/** What the water cooler promises, proved about the functions that its methods
    are verified against. */
module WaterCoolerProofs {
  import opened Options
  import opened WaterCooler

  /** Whether the valve is open after the effects `trace`: the last valve effect
      opened it (the valve starts closed). */
  function ValveOpen(trace: seq<Effect>): bool
  {
    if trace == [] then false
    else
      match trace[|trace| - 1]
      case ValveOpened => true
      case ValveClosed => false
      case _ => ValveOpen(trace[..|trace| - 1])
  }

  /** The valve is open exactly while the machine is filling. */
  predicate ValveAgrees(c: Context)
  {
    ValveOpen(c.trace) <==> c.state == Some(Filling)
  }

  /** The machine invariant: every state registered under its own name, a current
      state, and the valve open exactly in `filling`. */
  predicate Inv(c: Context)
  {
    WellNamed(c.states) && Complete(c.states) && c.state.Some? && ValveAgrees(c)
  }

  /** One more effect: only the valve effects change whether the valve is open. */
  lemma ValveAfter(t: seq<Effect>, e: Effect)
    ensures ValveOpen(t + [e]) == (if e == ValveOpened then true else if e == ValveClosed then false else ValveOpen(t))
  {
    assert (t + [e])[..|t|] == t;
  }

  /** The machine as the program sets it up: three states registered. */
  function Configure(): Context
  {
    AddStateTo(AddStateTo(AddStateTo(Initial(), Waiting), Filling), Timedout)
  }

  lemma Configured()
    ensures WellNamed(Configure().states) && Complete(Configure().states)
    ensures Configure().states.Keys == {"waiting", "filling", "timedout"}
    ensures Configure() == Initial().(states := Configure().states)
  {
    var c1 := AddStateTo(Initial(), Waiting);
    var c2 := AddStateTo(c1, Filling);
    AddStateKeepsWellNamed(Initial(), Waiting);
    AddStateKeepsWellNamed(c1, Filling);
    AddStateKeepsWellNamed(c2, Timedout);
  }

  /** `add_state` keeps every state filed under its own name. */
  lemma AddStateKeepsWellNamed(c: Context, s: WState)
    requires WellNamed(c.states)
    ensures WellNamed(AddStateTo(c, s).states)
    ensures AddStateTo(c, s).states.Keys == c.states.Keys + {s.Name()}
  {
  }

  /** Setting up and entering `waiting` leaves the machine waiting with the valve
      closed, keeping the invariant. */
  lemma ConfigureThenWait(now: int)
    ensures var r := GoTo(Configure(), "waiting", now);
            && !r.raised && r.ctx.state == Some(Waiting) && r.ctx.trace == [Entered("waiting")]
            && r.ctx.stopTime == 0 && Inv(r.ctx)
  {
    Configured();
    var c := Configure();
    assert c.states["waiting"].Name() == "waiting";
    assert GoTo(c, "waiting", now) == Outcome(Enter(c.(state := Some(Waiting)), now), false);
    assert Enter(c.(state := Some(Waiting)), now) == c.(state := Some(Waiting), trace := [Entered("waiting")]);
    ValveAfter([], Entered("waiting"));
  }

  /** An unregistered name raises after `on_exit` has run, leaving the state as it was. */
  lemma GoToUnknownState(c: Context, name: string, now: int)
    requires name !in c.states
    ensures var r := GoTo(c, name, now);
            && r.raised && r.ctx.state == c.state && r.ctx.stopTime == c.stopTime
            && (c.state.None? ==> r.ctx == c)
            && (c.state == Some(Filling) ==> r.ctx.trace == c.trace + [Exited("filling"), ValveClosed])
            && (c.state.Some? && c.state != Some(Filling) ==> r.ctx.trace == c.trace + [Exited(c.state.value.Name())])
  {
  }

  /** `update()` with no current state changes nothing. */
  lemma StepWithoutState(c: Context, now: int)
    requires c.state.None?
    ensures Step(c, now) == Outcome(c, false)
  {
  }

  /** In `waiting`, DETECT opens the valve, sets the deadline `now + FILL_TIMEOUT`
      and moves to `filling`; every other event changes nothing. */
  lemma WaitingStep(c: Context, now: int)
    requires WellNamed(c.states) && Complete(c.states) && c.state == Some(Waiting)
    ensures var r := Step(c, now);
            if c.event == Detect then
              r == Outcome(c.(state := Some(Filling), stopTime := now + FillTimeout,
                              trace := c.trace + [Exited("waiting"), Entered("filling"), ValveOpened]), false)
            else r == Outcome(c, false)
  {
    assert c.states["filling"].Name() == "filling";
  }

  /** In `filling`, UNDETECT closes the valve and moves to `waiting`, whether or not
      the deadline has passed. */
  lemma FillingUndetect(c: Context, now: int)
    requires WellNamed(c.states) && Complete(c.states) && c.state == Some(Filling)
    requires c.event == Undetect
    ensures Step(c, now) == Outcome(c.(state := Some(Waiting),
                                   trace := c.trace + [Exited("filling"), ValveClosed, Entered("waiting")]), false)
  {
    assert c.states["waiting"].Name() == "waiting";
  }

  /** In `filling`, with no UNDETECT and the deadline reached, the valve is closed
      and the machine moves to `timedout`; the deadline itself is kept. */
  lemma FillingTimeout(c: Context, now: int)
    requires WellNamed(c.states) && Complete(c.states) && c.state == Some(Filling)
    requires c.event != Undetect && c.stopTime <= now
    ensures Step(c, now) == Outcome(c.(state := Some(Timedout),
                                   trace := c.trace + [Exited("filling"), ValveClosed, Entered("timedout"), ValveClosed]), false)
  {
    assert c.states["timedout"].Name() == "timedout";
  }

  /** In `filling`, with no UNDETECT before the deadline, only a progress dot is printed. */
  lemma FillingContinues(c: Context, now: int)
    requires c.state == Some(Filling)
    requires c.event != Undetect && now < c.stopTime
    ensures Step(c, now) == Outcome(c.(trace := c.trace + [Progress]), false)
  {
  }

  /** In `timedout`, UNDETECT moves to `waiting`; DETECT and any other event are ignored. */
  lemma TimedoutStep(c: Context, now: int)
    requires WellNamed(c.states) && Complete(c.states) && c.state == Some(Timedout)
    ensures var r := Step(c, now);
            if c.event == Undetect then
              r == Outcome(c.(state := Some(Waiting), trace := c.trace + [Exited("timedout"), Entered("waiting")]), false)
            else r == Outcome(c, false)
  {
    assert c.states["waiting"].Name() == "waiting";
  }

  /** The transition diagram of the module's documentation: DETECT takes `waiting`
      to `filling`, UNDETECT takes `filling` and `timedout` to `waiting`, and the
      deadline takes `filling` to `timedout`. */
  function Diagram(s: WState, event: string, deadlinePassed: bool): WState
  {
    match s
    case Waiting => if event == Detect then Filling else Waiting
    case Filling => if event == Undetect then Waiting else if deadlinePassed then Timedout else Filling
    case Timedout => if event == Undetect then Waiting else Timedout
  }

  /** Every `update()` follows the diagram, never raises, and changes the deadline
      only when it enters `filling`. */
  lemma StepFollowsDiagram(c: Context, now: int)
    requires WellNamed(c.states) && Complete(c.states) && c.state.Some?
    ensures var r := Step(c, now);
            && !r.raised
            && r.ctx.state == Some(Diagram(c.state.value, c.event, c.stopTime <= now))
            && r.ctx.stopTime == (if c.state == Some(Waiting) && c.event == Detect then now + FillTimeout else c.stopTime)
  {
    match c.state.value
    case Waiting => WaitingStep(c, now);
    case Filling =>
      if c.event == Undetect {
        FillingUndetect(c, now);
      } else if c.stopTime <= now {
        FillingTimeout(c, now);
      }
    case Timedout => TimedoutStep(c, now);
  }

  /** Any `go_to_state` to a registered state keeps the valve open exactly in `filling`. */
  lemma GoToKeepsValve(c: Context, name: string, now: int)
    requires WellNamed(c.states) && name in c.states && ValveAgrees(c)
    ensures var r := GoTo(c, name, now);
            !r.raised && r.ctx.state == Some(c.states[name]) && ValveAgrees(r.ctx)
  {
    var exited := if c.state.Some? then Exit(c) else c;
    if c.state.Some? {
      var t := c.trace + [Exited(c.state.value.Name())];
      ValveAfter(c.trace, Exited(c.state.value.Name()));
      ValveAfter(t, ValveClosed);
    }
    assert !ValveOpen(exited.trace);
    var s := exited.states[name];
    var entered := exited.trace + [Entered(s.Name())];
    ValveAfter(exited.trace, Entered(s.Name()));
    ValveAfter(entered, ValveOpened);
    ValveAfter(entered, ValveClosed);
  }

  /** Every `update()` keeps the invariant and raises nothing. */
  lemma StepKeepsInv(c: Context, now: int)
    requires Inv(c)
    ensures !Step(c, now).raised && Inv(Step(c, now).ctx)
  {
    match c.state.value
    case Waiting =>
      if c.event == Detect {
        GoToKeepsValve(c, "filling", now);
      }
    case Filling =>
      if c.event == Undetect {
        GoToKeepsValve(c, "waiting", now);
      } else if c.stopTime <= now {
        GoToKeepsValve(c, "timedout", now);
      } else {
        ValveAfter(c.trace, Progress);
      }
    case Timedout =>
      if c.event == Undetect {
        GoToKeepsValve(c, "waiting", now);
      }
  }

  /** Any run of sensor readings keeps the invariant and never raises. */
  lemma {:induction false} DriveKeepsInv(c: Context, inputs: seq<Input>)
    requires Inv(c)
    ensures !Drive(c, inputs).raised && Inv(Drive(c, inputs).ctx)
    decreases |inputs|
  {
    if inputs != [] {
      var init := inputs[..|inputs| - 1];
      var input := inputs[|inputs| - 1];
      DriveKeepsInv(c, init);
      StepKeepsInv(Drive(c, init).ctx.(event := input.event), input.now);
    }
  }

  /** Readings before the deadline with no UNDETECT keep the machine filling with the
      same deadline, printing one progress dot each. */
  lemma {:induction false} FillingUntilDeadline(c: Context, inputs: seq<Input>)
    requires c.state == Some(Filling)
    requires forall k :: 0 <= k < |inputs| ==> inputs[k].event != Undetect && inputs[k].now < c.stopTime
    ensures var r := Drive(c, inputs);
            && !r.raised && r.ctx.state == Some(Filling) && r.ctx.stopTime == c.stopTime
            && r.ctx.trace == c.trace + seq(|inputs|, _ => Progress)
    decreases |inputs|
  {
    if inputs != [] {
      var init := inputs[..|inputs| - 1];
      var input := inputs[|inputs| - 1];
      FillingUntilDeadline(c, init);
      var before := Drive(c, init).ctx.(event := input.event);
      FillingContinues(before, input.now);
      assert c.trace + seq(|init|, _ => Progress) + [Progress] == c.trace + seq(|inputs|, _ => Progress);
    }
  }

  /** Without UNDETECT the valve cannot stay open past the deadline: the first
      reading at or after it times the machine out. */
  lemma TimesOutAtDeadline(c: Context, inputs: seq<Input>, last: Input)
    requires WellNamed(c.states) && Complete(c.states) && c.state == Some(Filling)
    requires forall k :: 0 <= k < |inputs| ==> inputs[k].event != Undetect && inputs[k].now < c.stopTime
    requires last.event != Undetect && c.stopTime <= last.now
    ensures var r := Drive(c, inputs + [last]);
            && !r.raised && r.ctx.state == Some(Timedout) && r.ctx.stopTime == c.stopTime
            && !ValveOpen(r.ctx.trace)
  {
    assert (inputs + [last])[..|inputs|] == inputs;
    FillingUntilDeadline(c, inputs);
    var before := Drive(c, inputs).ctx.(event := last.event);
    FillingTimeout(before, last.now);
    ValveAfter(before.trace + [Exited("filling"), ValveClosed, Entered("timedout")], ValveClosed);
    assert before.trace + [Exited("filling"), ValveClosed, Entered("timedout"), ValveClosed]
        == before.trace + [Exited("filling"), ValveClosed, Entered("timedout")] + [ValveClosed];
  }

  /** Bottle detected and removed, then detected and left past the deadline, then
      detected again (ignored) and removed, at times 0, 0, 0, 5, 5, 5: from
      `waiting`, the successive `update()` calls leave the machine filling, waiting,
      filling, timedout, timedout, waiting.  The fourth update keeps the stored
      DETECT, as the program leaves the last event in place. */
  lemma Scenario(c: Context)
    requires WellNamed(c.states) && Complete(c.states) && c.state == Some(Waiting)
    ensures var c1 := Step(c.(event := Detect), 0);
            var c2 := Step(c1.ctx.(event := Undetect), 0);
            var c3 := Step(c2.ctx.(event := Detect), 0);
            var c4 := Step(c3.ctx, 5);
            var c5 := Step(c4.ctx.(event := Detect), 5);
            var c6 := Step(c5.ctx.(event := Undetect), 5);
            && !c1.raised && !c2.raised && !c3.raised && !c4.raised && !c5.raised && !c6.raised
            && c1.ctx.state == Some(Filling) && c2.ctx.state == Some(Waiting)
            && c3.ctx.state == Some(Filling) && c4.ctx.state == Some(Timedout)
            && c5.ctx.state == Some(Timedout) && c6.ctx.state == Some(Waiting)
  {
    FillEmptyFill(c);
    var c3 := Step(Step(Step(c.(event := Detect), 0).ctx.(event := Undetect), 0).ctx.(event := Detect), 0);
    TimeoutThenRelease(c3.ctx);
  }

  /** The first three readings of that run, all at time 0: DETECT, UNDETECT, DETECT
      leave the machine filling again, with the deadline 5 and DETECT still stored. */
  lemma FillEmptyFill(c: Context)
    requires WellNamed(c.states) && Complete(c.states) && c.state == Some(Waiting)
    ensures var c1 := Step(c.(event := Detect), 0);
            var c2 := Step(c1.ctx.(event := Undetect), 0);
            var c3 := Step(c2.ctx.(event := Detect), 0);
            && !c1.raised && !c2.raised && !c3.raised
            && c1.ctx.state == Some(Filling) && c2.ctx.state == Some(Waiting) && c3.ctx.state == Some(Filling)
            && WellNamed(c3.ctx.states) && Complete(c3.ctx.states)
            && c3.ctx.stopTime == FillTimeout && c3.ctx.event == Detect
  {
    var c1 := Step(c.(event := Detect), 0);
    StepFollowsDiagram(c.(event := Detect), 0);
    var c2 := Step(c1.ctx.(event := Undetect), 0);
    StepFollowsDiagram(c1.ctx.(event := Undetect), 0);
    StepFollowsDiagram(c2.ctx.(event := Detect), 0);
  }

  /** The last three readings, at time 5: the stored DETECT times the filling out,
      a further DETECT is ignored, and UNDETECT brings the machine back to waiting. */
  lemma TimeoutThenRelease(d: Context)
    requires WellNamed(d.states) && Complete(d.states) && d.state == Some(Filling)
    requires d.stopTime <= 5 && d.event == Detect
    ensures var c4 := Step(d, 5);
            var c5 := Step(c4.ctx.(event := Detect), 5);
            var c6 := Step(c5.ctx.(event := Undetect), 5);
            && !c4.raised && !c5.raised && !c6.raised
            && c4.ctx.state == Some(Timedout) && c5.ctx.state == Some(Timedout) && c6.ctx.state == Some(Waiting)
  {
    var c4 := Step(d, 5);
    StepFollowsDiagram(d, 5);
    var c5 := Step(c4.ctx.(event := Detect), 5);
    StepFollowsDiagram(c4.ctx.(event := Detect), 5);
    StepFollowsDiagram(c5.ctx.(event := Undetect), 5);
  }
}
