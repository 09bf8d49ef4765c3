/** The water bottle filling station: three states, a valve that is open while
    filling, and a filling deadline.  `Context` holds the machine's fields as a
    value, the functions below say what each hook and each `update()` does to it,
    and the `WaterCoolerMachine` class changes its fields exactly as they say.
    The clock is the integer `now` handed to each call. */
module WaterCooler {
  import opened Options

  /** `FILL_TIMEOUT`: how long the valve may stay open, in clock ticks. */
  const FillTimeout: int := 5

  /** `EVENT_DETECT`: the sensor sees a bottle. */
  const Detect: string := "D"

  /** `EVENT_UNDETECT`: the sensor no longer sees a bottle. */
  const Undetect: string := "U"

  datatype WState = Waiting | Filling | Timedout
  {
    /** The `name` each state object sets for itself. */
    function Name(): string
    {
      match this
      case Waiting => "waiting"
      case Filling => "filling"
      case Timedout => "timedout"
    }
  }

  /** What the machine does to the world, in order: the state hooks it runs and
      what it prints ("opening valve", "closing valve", the progress dot). */
  datatype Effect =
    | Exited(state: string)
    | Entered(state: string)
    | ValveOpened
    | ValveClosed
    | Progress

  /** The machine's fields as one value. */
  datatype Context = Context(
    state: Option<WState>,
    states: map<string, WState>,
    event: string,
    stopTime: int,
    trace: seq<Effect>)

  /** The result of a call: the context it leaves and whether the state lookup
      raised (the context is then what was reached by that point). */
  datatype Outcome = Outcome(ctx: Context, raised: bool)

  /** `add_state` files every state under its own name. */
  predicate WellNamed(states: map<string, WState>)
  {
    forall k :: k in states ==> states[k].Name() == k
  }

  /** All three states are registered. */
  predicate Complete(states: map<string, WState>)
  {
    "waiting" in states && "filling" in states && "timedout" in states
  }

  /** The context right after `__init__`; the deadline starts at 0. */
  function Initial(): (r: Context)
    ensures r.state.None? && r.states == map[] && r.event == "" && r.trace == []
  {
    Context(None, map[], "", 0, [])
  }

  /** `add_state(s)`. */
  function AddStateTo(c: Context, s: WState): (r: Context)
    ensures r == c.(states := r.states)
    ensures r.states.Keys == c.states.Keys + {s.Name()} && r.states[s.Name()] == s
    ensures forall k :: k in c.states && k != s.Name() ==> r.states[k] == c.states[k]
    ensures WellNamed(c.states) ==> WellNamed(r.states)
  {
    c.(states := c.states[s.Name() := s])
  }

  /** `on_exit` of the current state: leaving `filling` closes the valve. */
  function Exit(c: Context): (r: Context)
    requires c.state.Some?
    ensures |r.trace| == |c.trace| + (if c.state == Some(Filling) then 2 else 1)
    ensures r == c.(trace := r.trace) && r.trace[..|c.trace|] == c.trace
    ensures r.trace[|c.trace|] == Exited(c.state.value.Name())
    ensures c.state == Some(Filling) ==> r.trace[|c.trace| + 1] == ValveClosed
  {
    var exited := c.trace + [Exited(c.state.value.Name())];
    c.(trace := if c.state.value == Filling then exited + [ValveClosed] else exited)
  }

  /** `on_entry` of the state just made current: entering `filling` opens the valve
      and sets the deadline; entering `timedout` closes the valve again. */
  function Enter(c: Context, now: int): (r: Context)
    requires c.state.Some?
    ensures r.state == c.state && r.states == c.states && r.event == c.event
    ensures r.stopTime == if c.state == Some(Filling) then now + FillTimeout else c.stopTime
    ensures |r.trace| == |c.trace| + (if c.state == Some(Waiting) then 1 else 2)
    ensures r.trace[..|c.trace|] == c.trace && r.trace[|c.trace|] == Entered(c.state.value.Name())
    ensures c.state == Some(Filling) ==> r.trace[|c.trace| + 1] == ValveOpened
    ensures c.state == Some(Timedout) ==> r.trace[|c.trace| + 1] == ValveClosed
  {
    var entered := c.trace + [Entered(c.state.value.Name())];
    match c.state.value
    case Waiting => c.(trace := entered)
    case Filling => c.(stopTime := now + FillTimeout, trace := entered + [ValveOpened])
    case Timedout => c.(trace := entered + [ValveClosed])
  }

  /** `go_to_state(name)` at time `now`: exit the current state, look the name up
      (raising if it is not registered) and enter the state found. */
  function GoTo(c: Context, name: string, now: int): (r: Outcome)
    ensures r.ctx.states == c.states && r.ctx.event == c.event
    ensures r.raised <==> name !in c.states
    ensures r.ctx.state == if r.raised then c.state else Some(c.states[name])
    ensures r.ctx.stopTime == if !r.raised && c.states[name] == Filling then now + FillTimeout else c.stopTime
  {
    var exited := if c.state.Some? then Exit(c) else c;
    if name !in exited.states then Outcome(exited, true)
    else Outcome(Enter(exited.(state := Some(exited.states[name])), now), false)
  }

  /** `WaitingState.update`. */
  function WaitingUpdate(c: Context, now: int): (r: Outcome)
    ensures r.raised <==> c.event == Detect && "filling" !in c.states
    ensures WellNamed(c.states) && !r.raised ==>
              r.ctx.state == (if c.event == Detect then Some(Filling) else c.state)
    ensures WellNamed(c.states) && !r.raised ==>
              r.ctx.stopTime == (if c.event == Detect then now + FillTimeout else c.stopTime)
  {
    if c.event == Detect then GoTo(c, "filling", now) else Outcome(c, false)
  }

  /** `FillingState.update`: UNDETECT is checked before the deadline. */
  function FillingUpdate(c: Context, now: int): (r: Outcome)
    ensures r.raised <==> if c.event == Undetect then "waiting" !in c.states
                          else c.stopTime <= now && "timedout" !in c.states
    ensures WellNamed(c.states) && !r.raised ==>
              r.ctx.state == (if c.event == Undetect then Some(Waiting)
                              else if c.stopTime <= now then Some(Timedout) else c.state)
    ensures WellNamed(c.states) ==> r.ctx.stopTime == c.stopTime
  {
    if c.event == Undetect then GoTo(c, "waiting", now)
    else if c.stopTime <= now then GoTo(c, "timedout", now)
    else Outcome(c.(trace := c.trace + [Progress]), false)
  }

  /** `TimedoutState.update`. */
  function TimedoutUpdate(c: Context, now: int): (r: Outcome)
    ensures r.raised <==> c.event == Undetect && "waiting" !in c.states
    ensures WellNamed(c.states) && !r.raised ==>
              r.ctx.state == (if c.event == Undetect then Some(Waiting) else c.state)
    ensures WellNamed(c.states) ==> r.ctx.stopTime == c.stopTime
  {
    if c.event == Undetect then GoTo(c, "waiting", now) else Outcome(c, false)
  }

  /** `update()` at time `now`: run the current state's update, if there is one. */
  function Step(c: Context, now: int): (r: Outcome)
    ensures r.ctx.states == c.states && r.ctx.event == c.event
  {
    match c.state
    case None => Outcome(c, false)
    case Some(s) =>
      match s
      case Waiting => WaitingUpdate(c, now)
      case Filling => FillingUpdate(c, now)
      case Timedout => TimedoutUpdate(c, now)
  }

  /** One reading of the sensor: the event seen and the clock at that moment. */
  datatype Input = Input(event: string, now: int)

  /** The main loop: store each event on the machine and call `update()`; an
      exception ends the run. */
  function Drive(c: Context, inputs: seq<Input>): (r: Outcome)
    ensures r.ctx.states == c.states
    decreases |inputs|
  {
    if inputs == [] then Outcome(c, false)
    else
      var before := Drive(c, inputs[..|inputs| - 1]);
      var input := inputs[|inputs| - 1];
      if before.raised then before
      else Step(before.ctx.(event := input.event), input.now)
  }

  /** The water cooler object: the source's fields, updated in place. */
  class WaterCoolerMachine {
    var state: Option<WState>
    var states: map<string, WState>
    var event: string
    var stopTime: int
    var trace: seq<Effect>

    function Ctx(): Context
      reads this
    {
      Context(state, states, event, stopTime, trace)
    }

    /** `__init__`: no state, nothing registered, no event. */
    constructor ()
      ensures Ctx() == Initial()
    {
      state := None;
      states := map[];
      event := "";
      stopTime := 0;
      trace := [];
    }

    method AddState(s: WState)
      modifies this
      ensures Ctx() == AddStateTo(old(Ctx()), s)
    {
      states := states[s.Name() := s];
    }

    method OnExit()
      requires state.Some?
      modifies this
      ensures Ctx() == Exit(old(Ctx()))
    {
      trace := trace + [Exited(state.value.Name())];
      if state.value == Filling {
        trace := trace + [ValveClosed];
      }
    }

    method OnEntry(now: int)
      requires state.Some?
      modifies this
      ensures Ctx() == Enter(old(Ctx()), now)
    {
      trace := trace + [Entered(state.value.Name())];
      match state.value
      case Waiting =>
      case Filling =>
        trace := trace + [ValveOpened];
        stopTime := now + FillTimeout;
      case Timedout =>
        trace := trace + [ValveClosed];
    }

    method GoToState(name: string, now: int) returns (raised: bool)
      modifies this
      ensures Outcome(Ctx(), raised) == GoTo(old(Ctx()), name, now)
    {
      if state.Some? {
        OnExit();
      }
      if name !in states {
        return true;
      }
      state := Some(states[name]);
      OnEntry(now);
      raised := false;
    }

    method Update(now: int) returns (raised: bool)
      modifies this
      ensures Outcome(Ctx(), raised) == Step(old(Ctx()), now)
    {
      raised := false;
      if state.Some? {
        match state.value
        case Waiting =>
          raised := WaitingStateUpdate(now);
        case Filling =>
          raised := FillingStateUpdate(now);
        case Timedout =>
          raised := TimedoutStateUpdate(now);
      }
    }

    method WaitingStateUpdate(now: int) returns (raised: bool)
      modifies this
      ensures Outcome(Ctx(), raised) == WaitingUpdate(old(Ctx()), now)
    {
      raised := false;
      if event == Detect {
        raised := GoToState("filling", now);
      }
    }

    method FillingStateUpdate(now: int) returns (raised: bool)
      modifies this
      ensures Outcome(Ctx(), raised) == FillingUpdate(old(Ctx()), now)
    {
      raised := false;
      if event == Undetect {
        raised := GoToState("waiting", now);
      } else if stopTime <= now {
        raised := GoToState("timedout", now);
      } else {
        trace := trace + [Progress];
      }
    }

    method TimedoutStateUpdate(now: int) returns (raised: bool)
      modifies this
      ensures Outcome(Ctx(), raised) == TimedoutUpdate(old(Ctx()), now)
    {
      raised := false;
      if event == Undetect {
        raised := GoToState("waiting", now);
      }
    }
  }
}
