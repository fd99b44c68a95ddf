/** The module parameters over runs of calls: what commands set them to, and what others then say. */
module Parameters {
  import opened Common
  import opened Geometry
  import opened DriverSpec

  /** The two parameters of the geometry, and the size of a pipe. */
  datatype Which = TheQuantum | TheQset | ThePipe

  function Value(g: Globals, w: Which): int {
    match w
    case TheQuantum => g.quantum
    case TheQset => g.qset
    case ThePipe => g.pipeSize
  }

  predicate Names(p: Param, w: Which) {
    (p.Quantum? && w.TheQuantum?) || (p.Qset? && w.TheQset?)
  }

  /** What a call sets the parameter to, if it sets it: a reset to the default; a set or an exchange by
      the administrator to what user memory holds, if it can be read; a tell or a shift by the
      administrator to the argument; and anybody may tell the size of a pipe. */
  function SetTo(e: Event, w: Which): Option<int> {
    if !e.Ioctl? then None
    else
      match e.c
      case Reset => if w.TheQuantum? then Some(4000) else if w.TheQset? then Some(1000) else None
      case Set(p, user) => if e.admin && Names(p, w) then user else None
      case Exchange(p, user, _) => if e.admin && Names(p, w) then user else None
      case Tell(p, arg) => if e.admin && Names(p, w) then Some(AsInt(arg)) else None
      case Shift(p, arg) => if e.admin && Names(p, w) then Some(AsInt(arg)) else None
      case TellPipe(arg) => if w.ThePipe? then Some(AsInt(arg)) else None
      case Get(_, _) | Query(_) | QueryPipe => None
  }

  /** The value of the parameter after a run: what it was last set to. */
  function LastSet(start: int, events: seq<Event>, w: Which): int
    decreases |events|
  {
    if events == [] then start
    else
      match SetTo(events[|events| - 1], w)
      case Some(v) => v
      case None => LastSet(start, events[..|events| - 1], w)
  }

  lemma EventSets(s: DriverState, e: Event, t: DriverState, w: Which)
    requires Next(s, e, t)
    ensures Value(t.g, w) == match SetTo(e, w) case Some(v) => v case None => Value(s.g, w)
  {
  }

  /** Over every run each parameter is what it was last set to. */
  lemma {:induction false} ParameterIsLastSet(states: seq<DriverState>, events: seq<Event>, w: Which)
    requires IsRun(states, events)
    ensures Value(states[|events|].g, w) == LastSet(Value(states[0].g, w), events, w)
    decreases |events|
  {
    hide Next, SetTo;
    if events != [] {
      var n := |events| - 1;
      RunPrefix(states, events);
      ParameterIsLastSet(states[..n + 1], events[..n], w);
      EventSets(states[n], events[n], states[n + 1], w);
    }
  }

  function Named(p: Param): Which {
    if p.Quantum? then TheQuantum else TheQset
  }

  /** All that was last set. */
  function AllLastSet(start: Globals, events: seq<Event>): Globals {
    Globals(LastSet(start.quantum, events, TheQuantum),
            LastSet(start.qset, events, TheQset),
            LastSet(start.pipeSize, events, ThePipe))
  }

  /** What a command must answer when that was last set before it. */
  predicate Answers(e: Event, last: Globals)
    requires e.Ioctl?
  {
    match e.c
    case Query(p) => e.result == IoctlResult.Value(Value(last, Named(p)))
    case QueryPipe => e.result == IoctlResult.Value(last.pipeSize)
    case Get(p, writable) => e.result == if writable then Copied(Value(last, Named(p))) else Error(EFAULT)
    case Reset | TellPipe(_) => e.result == IoctlResult.Value(0)
    case _ =>
      if !e.admin then e.result == Error(EPERM)
      else
        match e.c
        case Tell(_, _) => e.result == IoctlResult.Value(0)
        case Shift(p, _) => e.result == IoctlResult.Value(Value(last, Named(p)))
        case Set(_, user) => e.result == if user.Some? then IoctlResult.Value(0) else Error(EFAULT)
        case Exchange(p, user, writable) =>
          e.result == if user.Some? && writable then Copied(Value(last, Named(p))) else Error(EFAULT)
        case _ => true
  }

  /** Over every run: a query, and a get, give what the parameter was last set to; an exchange and a
      shift give the value before their own; and who is not the administrator gets -EPERM from all
      commands that set the geometry, but for the reset. */
  lemma CommandsAnswer(states: seq<DriverState>, events: seq<Event>, k: nat)
    requires IsRun(states, events) && k < |events| && events[k].Ioctl?
    ensures Answers(events[k], AllLastSet(states[0].g, events[..k]))
  {
    ParameterIsLastSet(states[..k + 1], events[..k], TheQuantum);
    ParameterIsLastSet(states[..k + 1], events[..k], TheQset);
    ParameterIsLastSet(states[..k + 1], events[..k], ThePipe);
    assert Next(states[k], events[k], states[k + 1]);
  }
}
