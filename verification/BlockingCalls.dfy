/** What the calls of the blocking device return, over every run, and what they do when nobody else
    moves. */
module BlockingCalls {
  import opened Common
  import opened OpenPolicy
  import opened BlockingOpen

  /** What a process was last asked for, under whose name it acts, and whether a signal came since it
      last answered one; kept from outside, whatever the program counters say. */
  datatype Log = Log(call: Option<Event>, cred: Option<Cred>, pending: bool)

  function LogOf(logs: map<Pid, Log>, p: Pid): Log {
    if p in logs then logs[p] else Log(None, None, false)
  }

  function Logged(logs: map<Pid, Log>, e: Event): map<Pid, Log> {
    var log := LogOf(logs, e.p);
    match e
    case StartOpen(p, _, _) => logs[p := log.(call := Some(e))]
    case StartRelease(p, _) => logs[p := log.(call := Some(e))]
    case Become(p, cred) => logs[p := log.(cred := Some(cred))]
    case Signal(p) => logs[p := log.(pending := true)]
    case HandleSignal(p) => logs[p := log.(pending := false)]
    case Advance(_) => logs
  }

  function LogsOf(logs: map<Pid, Log>, evs: seq<Event>): map<Pid, Log>
    decreases |evs|
  {
    if evs == [] then logs else LogsOf(Logged(logs, evs[0]), evs[1..])
  }

  /** A process does what it was asked for last, under the name it was given last, and knows of the
      signals that have come. */
  predicate DoesAsAsked(p: Proc, log: Log) {
    && p.signalled == log.pending
    && (log.cred.Some? ==> log.cred.value == p.cred)
    && (!p.pc.Idle? ==> log.call.Some?)
    && match p.pc
       case Idle => true
       case Opening(_) =>
         log.call.value.StartOpen? && log.call.value.fid == p.fid && log.call.value.nonblock == p.nonblock
       case Releasing(_) => log.call.value.StartRelease? && log.call.value.fid == p.fid
  }

  ghost predicate AllDoAsAsked(s: State, logs: map<Pid, Log>) {
    forall p :: p in s.procs ==> DoesAsAsked(s.procs[p], LogOf(logs, p))
  }

  lemma OwnStepKeepsAsked(d: Device, e: Event, p: Proc, logs: map<Pid, Log>)
    requires e.Advance? ==> CanStep(d, p)
    requires e.Become? || e.HandleSignal? ==> p.pc.Idle?
    requires DoesAsAsked(p, LogOf(logs, e.p))
    ensures DoesAsAsked(EventEffect(d, e, p).proc, LogOf(Logged(logs, e), e.p))
  {
    hide Gate.Available, Gate.Admit, Gate.Leave;
  }

  lemma OthersKeepAsked(e: Event, logs: map<Pid, Log>, q: Pid)
    requires q != e.p
    ensures LogOf(Logged(logs, e), q) == LogOf(logs, q)
  {
  }

  lemma WakeKeepsAsked(p: Proc, p': Proc, log: Log)
    requires DoesAsAsked(p, log) && p' == p.(runnable := p'.runnable)
    ensures DoesAsAsked(p', log)
  {
  }

  lemma EventKeepsAsked(s: State, e: Event, logs: map<Pid, Log>)
    requires Enabled(s, e) && AllDoAsAsked(s, logs)
    ensures AllDoAsAsked(Exec(s, e), Logged(logs, e))
  {
    hide Exec, EventEffect, DoesAsAsked, Logged, Gate.Available, Gate.Admit, Gate.Leave;
    var t, f := Exec(s, e), EventEffect(s.dev, e, s.procs[e.p]);
    OnlyWakes(s, e);
    OwnStepKeepsAsked(s.dev, e, s.procs[e.p], logs);
    forall q | q in t.procs
      ensures DoesAsAsked(t.procs[q], LogOf(Logged(logs, e), q))
    {
      if q == e.p {
        WakeKeepsAsked(f.proc, t.procs[q], LogOf(Logged(logs, e), q));
      } else {
        OthersKeepAsked(e, logs, q);
        WakeKeepsAsked(s.procs[q], t.procs[q], LogOf(logs, q));
      }
    }
  }

  lemma {:induction false} RunKeepsAsked(s: State, evs: seq<Event>, logs: map<Pid, Log>)
    requires Legal(s, evs) && AllDoAsAsked(s, logs)
    ensures AllDoAsAsked(Run(s, evs), LogsOf(logs, evs))
    decreases |evs|
  {
    hide Enabled, Exec, AllDoAsAsked;
    if evs != [] {
      EventKeepsAsked(s, evs[0], logs);
      RunKeepsAsked(Exec(s, evs[0]), evs[1..], Logged(logs, evs[0]));
    }
  }

  // ----- what holds of a call under way -----

  /** Only a blocking open waits; it gives up only on a signal; it is turned away only while the
      device is not available to it; and what it has opened it has under its caller's name. */
  predicate CallGood(d: Device, p: Proc) {
    p.pc.Opening? ==>
      match p.pc.o
      case OUnlockBusy => !d.gate.Available(p.cred)
      case OCheck | OPrepare | ORetest | OSignal | OSleep => !p.nonblock
      case OFinish(interrupted) => !p.nonblock && (interrupted ==> p.signalled)
      case OUnlock => p.fid in d.gate.holders && d.gate.holders[p.fid] == p.cred
      case OLock | OTest | OGrab => true
  }

  ghost predicate CallsGood(s: State) {
    forall p :: p in s.procs ==> CallGood(s.dev, s.procs[p])
  }

  lemma OwnStepKeepsCall(d: Device, me: Pid, p: Proc, e: Event, f: Effect)
    requires CallGood(d, p) && (e.Advance? ==> CanStep(d, p)) && f == EventEffect(d, e, p) && e.p == me
    requires e.Become? || e.HandleSignal? ==> p.pc.Idle?
    ensures CallGood(f.dev, f.proc)
  {
    hide Gate.Available;
  }

  lemma OtherKeepsCall(d: Device, me: Pid, p: Proc, f: Effect, q: Pid, o: Proc)
    requires Guarantee(d, me, p, f) && Good(d, q, o) && q != me && CallGood(d, o)
    ensures CallGood(f.dev, o)
  {
    hide Gate.Available, Gate.Valid;
  }

  /** Beyond its effect, an event only wakes. */
  lemma OnlyWakes(s: State, e: Event)
    requires Enabled(s, e)
    ensures var f, t := EventEffect(s.dev, e, s.procs[e.p]), Exec(s, e);
            && t.dev.gate == f.dev.gate && t.dev.lock == f.dev.lock && t.procs.Keys == s.procs.Keys
            && forall q :: q in s.procs ==>
                 t.procs[q] == (if q == e.p then f.proc else s.procs[q]).(runnable := t.procs[q].runnable)
  {
    hide EventEffect;
  }

  lemma EventKeepsCalls(s: State, e: Event)
    requires Inv(s) && Enabled(s, e) && CallsGood(s)
    ensures CallsGood(Exec(s, e))
  {
    hide EventEffect, Gate.Available, Gate.Valid, Exec, Guarantee, SleepersSafe, KeepsSleepers, FilesApart;
    var f, t := EventEffect(s.dev, e, s.procs[e.p]), Exec(s, e);
    OnlyWakes(s, e);
    EventIsGood(s, e, f);
    OwnStepKeepsCall(s.dev, e.p, s.procs[e.p], e, f);
    forall q | q in t.procs
      ensures CallGood(t.dev, t.procs[q])
    {
      if q != e.p {
        OtherKeepsCall(s.dev, e.p, s.procs[e.p], f, q, s.procs[q]);
      }
    }
  }

  lemma {:induction false} RunKeepsCalls(s: State, evs: seq<Event>)
    requires Inv(s) && CallsGood(s) && Legal(s, evs)
    ensures Inv(Run(s, evs)) && CallsGood(Run(s, evs))
    decreases |evs|
  {
    if evs != [] {
      EventKeepsInv(s, evs[0]);
      EventKeepsCalls(s, evs[0]);
      RunKeepsCalls(Exec(s, evs[0]), evs[1..]);
    }
  }

  lemma ReachableIsGood(s: State, init: State, evs: seq<Event>)
    requires Reachable(s, init, evs)
    ensures Inv(s) && CallsGood(s)
  {
    RunKeepsCalls(init, evs);
  }

  // ----- what an open returns -----

  /** -EAGAIN exactly when the open was asked not to block and holds the lock while the device is not
      available to its caller; -ERESTARTSYS only on a signal; and 0 only with the file open under the
      caller's name, which no failed open leaves behind. */
  predicate OpenAnswer(d: Device, me: Pid, cred: Cred, log: Log, result: Outcome) {
    && log.call.Some? && log.call.value.StartOpen? && (log.cred.Some? ==> log.cred.value == cred)
    && var asked := log.call.value;
       && (result == Failed(EAGAIN) <==> asked.nonblock && d.lock == Some(me) && !d.gate.Available(cred))
       && (result == Failed(ERESTARTSYS) ==> log.pending)
       && (result.Done? ==>
             result.count == 0 && asked.fid in d.gate.holders && d.gate.holders[asked.fid] == cred)
       && (result.Failed? ==> asked.fid !in d.gate.holders && result.errno in {EAGAIN, ERESTARTSYS})
  }

  lemma OpenStepEnds(d: Device, me: Pid, p: Proc, log: Log)
    requires Good(d, me, p) && d.gate.Valid() && CallGood(d, p) && DoesAsAsked(p, log)
    requires p.pc.Opening? && CanStep(d, p) && StepOpen(d, me, p).proc.pc.Idle?
    ensures OpenAnswer(d, me, p.cred, log, StepOpen(d, me, p).proc.result)
  {
  }

  /** Every open of every run returns what it may. */
  lemma OpenReturns(s: State, init: State, evs: seq<Event>, p: Pid)
    requires Reachable(s, init, evs) && Enabled(s, Advance(p)) && s.procs[p].pc.Opening?
    requires Exec(s, Advance(p)).procs[p].pc.Idle?
    ensures OpenAnswer(s.dev, p, s.procs[p].cred, LogOf(LogsOf(map[], evs), p), Exec(s, Advance(p)).procs[p].result)
  {
    hide StepOpen, CallGood, Exec, OpenAnswer, Gate.Valid, Gate.Available, FilesApart, SleepersSafe, DoesAsAsked;
    ReachableIsGood(s, init, evs);
    ReachableDoesAsAsked(s, init, evs, p);
    OnlyWakes(s, Advance(p));
    OpenStepEnds(s.dev, p, s.procs[p], LogOf(LogsOf(map[], evs), p));
  }

  lemma ReachableDoesAsAsked(s: State, init: State, evs: seq<Event>, p: Pid)
    requires Reachable(s, init, evs) && p in s.procs
    ensures DoesAsAsked(s.procs[p], LogOf(LogsOf(map[], evs), p))
  {
    RunKeepsAsked(init, evs, map[]);
  }

  /** A non-blocking open never waits. */
  lemma NonblockNeverWaits(s: State, init: State, evs: seq<Event>, p: Pid)
    requires Reachable(s, init, evs) && p in s.procs && s.procs[p].pc.Waits()
    ensures var log := LogOf(LogsOf(map[], evs), p);
            log.call.Some? && log.call.value.StartOpen? && !log.call.value.nonblock
  {
    ReachableIsGood(s, init, evs);
    ReachableDoesAsAsked(s, init, evs, p);
    assert CallGood(s.dev, s.procs[p]);
  }

  /** Who is asleep on the queue is woken by the last step of a release that leaves nobody in, and by
      nothing else that others do; and who is woken is off the queue, where others stay. */
  lemma OthersAreOnlyWoken(s: State, init: State, evs: seq<Event>, e: Event, q: Pid)
    requires Reachable(s, init, evs) && Enabled(s, e) && q in s.procs && q != e.p
    ensures var t, p := Exec(s, e), s.procs[e.p];
            var woken := e.Advance? && p.pc == Releasing(RWake(0)) && q in s.dev.queue;
            && t.procs[q] == (if woken then s.procs[q].(runnable := true) else s.procs[q])
            && (q in t.dev.queue <==> q in s.dev.queue && !(woken && !s.procs[q].runnable))
  {
    hide Gate.Available, Gate.Admit, Gate.Leave, Gate.Valid;
    var f := EventEffect(s.dev, e, s.procs[e.p]);
    assert q in f.dev.queue <==> q in f.dev.queue - {e.p};
    assert q in s.dev.queue <==> q in s.dev.queue - {e.p};
    QueueMoves(s.dev, e, s.procs[e.p]);
  }

  lemma QueueMoves(d: Device, e: Event, p: Proc)
    requires e.Advance? ==> CanStep(d, p)
    ensures EventEffect(d, e, p).dev.queue - {e.p} == d.queue - {e.p}
    ensures EventEffect(d, e, p).wake ==> EventEffect(d, e, p).dev.queue == d.queue
    ensures EventEffect(d, e, p).wake <==> e.Advance? && p.pc == Releasing(RWake(0))
  {
    hide Gate.Available, Gate.Admit, Gate.Leave;
  }

  // ----- who is let in -----

  lemma {:induction false} GateHasHistory(s: State, evs: seq<Event>, h: seq<Access>) returns (h': seq<Access>)
    requires Inv(s) && Legal(s, evs) && IsHistory(h) && s.dev.gate == GateAfter(h)
    ensures IsHistory(h') && Run(s, evs).dev.gate == GateAfter(h')
    decreases |evs|
  {
    h' := h;
    if evs != [] {
      EventKeepsInv(s, evs[0]);
      var next := EventInHistory(s, evs[0], h);
      h' := GateHasHistory(Exec(s, evs[0]), evs[1..], next);
    }
  }

  /** The gate moves at two points only. */
  lemma GateMoves(d: Device, e: Event, p: Proc)
    requires e.Advance? ==> CanStep(d, p)
    ensures EventEffect(d, e, p).dev.gate
            == if e.Advance? && p.pc == Opening(OGrab) then d.gate.Admit(p.fid, p.cred)
               else if e.Advance? && p.pc == Releasing(RDrop) then d.gate.Leave(p.fid)
               else d.gate
  {
    hide Gate.Available, Gate.Admit, Gate.Leave;
  }

  lemma MovesAreAllowed(s: State, p: Pid)
    requires Inv(s) && p in s.procs
    ensures s.procs[p].pc == Opening(OGrab) ==>
              s.procs[p].fid !in s.dev.gate.holders && s.dev.gate.Available(s.procs[p].cred)
    ensures s.procs[p].pc == Releasing(RDrop) ==> s.procs[p].fid in s.dev.gate.holders
  {
    hide Gate.Available, Gate.Valid;
    assert Good(s.dev, p, s.procs[p]);
  }

  lemma EventInHistory(s: State, e: Event, h: seq<Access>) returns (h': seq<Access>)
    requires Inv(s) && Enabled(s, e) && IsHistory(h) && s.dev.gate == GateAfter(h)
    ensures IsHistory(h') && Exec(s, e).dev.gate == GateAfter(h')
  {
    hide Gate.Available, Gate.Admit, Gate.Leave, Gate.Valid, EventEffect, Exec, Inv, IsHistory, GateAfter;
    OnlyWakes(s, e);
    GateMoves(s.dev, e, s.procs[e.p]);
    MovesAreAllowed(s, e.p);
    var p := s.procs[e.p];
    h' := h;
    if e.Advance? && p.pc == Opening(OGrab) {
      HistoryGrows(h, Enter(p.fid, p.cred));
      h' := h + [Enter(p.fid, p.cred)];
    } else if e.Advance? && p.pc == Releasing(RDrop) {
      HistoryGrows(h, Exit(p.fid));
      h' := h + [Exit(p.fid)];
    }
  }

  /** In every run the device has been opened and released in an order in which exactly those were let
      in whom it should let in; and so it goes on. */
  lemma LetInIff(s: State, init: State, evs: seq<Event>, c: Cred) returns (h: seq<Access>)
    requires Reachable(s, init, evs)
    ensures IsHistory(h) && s.dev.gate == GateAfter(h) && s.dev.gate.holders.Keys == OpenFiles(h)
    ensures s.dev.gate.Available(c) <==> LetsIn(h, c)
  {
    h := GateHasHistory(init, evs, []);
    GateTellsHistory(h);
    AdmittedIff(h, c);
  }

  // ----- a call when nobody else moves -----

  /** So many steps of process me alone, and whether the queue is woken at the last. */
  ghost predicate Goes(d: Device, me: Pid, p: Proc, steps: nat, d': Device, p': Proc, wake: bool)
    decreases steps
  {
    if steps == 0 then d' == d && p' == p && !wake
    else
      && CanStep(d, p)
      && var f := if p.pc.Opening? then StepOpen(d, me, p) else StepRelease(d, me, p);
         if steps == 1 then f == Effect(d', p', wake)
         else !f.wake && Goes(f.dev, me, f.proc, steps - 1, d', p', wake)
  }

  /** An open alone lets its caller in when the device is available; otherwise it returns -EAGAIN if it
      does not block, gives up on a signal, and sleeps without one. */
  lemma OpenAlone(d: Device, me: Pid, p: Proc) returns (steps: nat, d': Device, p': Proc)
    requires d.lock == None && me !in d.queue && p.runnable && p.pc == Opening(OLock)
    ensures Goes(d, me, p, steps, d', p', false)
    ensures if d.gate.Available(p.cred) then p' == p.Return(Done(0)) && d' == d.(gate := d.gate.Admit(p.fid, p.cred))
            else if p.nonblock then p' == p.Return(Failed(EAGAIN)) && d' == d
            else if p.signalled then p' == p.Return(Failed(ERESTARTSYS)) && d' == d
            else p' == p.(pc := Opening(OSleep), runnable := false) && d' == d.(queue := d.queue + {me})
  {
    hide Gate.Available, Gate.Admit;
    var inside := d.(lock := Some(me));
    if d.gate.Available(p.cred) {
      d', p' := d.(gate := d.gate.Admit(p.fid, p.cred)), p.Return(Done(0));
      assert Goes(d'.(lock := Some(me)), me, p.At(Opening(OUnlock)), 1, d', p', false);
      assert Goes(inside, me, p.At(Opening(OGrab)), 2, d', p', false);
      assert Goes(inside, me, p.At(Opening(OTest)), 3, d', p', false);
      steps := 4;
    } else if p.nonblock {
      d', p' := d, p.Return(Failed(EAGAIN));
      assert Goes(inside, me, p.At(Opening(OUnlockBusy)), 1, d', p', false);
      assert Goes(inside, me, p.At(Opening(OTest)), 2, d', p', false);
      steps := 3;
    } else {
      var n;
      n, d', p' := Waits(d, me, p.At(Opening(OPrepare)));
      assert Goes(d, me, p.At(Opening(OCheck)), n + 1, d', p', false);
      assert Goes(inside, me, p.At(Opening(OUnlockBusy)), n + 2, d', p', false);
      assert Goes(inside, me, p.At(Opening(OTest)), n + 3, d', p', false);
      steps := n + 4;
    }
  }

  lemma Waits(d: Device, me: Pid, p: Proc) returns (steps: nat, d': Device, p': Proc)
    requires p.pc == Opening(OPrepare) && !d.gate.Available(p.cred)
    ensures steps >= 1 && Goes(d, me, p, steps, d', p', false)
    ensures if p.signalled then
              p' == p.(runnable := true).Return(Failed(ERESTARTSYS)) && d' == d.(queue := d.queue - {me})
            else p' == p.(pc := Opening(OSleep), runnable := false) && d' == d.(queue := d.queue + {me})
  {
    hide Gate.Available;
    var queued, waiting := d.(queue := d.queue + {me}), p.(runnable := false);
    if p.signalled {
      d', p' := d.(queue := d.queue - {me}), p.(runnable := true).Return(Failed(ERESTARTSYS));
      assert queued.queue - {me} == d.queue - {me};
      assert Goes(queued, me, waiting.At(Opening(OFinish(true))), 1, d', p', false);
      assert Goes(queued, me, waiting.At(Opening(OSignal)), 2, d', p', false);
      assert Goes(queued, me, waiting.At(Opening(ORetest)), 3, d', p', false);
      steps := 4;
    } else {
      d', p' := queued, waiting.At(Opening(OSleep));
      assert Goes(queued, me, waiting.At(Opening(OSignal)), 1, d', p', false);
      assert Goes(queued, me, waiting.At(Opening(ORetest)), 2, d', p', false);
      steps := 3;
    }
  }

  /** A sleeping open that is woken starts over when the device is available; otherwise it goes back to
      sleep, or gives up when it was woken by a signal. */
  lemma WokenOpen(d: Device, me: Pid, p: Proc) returns (steps: nat, d': Device, p': Proc)
    requires p.pc == Opening(OSleep) && (p.runnable || p.signalled)
    ensures Goes(d, me, p, steps, d', p', false)
    ensures if d.gate.Available(p.cred) then
              p' == p.(pc := Opening(OLock), runnable := true) && d' == d.(queue := d.queue - {me})
            else if p.signalled then
              p' == p.(runnable := true).Return(Failed(ERESTARTSYS)) && d' == d.(queue := d.queue - {me})
            else p' == p.(runnable := false) && d' == d.(queue := d.queue + {me})
  {
    hide Gate.Available;
    var up := p.(pc := Opening(OPrepare), runnable := true);
    if d.gate.Available(p.cred) {
      var queued, waiting := d.(queue := d.queue + {me}), up.(runnable := false);
      d', p' := d.(queue := d.queue - {me}), up.At(Opening(OLock));
      assert queued.queue - {me} == d.queue - {me};
      assert Goes(queued, me, waiting.At(Opening(OFinish(false))), 1, d', p', false);
      assert Goes(queued, me, waiting.At(Opening(ORetest)), 2, d', p', false);
      assert Goes(d, me, up, 3, d', p', false);
      steps := 4;
    } else {
      var n;
      n, d', p' := Waits(d, me, up);
      steps := n + 1;
    }
  }

  /** A release alone takes its file back, and wakes the queue exactly when it was the last. */
  lemma ReleaseAlone(d: Device, me: Pid, p: Proc) returns (steps: nat, d': Device, p': Proc)
    requires d.lock == None && p.pc == Releasing(RLock)
    ensures Goes(d, me, p, steps, d', p', d.gate.count == 1)
    ensures p' == p.Return(Done(0)) && d' == d.(gate := d'.gate)
    ensures d'.gate.count == d.gate.count - 1 && d'.gate.holders == d.gate.holders - {p.fid}
    ensures d'.gate.owner == d.gate.owner
  {
    var inside, g := d.(lock := Some(me)), d.gate.Leave(p.fid);
    d', p' := d.(gate := g), p.Return(Done(0));
    assert Goes(d', me, p.At(Releasing(RWake(g.count))), 1, d', p', g.count == 0);
    assert Goes(d'.(lock := Some(me)), me, p.At(Releasing(RUnlock(g.count))), 2, d', p', g.count == 0);
    assert Goes(inside, me, p.At(Releasing(RDrop)), 3, d', p', g.count == 0);
    steps := 4;
  }

  // ----- what can happen -----

  /** Runs leave nothing out: a signal may come at any time; who is idle may open a file that nobody else
      has to do with, may release one that is open, and may change its name. */
  lemma NothingIsExcluded(s: State, p: Pid, f: Fid)
    requires p in s.procs
    ensures Enabled(s, Signal(p))
    ensures s.procs[p].pc.Idle? ==> Enabled(s, HandleSignal(p)) && forall cred :: Enabled(s, Become(p, cred))
    ensures s.procs[p].pc.Idle? && Unclaimed(s, f) ==> forall nonblock :: Enabled(s, StartOpen(p, f, nonblock))
    ensures && s.procs[p].pc.Idle? && f in s.dev.gate.holders
            && (forall q :: q in s.procs && s.procs[q].pc.Claims() ==> s.procs[q].fid != f)
            ==> Enabled(s, StartRelease(p, f))
  {
  }
}
