/** The device whose open waits until it is available to the caller: a count and an owner under a
    spinlock, a wait queue, and any number of processes opening and releasing it. */
module BlockingOpen {
  import opened Common
  import opened OpenPolicy

  type Pid = nat

  /** Where a process is inside `scull_w_open`; OCheck to OFinish are the steps of
      `wait_event_interruptible`. */
  datatype OpenPc =
    | OLock | OTest | OUnlockBusy
    | OCheck | OPrepare | ORetest | OSignal | OSleep | OFinish(interrupted: bool)
    | OGrab | OUnlock

  /** Where a process is inside `scull_w_release`; `left` is the local copy of the count. */
  datatype ReleasePc = RLock | RDrop | RUnlock(left: int) | RWake(left: int)

  datatype Pc = Idle | Opening(o: OpenPc) | Releasing(r: ReleasePc) {
    predicate Holds() {
      match this
      case Idle => false
      case Opening(o) => o.OTest? || o.OUnlockBusy? || o.OGrab? || o.OUnlock?
      case Releasing(r) => r.RDrop? || r.RUnlock?
    }

    predicate Waits() {
      Opening? && (o.OPrepare? || o.ORetest? || o.OSignal? || o.OSleep? || o.OFinish?)
    }

    /** About to close a file that still counts. */
    predicate Closes() { Releasing? && (r.RLock? || r.RDrop?) }

    /** Has to do with its file in a way nobody else may. */
    predicate Claims() { Opening? || Closes() }

    /** A releaser that took the count to 0 and has still to wake the queue. */
    predicate OwesWakeup() { Releasing? && ((r.RUnlock? && r.left == 0) || (r.RWake? && r.left == 0)) }
  }

  datatype Proc = Proc(pc: Pc, cred: Cred, fid: Fid, nonblock: bool, runnable: bool, signalled: bool, result: Outcome) {
    function At(pc: Pc): Proc { this.(pc := pc) }
    function Return(r: Outcome): Proc { this.(pc := Idle, result := r) }
  }

  datatype Device = Device(gate: Gate, lock: Option<Pid>, queue: set<Pid>)

  datatype State = State(dev: Device, procs: map<Pid, Proc>)

  datatype Effect = Effect(dev: Device, proc: Proc, wake: bool)

  predicate CanStep(d: Device, p: Proc) {
    match p.pc
    case Idle => false
    case Opening(o) => (o.OLock? ==> d.lock.None?) && (o.OSleep? ==> p.runnable || p.signalled)
    case Releasing(r) => r.RLock? ==> d.lock.None?
  }

  function StepOpen(d: Device, me: Pid, p: Proc): Effect
    requires p.pc.Opening?
  {
    match p.pc.o
    case OLock => Effect(d.(lock := Some(me)), p.At(Opening(OTest)), false)
    case OTest => Effect(d, p.At(Opening(if d.gate.Available(p.cred) then OGrab else OUnlockBusy)), false)
    case OUnlockBusy =>
      Effect(d.(lock := None), if p.nonblock then p.Return(Failed(EAGAIN)) else p.At(Opening(OCheck)), false)
    case OCheck => Effect(d, p.At(Opening(if d.gate.Available(p.cred) then OLock else OPrepare)), false)
    case OPrepare => Effect(d.(queue := d.queue + {me}), p.(pc := Opening(ORetest), runnable := false), false)
    case ORetest => Effect(d, p.At(Opening(if d.gate.Available(p.cred) then OFinish(false) else OSignal)), false)
    case OSignal => Effect(d, p.At(Opening(if p.signalled then OFinish(true) else OSleep)), false)
    case OSleep => Effect(d, p.(pc := Opening(OPrepare), runnable := true), false)
    case OFinish(interrupted) =>
      var p' := p.(runnable := true);
      Effect(d.(queue := d.queue - {me}),
             if interrupted then p'.Return(Failed(ERESTARTSYS)) else p'.At(Opening(OLock)), false)
    case OGrab => Effect(d.(gate := d.gate.Admit(p.fid, p.cred)), p.At(Opening(OUnlock)), false)
    case OUnlock => Effect(d.(lock := None), p.Return(Done(0)), false)
  }

  function StepRelease(d: Device, me: Pid, p: Proc): Effect
    requires p.pc.Releasing?
  {
    match p.pc.r
    case RLock => Effect(d.(lock := Some(me)), p.At(Releasing(RDrop)), false)
    case RDrop =>
      var g := d.gate.Leave(p.fid);
      Effect(d.(gate := g), p.At(Releasing(RUnlock(g.count))), false)
    case RUnlock(left) => Effect(d.(lock := None), p.At(Releasing(RWake(left))), false)
    case RWake(left) => Effect(d, p.Return(Done(0)), left == 0)
  }

  datatype Event =
    | StartOpen(p: Pid, fid: Fid, nonblock: bool)
    | StartRelease(p: Pid, fid: Fid)
    | Become(p: Pid, cred: Cred)     // setuid and the like, between calls
    | Signal(p: Pid)
    | HandleSignal(p: Pid)
    | Advance(p: Pid)

  /** File f is nobody's: not open, and not about to be. */
  ghost predicate Unclaimed(s: State, f: Fid) {
    f !in s.dev.gate.holders && forall q :: q in s.procs && s.procs[q].pc.Opening? ==> s.procs[q].fid != f
  }

  ghost predicate Enabled(s: State, e: Event) {
    && e.p in s.procs
    && match e
       case StartOpen(p, f, _) => s.procs[p].pc.Idle? && Unclaimed(s, f)
       case StartRelease(p, f) =>
         && s.procs[p].pc.Idle? && f in s.dev.gate.holders
         && (forall q :: q in s.procs && s.procs[q].pc.Claims() ==> s.procs[q].fid != f)
       case Become(_, _) | HandleSignal(_) => s.procs[e.p].pc.Idle?
       case Signal(_) => true
       case Advance(p) => CanStep(s.dev, s.procs[p])
  }

  function EventEffect(d: Device, e: Event, p: Proc): Effect
    requires e.Advance? ==> !p.pc.Idle?
  {
    match e
    case StartOpen(_, f, nonblock) => Effect(d, p.(pc := Opening(OLock), fid := f, nonblock := nonblock), false)
    case StartRelease(_, f) => Effect(d, p.(pc := Releasing(RLock), fid := f), false)
    case Become(_, cred) => Effect(d, p.(cred := cred), false)
    case Signal(_) => Effect(d, p.(signalled := true, runnable := true), false)
    case HandleSignal(_) => Effect(d, p.(signalled := false), false)
    case Advance(me) => if p.pc.Opening? then StepOpen(d, me, p) else StepRelease(d, me, p)
  }

  function Woken(procs: map<Pid, Proc>, q: set<Pid>): map<Pid, Proc> {
    map x | x in procs :: if x in q then procs[x].(runnable := true) else procs[x]
  }

  function StillQueued(procs: map<Pid, Proc>, q: set<Pid>): set<Pid> {
    set x | x in q && x in procs && procs[x].runnable
  }

  /** The wake-up of everybody on the queue. */
  function WakeAll(s: State): State {
    State(s.dev.(queue := StillQueued(s.procs, s.dev.queue)), Woken(s.procs, s.dev.queue))
  }

  function Between(s: State, p: Pid, f: Effect): State {
    State(f.dev, s.procs[p := f.proc])
  }

  ghost function Exec(s: State, e: Event): State
    requires Enabled(s, e)
  {
    var f := EventEffect(s.dev, e, s.procs[e.p]);
    if f.wake then WakeAll(Between(s, e.p, f)) else Between(s, e.p, f)
  }

  ghost predicate Init(s: State) {
    && s.dev == Device(Gate(0, 0, map[]), None, {})
    && forall p :: p in s.procs ==> s.procs[p].pc.Idle? && s.procs[p].runnable && !s.procs[p].signalled
  }

  ghost predicate Legal(s: State, evs: seq<Event>)
    decreases |evs|
  {
    evs == [] || (Enabled(s, evs[0]) && Legal(Exec(s, evs[0]), evs[1..]))
  }

  ghost function Run(s: State, evs: seq<Event>): State
    requires Legal(s, evs)
    decreases |evs|
  {
    if evs == [] then s else Run(Exec(s, evs[0]), evs[1..])
  }

  // ----- the invariant -----

  /** What holds of one process: it is inside exactly when it has the lock; it grabs the device only
      while it is available to it; the file it closes is open and the one it opens is not; it is
      queued only while it waits, and always when it is not runnable; and what a releaser is about
      to wake for is what it left behind. */
  ghost predicate Good(d: Device, me: Pid, p: Proc) {
    && (p.pc.Holds() <==> d.lock == Some(me))
    && (p.pc == Opening(OGrab) ==> d.gate.Available(p.cred))
    && (p.pc.Closes() ==> p.fid in d.gate.holders)
    && (p.pc.Opening? && !p.pc.o.OUnlock? ==> p.fid !in d.gate.holders)
    && (me in d.queue ==> p.pc.Waits())
    && (!p.runnable ==> p.pc.Waits() && me in d.queue)
  }

  /** The same file is never opened twice or closed twice at a time. */
  ghost predicate FilesApart(s: State) {
    forall p, q :: p in s.procs && q in s.procs && p != q
                   && s.procs[p].pc.Claims() && s.procs[q].pc.Claims()
                   ==> s.procs[p].fid != s.procs[q].fid
  }

  /** Past the retest, and asleep unless somebody wakes it. */
  predicate Sleeps(p: Proc) {
    (p.pc == Opening(OSignal) || p.pc == Opening(OSleep)) && !p.runnable
  }

  ghost predicate WakePending(s: State) {
    exists q :: q in s.procs && s.procs[q].pc.OwesWakeup()
  }

  /** No wake-up is lost. */
  ghost predicate SleepersSafe(s: State) {
    forall p :: p in s.procs && Sleeps(s.procs[p]) ==> !s.dev.gate.Available(s.procs[p].cred) || WakePending(s)
  }

  ghost predicate AllGood(s: State) {
    && s.dev.gate.Valid()
    && (forall p :: p in s.procs ==> Good(s.dev, p, s.procs[p]))
    && (s.dev.lock.Some? ==> s.dev.lock.value in s.procs)
    && s.dev.queue <= s.procs.Keys
  }

  ghost predicate Inv(s: State) {
    AllGood(s) && FilesApart(s) && SleepersSafe(s)
  }

  // ----- one step -----

  /** What a step promises the other processes. */
  ghost predicate Guarantee(d: Device, me: Pid, p: Proc, f: Effect) {
    && (|| f.dev.lock == d.lock
        || (d.lock == None && f.dev.lock == Some(me))
        || (d.lock == Some(me) && f.dev.lock == None))
    && (f.dev.gate != d.gate ==> d.lock == Some(me))
    && (forall x :: x in d.gate.holders && !(p.pc.Closes() && x == p.fid) ==> x in f.dev.gate.holders)
    && (forall x :: x in f.dev.gate.holders && !(p.pc.Opening? && x == p.fid) ==> x in d.gate.holders)
    && f.dev.queue - {me} == d.queue - {me}
  }

  /** Nobody to whom the device is not available finds it available after the step, unless the
      count has reached 0 and a wake-up is owed; a wake-up that is owed is not forgotten; and nobody
      goes to sleep over an available device. */
  ghost predicate KeepsSleepers(d: Device, p: Proc, f: Effect) {
    && (forall c: Cred :: d.gate.Available(c) || !f.dev.gate.Available(c) || f.proc.pc.OwesWakeup())
    && (p.pc.OwesWakeup() ==> f.proc.pc.OwesWakeup() || f.wake)
    && (Sleeps(f.proc) ==> (Sleeps(p) && f.proc.cred == p.cred) || !f.dev.gate.Available(f.proc.cred))
  }

  lemma GrabIsGood(d: Device, me: Pid, p: Proc, f: Effect)
    requires d.gate.Valid() && Good(d, me, p) && p.pc == Opening(OGrab) && f == StepOpen(d, me, p)
    ensures f.dev.gate.Valid() && Good(f.dev, me, f.proc)
  {
    AdmitKeeps(d.gate, p.fid, p.cred);
    hide Gate.Valid;
  }

  lemma OpenStepIsGood(d: Device, me: Pid, p: Proc, f: Effect)
    requires d.gate.Valid() && Good(d, me, p) && p.pc.Opening? && CanStep(d, p) && f == StepOpen(d, me, p)
    ensures f.dev.gate.Valid() && Good(f.dev, me, f.proc)
  {
    hide Gate.Valid, Gate.Admit, Gate.Available;
    if p.pc.o.OGrab? {
      GrabIsGood(d, me, p, f);
    }
  }

  lemma OpenStepGuarantees(d: Device, me: Pid, p: Proc, f: Effect)
    requires Good(d, me, p) && p.pc.Opening? && CanStep(d, p) && f == StepOpen(d, me, p)
    ensures Guarantee(d, me, p, f)
  {
  }

  lemma ReleaseStepIsGood(d: Device, me: Pid, p: Proc, f: Effect)
    requires d.gate.Valid() && Good(d, me, p) && p.pc.Releasing? && CanStep(d, p) && f == StepRelease(d, me, p)
    ensures f.dev.gate.Valid() && Good(f.dev, me, f.proc) && Guarantee(d, me, p, f)
  {
    if p.pc.r.RDrop? {
      LeaveKeeps(d.gate, p.fid);
    }
  }

  lemma StepKeepsSleepers(d: Device, me: Pid, p: Proc, e: Event, f: Effect)
    requires d.gate.Valid() && Good(d, me, p) && (e.Advance? ==> CanStep(d, p)) && e.p == me
    requires e.StartOpen? || e.StartRelease? || e.Become? || e.HandleSignal? ==> p.pc.Idle?
    requires f == EventEffect(d, e, p)
    ensures KeepsSleepers(d, p, f)
  {
    assert d.gate.count >= 0;
    hide Gate.Valid;
  }

  // ----- one event -----

  lemma GoodStays(d: Device, me: Pid, p: Proc, f: Effect, q: Pid, o: Proc)
    requires Guarantee(d, me, p, f) && Good(d, me, p) && Good(d, q, o) && q != me
    requires p.pc.Claims() && o.pc.Claims() ==> p.fid != o.fid
    ensures Good(f.dev, q, o)
  {
    assert q in f.dev.queue <==> q in f.dev.queue - {me};
    assert q in d.queue <==> q in d.queue - {me};
  }

  lemma EventIsGood(s: State, e: Event, f: Effect)
    requires Inv(s) && Enabled(s, e) && f == EventEffect(s.dev, e, s.procs[e.p])
    ensures f.dev.gate.Valid() && Good(f.dev, e.p, f.proc) && Guarantee(s.dev, e.p, s.procs[e.p], f)
    ensures KeepsSleepers(s.dev, s.procs[e.p], f)
  {
    var p := s.procs[e.p];
    StepKeepsSleepers(s.dev, e.p, p, e, f);
    if e.Advance? && p.pc.Opening? {
      OpenStepIsGood(s.dev, e.p, p, f);
      OpenStepGuarantees(s.dev, e.p, p, f);
    } else if e.Advance? {
      ReleaseStepIsGood(s.dev, e.p, p, f);
    }
  }

  lemma BetweenIsGood(s: State, e: Event, f: Effect)
    requires Inv(s) && Enabled(s, e) && f == EventEffect(s.dev, e, s.procs[e.p])
    ensures AllGood(Between(s, e.p, f))
  {
    EventIsGood(s, e, f);
    hide StepOpen, StepRelease, EventEffect, KeepsSleepers, Gate.Valid;
    var t := Between(s, e.p, f);
    forall q | q in t.procs && q != e.p
      ensures Good(t.dev, q, t.procs[q])
    {
      assert Good(s.dev, q, s.procs[q]);
      GoodStays(s.dev, e.p, s.procs[e.p], f, q, s.procs[q]);
    }
    forall q | q in f.dev.queue && q != e.p
      ensures q in s.procs
    {
      assert q in f.dev.queue - {e.p};
    }
  }

  /** Only the start of an open or a release claims a file. */
  lemma ClaimStep(d: Device, e: Event, p: Proc, f: Effect)
    requires (e.Advance? ==> !p.pc.Idle?) && f == EventEffect(d, e, p) && f.proc.pc.Claims()
    ensures p.pc.Claims() && !e.StartOpen? && !e.StartRelease? ==> f.proc.fid == p.fid
    ensures e.StartOpen? || e.StartRelease? ==> f.proc.fid == e.fid
    ensures e.StartOpen? || e.StartRelease? || p.pc.Claims()
  {
    hide Gate.Available, Gate.Admit, Gate.Leave, Gate.Valid;
  }

  lemma BetweenFilesApart(s: State, e: Event, f: Effect)
    requires Inv(s) && Enabled(s, e) && f == EventEffect(s.dev, e, s.procs[e.p])
    ensures FilesApart(Between(s, e.p, f))
  {
    hide EventEffect, SleepersSafe;
    if f.proc.pc.Claims() { ClaimStep(s.dev, e, s.procs[e.p], f); }
  }

  lemma BetweenSleepersSafe(s: State, p: Pid, f: Effect)
    requires p in s.procs && SleepersSafe(s) && KeepsSleepers(s.dev, s.procs[p], f)
    ensures f.wake || SleepersSafe(Between(s, p, f))
  {
    var t := Between(s, p, f);
    if !f.wake {
      forall x | x in t.procs && Sleeps(t.procs[x]) && t.dev.gate.Available(t.procs[x].cred)
        ensures WakePending(t)
      {
        if !s.dev.gate.Available(t.procs[x].cred) {
          assert t.procs[p].pc.OwesWakeup();
        } else {
          assert Sleeps(s.procs[x]);
          var q :| q in s.procs && s.procs[q].pc.OwesWakeup();
          assert t.procs[q].pc.OwesWakeup();
        }
      }
    }
  }

  lemma WakeAllKeeps(t: State)
    requires AllGood(t) && FilesApart(t)
    ensures Inv(WakeAll(t))
  {
    var t' := WakeAll(t);
    forall x | x in t'.procs
      ensures Good(t'.dev, x, t'.procs[x]) && !Sleeps(t'.procs[x])
    {
      assert Good(t.dev, x, t.procs[x]);
    }
  }

  lemma EventKeepsInv(s: State, e: Event)
    requires Inv(s) && Enabled(s, e)
    ensures Inv(Exec(s, e))
  {
    var f := EventEffect(s.dev, e, s.procs[e.p]);
    hide StepOpen, StepRelease, EventEffect, Gate.Valid, Good, FilesApart, SleepersSafe;
    BetweenIsGood(s, e, f);
    BetweenFilesApart(s, e, f);
    EventIsGood(s, e, f);
    BetweenSleepersSafe(s, e.p, f);
    WakeAllKeeps(Between(s, e.p, f));
  }

  lemma {:induction false} RunKeepsInv(s: State, evs: seq<Event>)
    requires Inv(s) && Legal(s, evs)
    ensures Inv(Run(s, evs))
    decreases |evs|
  {
    if evs != [] {
      EventKeepsInv(s, evs[0]);
      RunKeepsInv(Exec(s, evs[0]), evs[1..]);
    }
  }

  // ----- over every run -----

  ghost predicate Reachable(s: State, init: State, evs: seq<Event>) {
    Init(init) && Legal(init, evs) && s == Run(init, evs)
  }

  /** No wake-up is lost: whoever sleeps in an open still may not have the device, or somebody who
      took the count to 0 has still to wake the queue, even if others grab the device meanwhile. */
  lemma NoLostOpener(s: State, init: State, evs: seq<Event>, p: Pid)
    requires Reachable(s, init, evs) && p in s.procs && Sleeps(s.procs[p])
    ensures !s.dev.gate.Available(s.procs[p].cred) || WakePending(s)
  {
    RunKeepsInv(init, evs);
  }

  /** The count counts the open files, and whoever has one open passed the test for the owner. */
  lemma HoldersAreAuthorised(s: State, init: State, evs: seq<Event>)
    requires Reachable(s, init, evs)
    ensures s.dev.gate.count == |s.dev.gate.holders|
    ensures forall f :: f in s.dev.gate.holders ==> s.dev.gate.Owns(s.dev.gate.holders[f])
  {
    RunKeepsInv(init, evs);
  }

  /** When nothing can move any more, the lock is free, and whoever still waits does so because
      files of another owner are open. */
  lemma QuiescentOpeners(s: State, init: State, evs: seq<Event>, p: Pid)
    requires Reachable(s, init, evs) && p in s.procs && !s.procs[p].pc.Idle?
    requires forall q :: q in s.procs ==> !CanStep(s.dev, s.procs[q])
    ensures s.dev.lock == None
    ensures Sleeps(s.procs[p])
    ensures s.dev.gate.holders != map[] && !s.dev.gate.Owns(s.procs[p].cred)
  {
    RunKeepsInv(init, evs);
    if s.dev.lock.Some? {
      var h := s.dev.lock.value;
      assert Good(s.dev, h, s.procs[h]);
      assert CanStep(s.dev, s.procs[h]);
      assert false;
    }
    assert Good(s.dev, p, s.procs[p]);
  }
}
