/** What the calls of the pipe protocol return, over every run.  Each call is watched from outside:
    its log says what the device gained by its own steps, whatever the program counters say. */
module PipeCalls {
  import opened Common
  import opened RingBuffer
  import opened PipeProtocol
  import opened PipeSafety
  import opened PipeTheorems

  /** What a process was last asked for, whether a signal came since it last answered one, and what its
      call has added so far to the bytes returned, to the bytes accepted and to the open files. */
  datatype Log = Log(call: Option<Event>, pending: bool, took: seq<Byte>, gave: seq<Byte>, fids: set<Fid>)

  const NOTHING := Log(None, false, [], [], {})

  function Since(was: seq<Byte>, now: seq<Byte>): seq<Byte> {
    if was <= now then now[|was|..] else []
  }

  /** The log of a call goes on by what one of its steps does to the device. */
  function Longer(log: Log, d: Device, d': Device): Log {
    log.(took := log.took + Since(d.stream, d'.stream),
         gave := log.gave + Since(d.epoch.accepted, d'.epoch.accepted),
         fids := log.fids + (d'.files.Keys - d.files.Keys))
  }

  function LogOf(logs: map<Pid, Log>, p: Pid): Log {
    if p in logs then logs[p] else NOTHING
  }

  function Asked(log: Log, e: Event): Log {
    Log(Some(e), log.pending, [], [], {})
  }

  ghost function Logged(logs: map<Pid, Log>, s: State, e: Event): map<Pid, Log>
    requires Enabled(s, e)
  {
    match e
    case StartOpen(p, _) => logs[p := Asked(LogOf(logs, p), e)]
    case StartRelease(p, _) => logs[p := Asked(LogOf(logs, p), e)]
    case StartRead(p, _, _) => logs[p := Asked(LogOf(logs, p), e)]
    case StartWrite(p, _, _) => logs[p := Asked(LogOf(logs, p), e)]
    case Signal(p) => logs[p := LogOf(logs, p).(pending := true)]
    case HandleSignal(p) => logs[p := LogOf(logs, p).(pending := false)]
    case Advance(p, _) => logs[p := Longer(LogOf(logs, p), s.dev, Exec(s, e).dev)]
    case Configure(_) => logs
  }

  ghost function LogsOf(logs: map<Pid, Log>, s: State, evs: seq<Event>): map<Pid, Log>
    requires Legal(s, evs)
    decreases |evs|
  {
    if evs == [] then logs else LogsOf(Logged(logs, s, evs[0]), Exec(s, evs[0]), evs[1..])
  }

  // ----- what holds of one call under way -----

  predicate Blocks(d: Device, r: Proc) {
    r.fid in d.files && !d.files[r.fid].nonblock
  }

  ghost predicate ReadGood(d: Device, r: Proc, log: Log)
    requires r.pc.Reading?
  {
    match r.pc.r
    case RDown | RTest | RCopy => log.took == []
    case RUpEmpty => log.took == [] && (d.Live() ==> d.ring.value.Empty())
    case RCheck | RPrepare | RRetest | RSignal | RSleep => log.took == [] && Blocks(d, r)
    case RFinish(interrupted) => log.took == [] && Blocks(d, r) && (interrupted ==> r.signalled)
    case RUp(Done(n)) => |log.took| == n <= r.count
    case RUp(Failed(errno)) => errno == EFAULT && log.took == [] && (d.Live() ==> !d.ring.value.Empty())
    case RWake(n) => |log.took| == n <= r.count
  }

  ghost predicate WriteGood(d: Device, r: Proc, log: Log)
    requires r.pc.Writing?
  {
    match r.pc.w
    case WDown | WTest | WCopy => log.gave == []
    case WUpFull => log.gave == [] && (d.Live() ==> d.ring.value.Full())
    case WPrepare | WRetest | WSleep | WFinish => log.gave == [] && Blocks(d, r)
    case WUp(Done(n)) => n <= |r.data| && log.gave == r.data[..n]
    case WUp(Failed(errno)) => errno == EFAULT && log.gave == [] && (d.Live() ==> !d.ring.value.Full())
    case WWake(n) => n <= |r.data| && log.gave == r.data[..n]
  }

  predicate OpenGood(d: Device, r: Proc, log: Log)
    requires r.pc.Opening?
  {
    match r.pc.o
    case ODown | OBody => log.fids == {}
    case OUp(Done(n)) => n == 0 && |log.fids| == 1 && forall f <- log.fids :: f in d.files && d.files[f] == r.file
    case OUp(Failed(errno)) => errno == ENOMEM && log.fids == {} && d.ring.None?
  }

  /** A process does what it was asked for last, and knows of the signals that have come. */
  predicate DoesAsAsked(r: Proc, log: Log) {
    && r.signalled == log.pending
    && (!r.pc.Idle? ==> log.call.Some?)
    && match r.pc
       case Idle => true
       case Opening(_) => log.call.value.StartOpen? && log.call.value.file == r.file
       case Releasing(_) => log.call.value.StartRelease? && log.call.value.fid == r.fid
       case Reading(_) => log.call.value.StartRead? && log.call.value.fid == r.fid && log.call.value.count == r.count
       case Writing(_) => log.call.value.StartWrite? && log.call.value.fid == r.fid && log.call.value.data == r.data
  }

  ghost predicate CallGood(d: Device, r: Proc, log: Log) {
    && DoesAsAsked(r, log)
    && match r.pc
       case Idle | Releasing(_) => true
       case Opening(_) => OpenGood(d, r, log)
       case Reading(_) => ReadGood(d, r, log)
       case Writing(_) => WriteGood(d, r, log)
  }

  ghost predicate CallsGood(s: State, logs: map<Pid, Log>) {
    forall p :: p in s.procs ==> CallGood(s.dev, s.procs[p], LogOf(logs, p))
  }

  // ----- a step keeps it -----

  /** Where a step leaves bytes and files alone, the log stays as it is. */
  lemma QuietStep(log: Log, d: Device, d': Device)
    requires d'.stream == d.stream && d'.epoch.accepted == d.epoch.accepted && d'.files == d.files
    ensures Longer(log, d, d') == log
  {
  }

  lemma ReadIsQuiet(d: Device, p: Pid, r: Proc, c: Choice)
    requires r.pc.Reading? && CanRead(d, r, c) && (r.pc.r.RCopy? ==> c.fail)
    ensures var d' := StepRead(d, p, r, c).dev;
            d'.stream == d.stream && d'.epoch == d.epoch && d'.files == d.files && d'.ring == d.ring
  {
  }

  lemma ReadCopyKeepsCall(d: Device, r: Proc, c: Choice, log: Log)
    requires d.Live() && r.pc == Reading(RCopy) && log.took == [] && !c.fail && DoesAsAsked(r, log)
    ensures var f := ReadBody(d, r, c); CallGood(f.dev, f.proc, Longer(log, d, f.dev))
  {
    hide Ring.Queue, Ring.ReadCount, Ring.AfterRead;
    ReadTakesAllItCan(d.ring.value, r.count);
    ReadTakesPrefix(d.ring.value, r.count);
  }

  lemma ReadKeepsCall(d: Device, p: Pid, r: Proc, c: Choice, log: Log)
    requires TestGood(d, r) && r.pc.Reading? && CanRead(d, r, c) && ReadGood(d, r, log) && DoesAsAsked(r, log)
    requires r.fid in d.files && (d.ring.Some? ==> d.Live())
    ensures CallGood(StepRead(d, p, r, c).dev, StepRead(d, p, r, c).proc, Longer(log, d, StepRead(d, p, r, c).dev))
  {
    hide Longer, Ring.Queue, Ring.ReadCount, Ring.AfterRead, Ring.Valid;
    if r.pc.r.RCopy? && !c.fail {
      ReadCopyKeepsCall(d, r, c, log);
    } else {
      ReadIsQuiet(d, p, r, c);
      QuietStep(log, d, StepRead(d, p, r, c).dev);
    }
  }

  lemma WriteIsQuiet(d: Device, p: Pid, r: Proc, c: Choice)
    requires r.pc.Writing? && CanWrite(d, r, c) && !r.pc.w.WCopy?
    ensures var d' := StepWrite(d, p, r, c).dev;
            d'.stream == d.stream && d'.epoch == d.epoch && d'.files == d.files && d'.ring == d.ring
  {
  }

  lemma WriteCopyKeepsCall(d: Device, r: Proc, c: Choice, log: Log)
    requires d.Live() && r.pc == Writing(WCopy) && log.gave == [] && TestGood(d, r) && DoesAsAsked(r, log)
    requires CanCopyIn(d.ring.value, r.data, c)
    ensures var f := WriteBody(d, r, c); CallGood(f.dev, f.proc, Longer(log, d, f.dev))
  {
    hide Ring.Queue, Ring.WriteCount, Ring.AfterWrite;
    WriteAcceptsAllItCan(d.ring.value, |r.data|);
    if c.fail {
      CopyKeepsRoom(d.ring.value, |r.data|, c.memory);
    }
  }

  lemma CopyKeepsRoom(r: Ring, count: nat, memory: seq<Byte>)
    requires r.Valid() && |memory| <= r.WriteCount(count)
    ensures r.wp + |memory| <= |r.buf| && r.AfterCopy(memory).Valid()
    ensures r.AfterCopy(memory).Full() == r.Full()
  {
  }

  lemma WriteKeepsCall(d: Device, p: Pid, r: Proc, c: Choice, log: Log)
    requires TestGood(d, r) && r.pc.Writing? && CanWrite(d, r, c) && WriteGood(d, r, log) && DoesAsAsked(r, log)
    requires r.fid in d.files && (d.ring.Some? ==> d.Live())
    ensures CallGood(StepWrite(d, p, r, c).dev, StepWrite(d, p, r, c).proc, Longer(log, d, StepWrite(d, p, r, c).dev))
  {
    hide Longer, Ring.Queue, Ring.WriteCount, Ring.AfterWrite, Ring.AfterCopy, WriteBody;
    if r.pc.w.WCopy? {
      WriteCopyKeepsCall(d, r, c, log);
    } else {
      WriteIsQuiet(d, p, r, c);
      QuietStep(log, d, StepWrite(d, p, r, c).dev);
    }
  }

  lemma OpenKeepsCall(d: Device, p: Pid, r: Proc, c: Choice, log: Log)
    requires LifetimeInv(d) && r.pc.Opening? && CanStep(d, r, c) && OpenGood(d, r, log) && DoesAsAsked(r, log)
    ensures CallGood(StepOpen(d, p, r, c).dev, StepOpen(d, p, r, c).proc, Longer(log, d, StepOpen(d, p, r, c).dev))
  {
    if r.pc.o.OBody? && !c.fail {
      assert d.files[c.fid := r.file].Keys - d.files.Keys == {c.fid};
    }
  }

  lemma ReleaseKeepsCall(d: Device, p: Pid, r: Proc, c: Choice, log: Log)
    requires r.pc.Releasing? && CanStep(d, r, c) && DoesAsAsked(r, log)
    ensures CallGood(StepRelease(d, p, r).dev, StepRelease(d, p, r).proc, Longer(log, d, StepRelease(d, p, r).dev))
  {
  }

  lemma StepKeepsCall(d: Device, p: Pid, r: Proc, c: Choice, log: Log)
    requires LifetimeInv(d) && Good(d, p, r) && CanStep(d, r, c) && CallGood(d, r, log)
    ensures CallGood(Step(d, p, r, c).dev, Step(d, p, r, c).proc, Longer(log, d, Step(d, p, r, c).dev))
  {
    hide ReadGood, WriteGood, OpenGood, Longer, StepRead, StepWrite, StepOpen, Ring.Valid, Ring.Queue;
    match r.pc
    case Opening(_) => OpenKeepsCall(d, p, r, c, log);
    case Releasing(_) => ReleaseKeepsCall(d, p, r, c, log);
    case Reading(_) => ReadKeepsCall(d, p, r, c, log);
    case Writing(_) => WriteKeepsCall(d, p, r, c, log);
  }

  /** Only who is inside changes the files. */
  lemma FilesNeedSemaphore(d: Device, p: Pid, r: Proc, c: Choice)
    requires SemGood(d, p, r) && CanStep(d, r, c)
    ensures Step(d, p, r, c).dev.files != d.files ==> d.sem == Some(p)
  {
    match r.pc
    case Opening(_) =>
    case Releasing(_) =>
    case Reading(_) =>
    case Writing(_) =>
  }

  lemma OthersKeepCall(d: Device, p: Pid, r: Proc, d': Device, q: Pid, o: Proc, log: Log)
    requires Guarantee(d, p, r, d') && (d'.files != d.files ==> d.sem == Some(p))
    requires Good(d, q, o) && q != p && CallGood(d, o, log)
    requires r.pc.Closes() && o.pc.UsesFile() ==> r.fid != o.fid
    ensures CallGood(d', o, log)
  {
  }

  /** The device as far as calls depend on it. */
  predicate SameForCalls(d: Device, d': Device) {
    d'.ring == d.ring && d'.files == d.files
  }

  predicate SameCallAs(r: Proc, r': Proc) {
    r' == r.(runnable := r'.runnable)
  }

  lemma WakeKeepsCall(d: Device, r: Proc, d': Device, r': Proc, log: Log)
    requires CallGood(d, r, log) && SameForCalls(d, d') && SameCallAs(r, r')
    ensures CallGood(d', r', log)
  {
  }

  lemma EventKeepsOwnCall(s: State, e: Event, f: Effect, logs: map<Pid, Log>)
    requires Inv(s) && Enabled(s, e) && !e.Configure? && CallsGood(s, logs)
    requires f == EventEffect(s.dev, e, s.procs[e.p])
    requires e.Advance? ==> Logged(logs, s, e) == logs[e.p := Longer(LogOf(logs, e.p), s.dev, f.dev)]
    ensures CallGood(f.dev, f.proc, LogOf(Logged(logs, s, e), e.p))
    ensures f.dev.files != s.dev.files ==> s.dev.sem == Some(e.p)
  {
    assert Good(s.dev, e.p, s.procs[e.p]);
    assert CallGood(s.dev, s.procs[e.p], LogOf(logs, e.p));
    if e.Advance? {
      StepKeepsCall(s.dev, e.p, s.procs[e.p], e.c, LogOf(logs, e.p));
      FilesNeedSemaphore(s.dev, e.p, s.procs[e.p], e.c);
    }
  }

  /** What a step does, as far as a log and its process can tell. */
  lemma LogIsOfEffect(logs: map<Pid, Log>, s: State, e: Event)
    requires Enabled(s, e) && e.Advance?
    ensures var f, t := Step(s.dev, e.p, s.procs[e.p], e.c), Exec(s, e);
            && SameForCalls(f.dev, t.dev) && t.dev.epoch == f.dev.epoch && t.dev.stream == f.dev.stream
            && f == EventEffect(s.dev, e, s.procs[e.p])
            && t.procs[e.p] == f.proc.(runnable := t.procs[e.p].runnable)
            && Logged(logs, s, e) == logs[e.p := Longer(LogOf(logs, e.p), s.dev, f.dev)]
  {
    hide Step;
  }

  /** Beyond its effect, an event only wakes. */
  lemma OnlyWakes(s: State, e: Event)
    requires Enabled(s, e) && !e.Configure?
    ensures var f, t := EventEffect(s.dev, e, s.procs[e.p]), Exec(s, e);
            && SameForCalls(f.dev, t.dev) && t.procs.Keys == s.procs.Keys
            && forall q :: q in s.procs ==> SameCallAs(if q == e.p then f.proc else s.procs[q], t.procs[q])
  {
    hide EventEffect;
  }

  lemma OthersAreApart(s: State, e: Event, q: Pid)
    requires Inv(s) && Enabled(s, e) && !e.Configure? && q in s.procs && q != e.p
    ensures Good(s.dev, q, s.procs[q])
    ensures s.procs[e.p].pc.Closes() && s.procs[q].pc.UsesFile() ==> s.procs[e.p].fid != s.procs[q].fid
  {
  }

  lemma EventKeepsCalls(s: State, e: Event, logs: map<Pid, Log>)
    requires Inv(s) && Enabled(s, e) && CallsGood(s, logs)
    ensures CallsGood(Exec(s, e), Logged(logs, s, e))
  {
    hide CallGood, EventEffect, Guarantee, Good, Inv, Longer, SameForCalls, SameCallAs;
    var t, logs' := Exec(s, e), Logged(logs, s, e);
    if e.Configure? {
      forall q | q in t.procs
        ensures CallGood(t.dev, t.procs[q], LogOf(logs', q))
      {
        ConfigureKeepsCall(s.dev, e.size, s.procs[q], LogOf(logs, q));
      }
    } else {
      EventKeepsOthersCalls(s, e, logs);
    }
  }

  lemma ConfigureKeepsCall(d: Device, size: nat, r: Proc, log: Log)
    requires CallGood(d, r, log)
    ensures CallGood(d.(cfg := size), r, log)
  {
  }

  lemma EventKeepsOthersCalls(s: State, e: Event, logs: map<Pid, Log>)
    requires Inv(s) && Enabled(s, e) && !e.Configure? && CallsGood(s, logs)
    ensures CallsGood(Exec(s, e), Logged(logs, s, e))
  {
    hide CallGood, EventEffect, Guarantee, Good, Inv, Longer, SameForCalls, SameCallAs, Exec;
    var t, logs' := Exec(s, e), Logged(logs, s, e);
    var f := EventEffect(s.dev, e, s.procs[e.p]);
    OnlyWakes(s, e);
    if e.Advance? {
      LogIsOfEffect(logs, s, e);
    }
    EventKeepsOwnCall(s, e, f, logs);
    EventIsGood(s, e, f);
    forall q | q in t.procs
      ensures CallGood(t.dev, t.procs[q], LogOf(logs', q))
    {
      if q == e.p {
        WakeKeepsCall(f.dev, f.proc, t.dev, t.procs[q], LogOf(logs', q));
      } else {
        OthersAreApart(s, e, q);
        OthersKeepCall(s.dev, e.p, s.procs[e.p], f.dev, q, s.procs[q], LogOf(logs, q));
        WakeKeepsCall(f.dev, s.procs[q], t.dev, t.procs[q], LogOf(logs, q));
      }
    }
  }

  lemma {:induction false} RunKeepsCalls(s: State, evs: seq<Event>, logs: map<Pid, Log>)
    requires Inv(s) && Legal(s, evs) && CallsGood(s, logs)
    ensures Inv(Run(s, evs)) && CallsGood(Run(s, evs), LogsOf(logs, s, evs))
    decreases |evs|
  {
    if evs != [] {
      EventKeepsInv(s, evs[0]);
      EventKeepsCalls(s, evs[0], logs);
      RunKeepsCalls(Exec(s, evs[0]), evs[1..], Logged(logs, s, evs[0]));
    }
  }

  // ----- what calls return -----

  /** A state of a run from a fresh device, and the logs that belong to it. */
  ghost predicate Watched(s: State, logs: map<Pid, Log>, init: State, evs: seq<Event>) {
    Reachable(s, init, evs) && logs == LogsOf(map[], init, evs)
  }

  lemma WatchedIsGood(s: State, logs: map<Pid, Log>, init: State, evs: seq<Event>)
    requires Watched(s, logs, init, evs)
    ensures Inv(s) && CallsGood(s, logs)
  {
    InitIsGood(init);
    RunKeepsCalls(init, evs, map[]);
  }

  /** The event is the last step of a call, and this is what it returns. */
  ghost predicate Returns(s: State, e: Event, result: Outcome) {
    && Enabled(s, e) && e.Advance?
    && Exec(s, e).procs[e.p].pc.Idle?
    && Exec(s, e).procs[e.p].result == result
  }

  /** What a read may return: -EAGAIN exactly when its file is non-blocking and it holds the semaphore
      over an empty queue; -ERESTARTSYS only on a signal; -EFAULT only over bytes, and no error after
      it has taken any; and otherwise the number of bytes that it took itself, never more than asked
      for. */
  ghost predicate ReadAnswer(d: Device, p: Pid, log: Log, result: Outcome) {
    && log.call.Some? && log.call.value.StartRead? && log.call.value.fid in d.files && d.Live()
    && var asked, nonblock := log.call.value, d.files[log.call.value.fid].nonblock;
       && (result == Failed(EAGAIN) <==> nonblock && d.sem == Some(p) && d.ring.value.Queue() == [])
       && (result == Failed(ERESTARTSYS) ==> log.pending)
       && (result == Failed(EFAULT) ==> d.sem == Some(p) && d.ring.value.Queue() != [])
       && (result.Failed? ==> log.took == [] && result.errno in {EAGAIN, ERESTARTSYS, EFAULT})
       && (result.Done? ==> |log.took| == result.count <= asked.count)
  }

  lemma ReadStepEnds(d: Device, p: Pid, r: Proc, c: Choice, log: Log)
    requires d.Live() && r.fid in d.files && SemGood(d, p, r) && TestGood(d, r)
    requires r.pc.Reading? && CanRead(d, r, c) && ReadGood(d, r, log) && DoesAsAsked(r, log)
    requires StepRead(d, p, r, c).proc.pc.Idle?
    ensures ReadAnswer(d, p, Longer(log, d, StepRead(d, p, r, c).dev), StepRead(d, p, r, c).proc.result)
  {
    hide Longer, Ring.Queue, Ring.Valid;
    SpaceIsCapacityMinusQueue(d.ring.value);
    ReadIsQuiet(d, p, r, c);
    QuietStep(log, d, StepRead(d, p, r, c).dev);
  }

  /** Every read of every run returns what it may. */
  lemma ReadReturns(s: State, logs: map<Pid, Log>, init: State, evs: seq<Event>, e: Event, result: Outcome)
    requires Watched(s, logs, init, evs) && Returns(s, e, result) && s.procs[e.p].pc.Reading?
    ensures ReadAnswer(s.dev, e.p, LogOf(Logged(logs, s, e), e.p), result)
  {
    hide StepRead, CanRead, ReadAnswer, ReadGood, Good, LifetimeInv, FifoInv, Longer, Exec;
    WatchedIsGood(s, logs, init, evs);
    CallIsGood(s, logs, e.p);
    LogIsOfEffect(logs, s, e);
    CallIsLive(s, e.p);
    ReadStepEnds(s.dev, e.p, s.procs[e.p], e.c, LogOf(logs, e.p));
  }

  /** What a write may return: -EAGAIN exactly when its file is non-blocking and it holds the semaphore
      over a full buffer; -ERESTARTSYS only on a signal; -EFAULT only where there is room, and no error
      after any byte was accepted; and otherwise the length of the prefix of its bytes that was. */
  ghost predicate WriteAnswer(d: Device, p: Pid, log: Log, result: Outcome) {
    && log.call.Some? && log.call.value.StartWrite? && log.call.value.fid in d.files && d.Live()
    && var asked, nonblock := log.call.value, d.files[log.call.value.fid].nonblock;
       && (result == Failed(EAGAIN)
           <==> nonblock && d.sem == Some(p) && |d.ring.value.Queue()| == d.ring.value.Capacity())
       && (result == Failed(ERESTARTSYS) ==> log.pending)
       && (result == Failed(EFAULT) ==> d.sem == Some(p) && |d.ring.value.Queue()| < d.ring.value.Capacity())
       && (result.Failed? ==> log.gave == [] && result.errno in {EAGAIN, ERESTARTSYS, EFAULT})
       && (result.Done? ==> result.count <= |asked.data| && log.gave == asked.data[..result.count])
  }

  lemma WriteStepEnds(d: Device, p: Pid, r: Proc, c: Choice, log: Log)
    requires d.Live() && r.fid in d.files && SemGood(d, p, r) && TestGood(d, r)
    requires r.pc.Writing? && CanWrite(d, r, c) && WriteGood(d, r, log) && DoesAsAsked(r, log)
    requires StepWrite(d, p, r, c).proc.pc.Idle?
    ensures WriteAnswer(d, p, Longer(log, d, StepWrite(d, p, r, c).dev), StepWrite(d, p, r, c).proc.result)
  {
    hide Longer, Ring.Queue, Ring.Valid;
    SpaceIsCapacityMinusQueue(d.ring.value);
    WriteIsQuiet(d, p, r, c);
    QuietStep(log, d, StepWrite(d, p, r, c).dev);
  }

  /** Every write of every run returns what it may. */
  lemma WriteReturns(s: State, logs: map<Pid, Log>, init: State, evs: seq<Event>, e: Event, result: Outcome)
    requires Watched(s, logs, init, evs) && Returns(s, e, result) && s.procs[e.p].pc.Writing?
    ensures WriteAnswer(s.dev, e.p, LogOf(Logged(logs, s, e), e.p), result)
  {
    hide StepWrite, CanWrite, WriteAnswer, WriteGood, Good, LifetimeInv, FifoInv, Longer, Exec;
    WatchedIsGood(s, logs, init, evs);
    CallIsGood(s, logs, e.p);
    LogIsOfEffect(logs, s, e);
    CallIsLive(s, e.p);
    WriteStepEnds(s.dev, e.p, s.procs[e.p], e.c, LogOf(logs, e.p));
  }

  /** What an open may return: 0 exactly when it has opened its file, once and in the mode asked for;
      -ERESTARTSYS only on a signal, and -ENOMEM only while there is no buffer. */
  predicate OpenAnswer(d': Device, log: Log, result: Outcome) {
    && log.call.Some? && log.call.value.StartOpen?
    && (result.Done? ==> result.count == 0 && |log.fids| == 1)
    && (forall f <- log.fids :: f in d'.files && d'.files[f] == log.call.value.file)
    && (result.Failed? ==> log.fids == {} && result.errno in {ENOMEM, ERESTARTSYS})
    && (result == Failed(ERESTARTSYS) ==> log.pending)
    && (result == Failed(ENOMEM) ==> d'.ring.None?)
  }

  lemma OpenStepEnds(d: Device, p: Pid, r: Proc, c: Choice, log: Log)
    requires r.pc.Opening? && CanStep(d, r, c) && OpenGood(d, r, log) && DoesAsAsked(r, log)
    requires StepOpen(d, p, r, c).proc.pc.Idle?
    ensures var f := StepOpen(d, p, r, c); OpenAnswer(f.dev, Longer(log, d, f.dev), f.proc.result)
  {
  }

  /** Every open of every run returns what it may. */
  lemma OpenReturns(s: State, logs: map<Pid, Log>, init: State, evs: seq<Event>, e: Event, result: Outcome)
    requires Watched(s, logs, init, evs) && Returns(s, e, result) && s.procs[e.p].pc.Opening?
    ensures OpenAnswer(Exec(s, e).dev, LogOf(Logged(logs, s, e), e.p), result)
  {
    hide StepOpen, OpenGood, Good, LifetimeInv, FifoInv, Longer, Exec;
    WatchedIsGood(s, logs, init, evs);
    CallIsGood(s, logs, e.p);
    LogIsOfEffect(logs, s, e);
    OpenStepEnds(s.dev, e.p, s.procs[e.p], e.c, LogOf(logs, e.p));
  }

  lemma CallIsLive(s: State, p: Pid)
    requires Inv(s) && p in s.procs && (s.procs[p].pc.Reading? || s.procs[p].pc.Writing?)
    ensures s.dev.Live() && s.procs[p].fid in s.dev.files
    ensures SemGood(s.dev, p, s.procs[p]) && TestGood(s.dev, s.procs[p])
  {
    assert Good(s.dev, p, s.procs[p]);
  }

  lemma CallIsGood(s: State, logs: map<Pid, Log>, p: Pid)
    requires Inv(s) && CallsGood(s, logs) && p in s.procs
    ensures LifetimeInv(s.dev) && Good(s.dev, p, s.procs[p]) && CallGood(s.dev, s.procs[p], LogOf(logs, p))
  {
  }

  /** A call on a non-blocking file never waits. */
  lemma NonblockNeverWaits(s: State, init: State, evs: seq<Event>, p: Pid)
    requires Reachable(s, init, evs) && p in s.procs && (s.procs[p].pc.WaitsToRead() || s.procs[p].pc.WaitsToWrite())
    ensures s.procs[p].fid in s.dev.files && !s.dev.files[s.procs[p].fid].nonblock
  {
    hide Good, LifetimeInv, FifoInv;
    WatchedIsGood(s, LogsOf(map[], init, evs), init, evs);
    CallIsGood(s, LogsOf(map[], init, evs), p);
  }

  /** A writer that stops waiting goes on to the semaphore exactly when no signal is pending, and gives
      up otherwise; a reader gives up only on a signal. */
  predicate WaitAnswer(r: Proc, r': Proc) {
    && (r.pc.WaitsToWrite() && !r'.pc.WaitsToWrite() ==>
          if r.signalled then r'.pc.Idle? && r'.result == Failed(ERESTARTSYS) else r'.pc == Writing(WDown))
    && (r.pc.WaitsToRead() && !r'.pc.WaitsToRead() ==>
          r'.pc == Reading(RDown) || (r.signalled && r'.pc.Idle? && r'.result == Failed(ERESTARTSYS)))
  }

  lemma WaitStepEnds(d: Device, p: Pid, r: Proc, c: Choice, log: Log)
    requires CanStep(d, r, c) && CallGood(d, r, log)
    ensures WaitAnswer(r, Step(d, p, r, c).proc)
  {
    hide Ring.Queue, Ring.ReadCount, Ring.WriteCount, Ring.SpaceFree;
    match r.pc
    case Reading(_) =>
    case Writing(_) =>
    case _ =>
  }

  lemma WaitEnds(s: State, init: State, evs: seq<Event>, e: Event)
    requires Reachable(s, init, evs) && Enabled(s, e) && e.Advance?
    ensures WaitAnswer(s.procs[e.p], Exec(s, e).procs[e.p])
  {
    hide Good, LifetimeInv, FifoInv, Step, CallGood, Exec, CanStep;
    var logs := LogsOf(map[], init, evs);
    WatchedIsGood(s, logs, init, evs);
    CallIsGood(s, logs, e.p);
    LogIsOfEffect(logs, s, e);
    WaitStepEnds(s.dev, e.p, s.procs[e.p], e.c, LogOf(logs, e.p));
  }

  /** Who is asleep on a queue is woken by the last step of a call that moved bytes, and by nothing else
      that others do; and who is woken is off the queue, where others stay. */
  predicate OnlyWakesQueue(s: State, e: Event, t: State, q: Pid) {
    && q in s.procs && q in t.procs
    && var woken := && e.Advance? && e.p in s.procs && e.p in t.procs
                    && t.procs[e.p].pc.Idle? && t.procs[e.p].result.Done?
                    && (|| (s.procs[e.p].pc.Reading? && q in s.dev.outq)
                        || (s.procs[e.p].pc.Writing? && q in s.dev.inq));
       && t.procs[q] == (if woken then s.procs[q].(runnable := true) else s.procs[q])
       && (q in t.dev.outq <==> q in s.dev.outq && !(woken && s.procs[e.p].pc.Reading? && !s.procs[q].runnable))
       && (q in t.dev.inq <==> q in s.dev.inq && !(woken && s.procs[e.p].pc.Writing? && !s.procs[q].runnable))
  }

  /** What a step does to others: it wakes, or it leaves their queues alone. */
  lemma StepWakes(d: Device, p: Pid, r: Proc, c: Choice)
    requires CanStep(d, r, c)
    ensures var f := Step(d, p, r, c);
            && (f.wake.WakeWriters? <==> r.pc.Reading? && f.proc.pc.Idle? && f.proc.result.Done?)
            && (f.wake.WakeReaders? <==> r.pc.Writing? && f.proc.pc.Idle? && f.proc.result.Done?)
            && f.dev.inq - {p} == d.inq - {p} && f.dev.outq - {p} == d.outq - {p}
            && (!f.wake.NoWake? ==> f.dev.inq == d.inq && f.dev.outq == d.outq)
  {
    match r.pc
    case Opening(_) =>
    case Releasing(_) =>
    case Reading(_) =>
    case Writing(_) =>
  }

  lemma OthersAreOnlyWoken(s: State, init: State, evs: seq<Event>, e: Event, q: Pid)
    requires Reachable(s, init, evs) && Enabled(s, e) && q in s.procs && (e.Configure? || q != e.p)
    ensures OnlyWakesQueue(s, e, Exec(s, e), q)
  {
    hide Step, CanStep;
    ReachableIsGood(s, init, evs);
    assert Good(s.dev, q, s.procs[q]);
    if e.Advance? {
      var f := Step(s.dev, e.p, s.procs[e.p], e.c);
      StepWakes(s.dev, e.p, s.procs[e.p], e.c);
      assert q in f.dev.inq <==> q in f.dev.inq - {e.p};
      assert q in s.dev.inq <==> q in s.dev.inq - {e.p};
      assert q in f.dev.outq <==> q in f.dev.outq - {e.p};
      assert q in s.dev.outq <==> q in s.dev.outq - {e.p};
    }
  }

  /** A step that takes bytes takes the oldest, inside, and as many as it can: all that it was asked
      for, or all there are, or all up to the end of the buffer. */
  ghost predicate TakesAllItCan(d: Device, p: Pid, r: Proc, d': Device) {
    && r.pc.Reading? && d.Live() && d'.Live() && d.sem == Some(p)
    && var was, now, bytes := d.ring.value.Queue(), d'.ring.value.Queue(), Since(d.stream, d'.stream);
       && was == bytes + now
       && |bytes| <= r.count
       && (|bytes| == r.count || now == [] || d'.ring.value.rp == 0)
  }

  /** A step that accepts bytes appends a prefix of what is offered, inside, and as much as it can. */
  ghost predicate GivesAllItCan(d: Device, p: Pid, r: Proc, d': Device) {
    && r.pc.Writing? && d.Live() && d'.Live() && d.sem == Some(p)
    && var was, now, bytes := d.ring.value.Queue(), d'.ring.value.Queue(), Since(d.epoch.accepted, d'.epoch.accepted);
       && now == was + bytes
       && bytes <= r.data
       && (bytes == r.data || |now| == d'.ring.value.Capacity() || d'.ring.value.wp == 0)
  }

  lemma ReadMoves(d: Device, p: Pid, r: Proc, c: Choice)
    requires LifetimeInv(d) && SemGood(d, p, r) && r.pc.Reading? && CanRead(d, r, c)
    ensures StepRead(d, p, r, c).dev.stream != d.stream ==> TakesAllItCan(d, p, r, StepRead(d, p, r, c).dev)
    ensures StepRead(d, p, r, c).dev.epoch.accepted == d.epoch.accepted
  {
    hide Ring.Queue, Ring.ReadCount, Ring.WriteCount, Ring.SpaceFree;
    if d.Live() {
      var q, n := d.ring.value.Queue(), d.ring.value.ReadCount(r.count);
      ReadTakesPrefix(d.ring.value, r.count);
      assert q == q[..n] + q[n..];
    }
  }

  lemma WriteMoves(d: Device, p: Pid, r: Proc, c: Choice)
    requires LifetimeInv(d) && SemGood(d, p, r) && r.pc.Writing? && CanWrite(d, r, c)
    ensures StepWrite(d, p, r, c).dev.epoch.accepted != d.epoch.accepted ==>
              GivesAllItCan(d, p, r, StepWrite(d, p, r, c).dev)
    ensures StepWrite(d, p, r, c).dev.stream == d.stream
  {
    hide Ring.Queue, Ring.ReadCount, Ring.WriteCount, Ring.SpaceFree;
    if d.Live() {
      var n := d.ring.value.WriteCount(|r.data|);
      WriteAppends(d.ring.value, r.data);
      assert n == |r.data| ==> r.data[..n] == r.data;
      assert |d.ring.value.Queue() + r.data[..n]| == |d.ring.value.Queue()| + n;
    }
  }

  /** Bytes are returned only by a read, and accepted only by a write; and each moves all it can. */
  lemma CallsMoveAllTheyCan(s: State, init: State, evs: seq<Event>, e: Event)
    requires Reachable(s, init, evs) && Enabled(s, e) && e.Advance? && !s.procs[e.p].pc.Opening?
    ensures Exec(s, e).dev.stream != s.dev.stream ==> TakesAllItCan(s.dev, e.p, s.procs[e.p], Exec(s, e).dev)
    ensures Exec(s, e).dev.epoch.accepted != s.dev.epoch.accepted ==>
              GivesAllItCan(s.dev, e.p, s.procs[e.p], Exec(s, e).dev)
  {
    hide StepRead, StepWrite, CanRead, CanWrite, FifoInv, Exec, Ring.Queue, Ring.Valid;
    ReachableIsGood(s, init, evs);
    LogIsOfEffect(map[], s, e);
    assert Good(s.dev, e.p, s.procs[e.p]);
    match s.procs[e.p].pc
    case Reading(_) => ReadMoves(s.dev, e.p, s.procs[e.p], e.c);
    case Writing(_) => WriteMoves(s.dev, e.p, s.procs[e.p], e.c);
    case Releasing(_) =>
  }

  // ----- what can happen -----

  /** Runs leave nothing out: a signal may come at any time and any size of at least 2 be configured; who
      is idle may open, may read and write what is open in the mode, and may release what nobody uses;
      who has a signal may give up before it is inside; and every copy may fail. */
  lemma NothingIsExcluded(s: State, p: Pid, f: Fid, c: Choice)
    requires p in s.procs
    ensures Enabled(s, Signal(p)) && forall size :: size >= 2 ==> Enabled(s, Configure(size))
    ensures s.procs[p].pc.Idle? ==> Enabled(s, HandleSignal(p)) && forall file :: Enabled(s, StartOpen(p, file))
    ensures s.procs[p].pc.Idle? && f in s.dev.files && StaysOpen(s, f) ==>
              && (s.dev.files[f].mode.Reads() ==> forall n :: Enabled(s, StartRead(p, f, n)))
              && (s.dev.files[f].mode.Writes() ==> forall data :: Enabled(s, StartWrite(p, f, data)))
    ensures s.procs[p].pc.Idle? && f in s.dev.files && Unused(s, f) ==> Enabled(s, StartRelease(p, f))
    ensures s.procs[p].signalled && s.procs[p].pc in {Opening(ODown), Reading(RDown), Writing(WDown)} ==>
              Enabled(s, Advance(p, c.(fail := true)))
    ensures s.dev.Live() && s.procs[p].pc == Reading(RCopy) ==> Enabled(s, Advance(p, c.(fail := true)))
    ensures s.dev.Live() && s.procs[p].pc == Writing(WCopy) && s.dev.ring.value.WriteCount(|s.procs[p].data|) > 0 ==>
              forall memory :: |memory| <= s.dev.ring.value.WriteCount(|s.procs[p].data|) ==>
                Enabled(s, Advance(p, Choice(true, f, memory)))
    ensures s.procs[p].pc == Opening(OBody) && s.dev.ring.None? ==> Enabled(s, Advance(p, c.(fail := true)))
  {
    hide Ring.Queue, Ring.WriteCount;
  }
}
