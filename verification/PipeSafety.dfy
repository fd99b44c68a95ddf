/** What every reachable state of the pipe protocol satisfies, whatever the processes do.

    The proof follows the design of the step functions: what a step does is checked against the
    device and the one process that takes it, together with a guarantee towards all others. */
module PipeSafety {
  import opened Common
  import opened RingBuffer
  import opened PipeProtocol

  // ----- the invariant -----

  function Readers(files: map<Fid, File>): set<Fid> {
    set f | f in files && files[f].mode.Reads()
  }

  function Writers(files: map<Fid, File>): set<Fid> {
    set f | f in files && files[f].mode.Writes()
  }

  /** The counters count the open files, and the buffer lives exactly as long as one is open. */
  ghost predicate LifetimeInv(d: Device) {
    && d.nreaders == |Readers(d.files)|
    && d.nwriters == |Writers(d.files)|
    && (d.ring.Some? <==> d.files != map[])
    && d.cfg >= 2
    && (d.ring.Some? ==> d.Live())
  }

  function AllReturned(past: seq<Epoch>): seq<Byte> {
    if past == [] then [] else AllReturned(past[..|past| - 1]) + past[|past| - 1].returned
  }

  /** What was accepted since the last open is what was returned since then, then what is queued. */
  ghost predicate FifoInv(d: Device) {
    && d.epoch.returned <= d.epoch.accepted
    && (d.Live() ==> d.epoch.accepted == d.epoch.returned + d.ring.value.Queue())
    && (forall i :: 0 <= i < |d.past| ==> d.past[i].returned <= d.past[i].accepted)
    && d.stream == AllReturned(d.past) + d.epoch.returned
  }

  /** A process is inside exactly when it has the semaphore. */
  ghost predicate SemGood(d: Device, p: Pid, r: Proc) {
    r.pc.Holds() <==> d.sem == Some(p)
  }

  /** A call under way has its file open, in the right mode. */
  ghost predicate FileGood(d: Device, r: Proc) {
    && (r.pc.UsesFile() ==> r.fid in d.files)
    && (r.pc.Reading? ==> d.files[r.fid].mode.Reads())
    && (r.pc.Writing? ==> d.files[r.fid].mode.Writes())
  }

  /** Bytes are copied only after a test that is still true. */
  ghost predicate TestGood(d: Device, r: Proc) {
    && (d.Live() && r.pc == Reading(RCopy) ==> !d.ring.value.Empty())
    && (d.Live() && r.pc == Writing(WCopy) ==> !d.ring.value.Full())
  }

  /** A process is on a wait queue only while it waits, and always when it is not runnable. */
  ghost predicate QueueGood(d: Device, p: Pid, r: Proc) {
    && (p in d.inq ==> r.pc.WaitsToRead())
    && (p in d.outq ==> r.pc.WaitsToWrite())
    && (!r.runnable ==> (r.pc.WaitsToRead() && p in d.inq) || (r.pc.WaitsToWrite() && p in d.outq))
  }

  ghost predicate Good(d: Device, p: Pid, r: Proc) {
    SemGood(d, p, r) && FileGood(d, r) && TestGood(d, r) && QueueGood(d, p, r)
  }

  /** A file that is being closed has no other user. */
  ghost predicate SoleCloser(s: State) {
    forall p, q :: p in s.procs && q in s.procs && p != q
                   && s.procs[p].pc.Closes() && s.procs[q].pc.UsesFile()
                   ==> s.procs[p].fid != s.procs[q].fid
  }

  /** A reader past its retest that stays asleep unless somebody wakes it. */
  predicate SleepsToRead(r: Proc) {
    (r.pc == Reading(RSignal) || r.pc == Reading(RSleep)) && !r.runnable
  }

  /** A writer past its retest that stays asleep unless somebody wakes it. */
  predicate SleepsToWrite(r: Proc) {
    r.pc == Writing(WSleep) && !r.runnable
  }

  /** Some writer that moved `wp` has still to wake `inq`. */
  ghost predicate ReadersWillWake(s: State) {
    exists q :: q in s.procs && s.procs[q].pc.OwesReaders()
  }

  /** Some reader that moved `rp` has still to wake `outq`. */
  ghost predicate WritersWillWake(s: State) {
    exists q :: q in s.procs && s.procs[q].pc.OwesWriters()
  }

  predicate NothingToRead(d: Device) {
    d.ring.Some? ==> d.ring.value.Empty()
  }

  ghost predicate NoRoom(d: Device) {
    d.Live() ==> d.ring.value.Full()
  }

  /** No wake-up of a reader is ever lost. */
  ghost predicate ReadersSafe(s: State) {
    forall p :: p in s.procs && SleepsToRead(s.procs[p]) ==> NothingToRead(s.dev) || ReadersWillWake(s)
  }

  /** No wake-up of a writer is ever lost. */
  ghost predicate WritersSafe(s: State) {
    forall p :: p in s.procs && SleepsToWrite(s.procs[p]) ==> NoRoom(s.dev) || WritersWillWake(s)
  }

  ghost predicate AllGood(s: State) {
    && (forall p :: p in s.procs ==> Good(s.dev, p, s.procs[p]))
    && (s.dev.sem.Some? ==> s.dev.sem.value in s.procs)
    && s.dev.inq <= s.procs.Keys
    && s.dev.outq <= s.procs.Keys
  }

  ghost predicate Inv(s: State) {
    LifetimeInv(s.dev) && FifoInv(s.dev) && AllGood(s) && SoleCloser(s) && ReadersSafe(s)
  }

  // ----- what a step promises everybody else -----

  ghost predicate Guarantee(d: Device, p: Pid, r: Proc, d': Device) {
    && (d'.sem == d.sem || (d.sem == None && d'.sem == Some(p)) || (d.sem == Some(p) && d'.sem == None))
    && (forall f :: f in d.files && !(r.pc.Closes() && f == r.fid) ==>
          f in d'.files && d'.files[f] == d.files[f])
    && (d'.ring != d.ring ==> d.sem == Some(p))
    && d'.inq - {p} == d.inq - {p}
    && d'.outq - {p} == d.outq - {p}
  }

  lemma GoodStays(d: Device, p: Pid, r: Proc, d': Device, q: Pid, o: Proc)
    requires Guarantee(d, p, r, d') && Good(d, q, o) && q != p
    requires r.pc.Closes() && o.pc.UsesFile() ==> r.fid != o.fid
    ensures Good(d', q, o)
  {
    assert q in d'.inq <==> q in d'.inq - {p};
    assert q in d.inq <==> q in d.inq - {p};
    assert q in d'.outq <==> q in d'.outq - {p};
    assert q in d.outq <==> q in d.outq - {p};
  }

  lemma ReadStepIsGood(d: Device, p: Pid, r: Proc, c: Choice, f: Effect)
    requires d.ring.Some? ==> d.Live()
    requires Good(d, p, r) && r.pc.Reading? && CanRead(d, r, c)
    requires f == StepRead(d, p, r, c)
    ensures SemGood(f.dev, p, f.proc) && FileGood(f.dev, f.proc) && TestGood(f.dev, f.proc)
  {
  }

  lemma ReadStepQueues(d: Device, p: Pid, r: Proc, c: Choice, f: Effect)
    requires QueueGood(d, p, r) && r.pc.Reading? && CanRead(d, r, c)
    requires f == StepRead(d, p, r, c)
    ensures QueueGood(f.dev, p, f.proc)
  {
  }

  lemma ReadStepGuarantees(d: Device, p: Pid, r: Proc, c: Choice, f: Effect)
    requires SemGood(d, p, r) && r.pc.Reading? && CanRead(d, r, c)
    requires f == StepRead(d, p, r, c)
    ensures Guarantee(d, p, r, f.dev)
  {
  }

  lemma WriteStepIsGood(d: Device, p: Pid, r: Proc, c: Choice, f: Effect)
    requires d.ring.Some? ==> d.Live()
    requires Good(d, p, r) && r.pc.Writing? && CanWrite(d, r, c)
    requires f == StepWrite(d, p, r, c)
    ensures SemGood(f.dev, p, f.proc) && FileGood(f.dev, f.proc) && TestGood(f.dev, f.proc)
  {
  }

  lemma WriteStepQueues(d: Device, p: Pid, r: Proc, c: Choice, f: Effect)
    requires QueueGood(d, p, r) && r.pc.Writing? && CanWrite(d, r, c)
    requires f == StepWrite(d, p, r, c)
    ensures QueueGood(f.dev, p, f.proc)
  {
  }

  lemma WriteStepGuarantees(d: Device, p: Pid, r: Proc, c: Choice, f: Effect)
    requires SemGood(d, p, r) && r.pc.Writing? && CanWrite(d, r, c)
    requires f == StepWrite(d, p, r, c)
    ensures Guarantee(d, p, r, f.dev)
  {
  }

  lemma OpenStepIsGood(d: Device, p: Pid, r: Proc, c: Choice, f: Effect)
    requires Good(d, p, r) && r.pc.Opening? && CanStep(d, r, c)
    requires f == StepOpen(d, p, r, c)
    ensures Good(f.dev, p, f.proc) && Guarantee(d, p, r, f.dev)
  {
  }

  lemma ReleaseStepIsGood(d: Device, p: Pid, r: Proc, c: Choice, f: Effect)
    requires Good(d, p, r) && r.pc.Releasing? && CanStep(d, r, c)
    requires f == StepRelease(d, p, r)
    ensures Good(f.dev, p, f.proc) && Guarantee(d, p, r, f.dev)
  {
  }

  // ----- what a step does to the wake-ups -----

  /** Bytes come to a drained queue only with a wake-up to follow, the wake-up is not forgotten
      before it happens, and nobody goes to sleep over a queue with bytes in it. */
  ghost predicate KeepsReaders(d: Device, r: Proc, f: Effect) {
    && (NothingToRead(d) ==> NothingToRead(f.dev) || f.proc.pc.OwesReaders())
    && (r.pc.OwesReaders() ==> f.proc.pc.OwesReaders() || f.wake == WakeReaders)
    && (SleepsToRead(f.proc) ==> SleepsToRead(r) || NothingToRead(f.dev))
  }

  /** The same for writers and room. */
  ghost predicate KeepsWriters(d: Device, r: Proc, f: Effect) {
    && (NoRoom(d) ==> NoRoom(f.dev) || f.proc.pc.OwesWriters())
    && (r.pc.OwesWriters() ==> f.proc.pc.OwesWriters() || f.wake == WakeWriters)
    && (SleepsToWrite(f.proc) ==> SleepsToWrite(r) || NoRoom(f.dev))
  }

  /** The step at which an open empties the queue. */
  predicate Empties(r: Proc, c: Choice) {
    r.pc == Opening(OBody) && !c.fail
  }

  lemma ReadStepKeeps(d: Device, p: Pid, r: Proc, c: Choice, f: Effect)
    requires d.ring.Some? ==> d.Live()
    requires TestGood(d, r) && r.pc.Reading? && CanRead(d, r, c)
    requires f == StepRead(d, p, r, c)
    ensures KeepsReaders(d, r, f) && KeepsWriters(d, r, f)
  {
  }

  lemma WriteStepKeeps(d: Device, p: Pid, r: Proc, c: Choice, f: Effect)
    requires d.ring.Some? ==> d.Live()
    requires TestGood(d, r) && r.pc.Writing? && CanWrite(d, r, c)
    requires f == StepWrite(d, p, r, c)
    ensures KeepsReaders(d, r, f) && KeepsWriters(d, r, f)
  {
  }

  lemma StepKeeps(d: Device, p: Pid, r: Proc, c: Choice)
    requires d.ring.Some? ==> d.Live()
    requires TestGood(d, r) && CanStep(d, r, c)
    ensures KeepsReaders(d, r, Step(d, p, r, c))
    ensures !Empties(r, c) ==> KeepsWriters(d, r, Step(d, p, r, c))
  {
    match r.pc
    case Opening(_) =>
    case Releasing(_) =>
    case Reading(_) => ReadStepKeeps(d, p, r, c, StepRead(d, p, r, c));
    case Writing(_) => WriteStepKeeps(d, p, r, c, StepWrite(d, p, r, c));
  }

  // ----- what a step does to the buffer and its history -----

  /** Opening one more file counts it once in each of its modes. */
  lemma OpenCountsReader(files: map<Fid, File>, fid: Fid, file: File)
    requires fid !in files
    ensures |Readers(files[fid := file])| == |Readers(files)| + if file.mode.Reads() then 1 else 0
  {
    if file.mode.Reads() {
      assert Readers(files[fid := file]) == Readers(files) + {fid};
    } else {
      assert Readers(files[fid := file]) == Readers(files);
    }
  }

  lemma OpenCountsWriter(files: map<Fid, File>, fid: Fid, file: File)
    requires fid !in files
    ensures |Writers(files[fid := file])| == |Writers(files)| + if file.mode.Writes() then 1 else 0
  {
    if file.mode.Writes() {
      assert Writers(files[fid := file]) == Writers(files) + {fid};
    } else {
      assert Writers(files[fid := file]) == Writers(files);
    }
  }

  lemma OpenBodyKeepsLifetime(d: Device, r: Proc, c: Choice)
    requires LifetimeInv(d) && CanOpen(d, c)
    ensures LifetimeInv(OpenBody(d, r, c).dev)
  {
    if !c.fail {
      OpenCountsReader(d.files, c.fid, r.file);
      OpenCountsWriter(d.files, c.fid, r.file);
      assert c.fid in d.files[c.fid := r.file];
    }
  }

  lemma OpenBodyKeepsFifo(d: Device, r: Proc, c: Choice)
    requires FifoInv(d) && CanOpen(d, c)
    ensures FifoInv(OpenBody(d, r, c).dev)
  {
    if !c.fail {
      assert (d.past + [d.epoch])[..|d.past|] == d.past;
      assert d.stream + [] == d.stream;
    }
  }

  /** Both counters are zero only when no file is open. */
  lemma CountersTell(files: map<Fid, File>)
    ensures |Readers(files)| + |Writers(files)| == 0 <==> files == map[]
  {
    if files != map[] {
      var f :| f in files;
      assert f in Readers(files) || f in Writers(files);
    }
  }

  lemma ReleaseBodyKeepsFifo(d: Device, r: Proc)
    requires FifoInv(d) && r.fid in d.files
    ensures FifoInv(ReleaseBody(d, r).dev)
  {
    hide AllReturned, Ring.Queue, Ring.Valid;
  }

  lemma ReleaseBodyKeeps(d: Device, r: Proc)
    requires LifetimeInv(d) && FifoInv(d) && r.fid in d.files
    ensures var f := ReleaseBody(d, r); LifetimeInv(f.dev) && FifoInv(f.dev)
  {
    hide FifoInv, Ring.Valid;
    ReleaseBodyKeepsFifo(d, r);
    var files := d.files - {r.fid};
    assert Readers(files) == Readers(d.files) - {r.fid};
    assert Writers(files) == Writers(d.files) - {r.fid};
    CountersTell(files);
  }

  /** Bytes that go from the queue to the reader stay accounted for. */
  lemma TakenOn(returned: seq<Byte>, q: seq<Byte>, n: nat, accepted: seq<Byte>, all: seq<Byte>, stream: seq<Byte>)
    requires n <= |q| && accepted == returned + q && stream == all + returned
    ensures accepted == (returned + q[..n]) + q[n..]
    ensures returned + q[..n] <= accepted
    ensures stream + q[..n] == all + (returned + q[..n])
  {
    assert q == q[..n] + q[n..];
  }

  lemma ReadBodyKeeps(d: Device, r: Proc, c: Choice)
    requires LifetimeInv(d) && FifoInv(d) && d.Live()
    ensures var f := ReadBody(d, r, c); LifetimeInv(f.dev) && FifoInv(f.dev)
  {
    hide Ring.Queue, Ring.ReadCount, Ring.AfterRead, Ring.SpaceFree, AllReturned;
    var ring, q := d.ring.value, d.ring.value.Queue();
    ReadTakesPrefix(ring, r.count);
    TakenOn(d.epoch.returned, q, ring.ReadCount(r.count), d.epoch.accepted, AllReturned(d.past), d.stream);
  }

  lemma WriteBodyKeeps(d: Device, r: Proc, c: Choice)
    requires LifetimeInv(d) && FifoInv(d) && d.Live() && CanCopyIn(d.ring.value, r.data, c)
    ensures var f := WriteBody(d, r, c); LifetimeInv(f.dev) && FifoInv(f.dev)
  {
    hide Ring.Queue, Ring.WriteCount, Ring.AfterWrite, Ring.AfterCopy, Ring.SpaceFree, AllReturned;
    var ring, q := d.ring.value, d.ring.value.Queue();
    if c.fail {
      AcceptsLess(ring, |r.data|, |c.memory|);
      CopyKeepsQueue(ring, c.memory);
    } else {
      WriteAppends(ring, r.data);
      var bytes := r.data[..ring.WriteCount(|r.data|)];
      assert d.epoch.returned + (q + bytes) == (d.epoch.returned + q) + bytes;
    }
  }

  /** Only who is inside and who is queued has changed. */
  predicate SameStore(d: Device, d': Device) {
    d' == d.(sem := d'.sem, inq := d'.inq, outq := d'.outq)
  }

  ghost predicate DeviceInv(d: Device) {
    LifetimeInv(d) && FifoInv(d)
  }

  lemma ReadStepKeepsDevice(d: Device, p: Pid, r: Proc, c: Choice)
    requires DeviceInv(d) && r.pc.Reading? && CanRead(d, r, c)
    ensures DeviceInv(StepRead(d, p, r, c).dev)
  {
    if r.pc.r.RCopy? {
      ReadBodyKeeps(d, r, c);
    } else {
      assert SameStore(d, StepRead(d, p, r, c).dev);
    }
  }

  lemma WriteStepKeepsDevice(d: Device, p: Pid, r: Proc, c: Choice)
    requires DeviceInv(d) && r.pc.Writing? && CanWrite(d, r, c)
    ensures DeviceInv(StepWrite(d, p, r, c).dev)
  {
    if r.pc.w.WCopy? {
      WriteBodyKeeps(d, r, c);
    } else {
      assert SameStore(d, StepWrite(d, p, r, c).dev);
    }
  }

  lemma OpenStepKeepsDevice(d: Device, p: Pid, r: Proc, c: Choice)
    requires DeviceInv(d) && r.pc.Opening? && CanStep(d, r, c)
    ensures DeviceInv(StepOpen(d, p, r, c).dev)
  {
    if r.pc.o.OBody? {
      OpenBodyKeepsLifetime(d, r, c);
      OpenBodyKeepsFifo(d, r, c);
    } else {
      assert SameStore(d, StepOpen(d, p, r, c).dev);
    }
  }

  lemma ReleaseStepKeepsDevice(d: Device, p: Pid, r: Proc, c: Choice)
    requires DeviceInv(d) && r.pc.Releasing? && CanStep(d, r, c)
    ensures DeviceInv(StepRelease(d, p, r).dev)
  {
    if r.pc.l.LBody? {
      ReleaseBodyKeeps(d, r);
    } else {
      assert SameStore(d, StepRelease(d, p, r).dev);
    }
  }

  // ----- one step of one process, altogether -----

  /** A step uses no file that the process did not use before. */
  predicate FileStep(r: Proc, r': Proc) {
    && (r'.pc.UsesFile() ==> r.pc.UsesFile() && r'.fid == r.fid)
    && (r'.pc.Closes() ==> r.pc.Closes())
  }

  lemma StepIsGood(d: Device, p: Pid, r: Proc, c: Choice, f: Effect)
    requires DeviceInv(d) && Good(d, p, r) && CanStep(d, r, c) && f == Step(d, p, r, c)
    ensures DeviceInv(f.dev) && Good(f.dev, p, f.proc) && Guarantee(d, p, r, f.dev)
  {
    match r.pc
    case Opening(_) =>
      OpenStepKeepsDevice(d, p, r, c);
      OpenStepIsGood(d, p, r, c, f);
    case Releasing(_) =>
      ReleaseStepKeepsDevice(d, p, r, c);
      ReleaseStepIsGood(d, p, r, c, f);
    case Reading(_) =>
      ReadStepKeepsDevice(d, p, r, c);
      ReadStepIsGood(d, p, r, c, f);
      ReadStepQueues(d, p, r, c, f);
      ReadStepGuarantees(d, p, r, c, f);
    case Writing(_) =>
      WriteStepKeepsDevice(d, p, r, c);
      WriteStepIsGood(d, p, r, c, f);
      WriteStepQueues(d, p, r, c, f);
      WriteStepGuarantees(d, p, r, c, f);
  }

  lemma StepUsesFile(d: Device, p: Pid, r: Proc, c: Choice, f: Effect)
    requires CanStep(d, r, c) && f == Step(d, p, r, c)
    ensures FileStep(r, f.proc)
  {
    match r.pc
    case Opening(_) =>
    case Releasing(_) =>
    case Reading(_) =>
    case Writing(_) =>
  }

  /** An event about process p, seen from the device and from p. */
  lemma EventIsGood(s: State, e: Event, f: Effect)
    requires Inv(s) && Enabled(s, e) && !e.Configure?
    requires f == EventEffect(s.dev, e, s.procs[e.p])
    ensures DeviceInv(f.dev) && Good(f.dev, e.p, f.proc) && Guarantee(s.dev, e.p, s.procs[e.p], f.dev)
  {
    if e.Advance? {
      StepIsGood(s.dev, e.p, s.procs[e.p], e.c, f);
    }
  }

  lemma BetweenIsGood(s: State, e: Event, f: Effect)
    requires Inv(s) && Enabled(s, e) && !e.Configure?
    requires f == EventEffect(s.dev, e, s.procs[e.p])
    ensures DeviceInv(f.dev) && AllGood(Between(s, e.p, f))
  {
    EventIsGood(s, e, f);
    var t := Between(s, e.p, f);
    forall q | q in t.procs && q != e.p
      ensures Good(t.dev, q, t.procs[q])
    {
      GoodStays(s.dev, e.p, s.procs[e.p], f.dev, q, s.procs[q]);
    }
    forall q | q in f.dev.inq && q != e.p
      ensures q in s.procs
    {
      assert q in f.dev.inq - {e.p};
    }
    forall q | q in f.dev.outq && q != e.p
      ensures q in s.procs
    {
      assert q in f.dev.outq - {e.p};
    }
  }

  lemma BetweenSoleCloser(s: State, e: Event, f: Effect)
    requires Inv(s) && Enabled(s, e) && !e.Configure?
    requires f == EventEffect(s.dev, e, s.procs[e.p])
    ensures SoleCloser(Between(s, e.p, f))
  {
    if e.Advance? {
      StepUsesFile(s.dev, e.p, s.procs[e.p], e.c, f);
    }
  }

  lemma EventKeeps(s: State, e: Event, f: Effect)
    requires Inv(s) && Enabled(s, e) && !e.Configure?
    requires f == EventEffect(s.dev, e, s.procs[e.p])
    ensures KeepsReaders(s.dev, s.procs[e.p], f)
    ensures !(e.Advance? && Empties(s.procs[e.p], e.c)) ==> KeepsWriters(s.dev, s.procs[e.p], f)
  {
    if e.Advance? {
      StepKeeps(s.dev, e.p, s.procs[e.p], e.c);
    }
  }

  lemma BetweenReadersSafe(s: State, p: Pid, f: Effect)
    requires p in s.procs && ReadersSafe(s) && KeepsReaders(s.dev, s.procs[p], f)
    ensures f.wake == WakeReaders || ReadersSafe(Between(s, p, f))
  {
    var t := Between(s, p, f);
    if f.wake != WakeReaders {
      forall x | x in t.procs && SleepsToRead(t.procs[x]) && !NothingToRead(f.dev)
        ensures ReadersWillWake(t)
      {
        if NothingToRead(s.dev) {
          assert t.procs[p].pc.OwesReaders();
        } else {
          assert SleepsToRead(s.procs[x]);
          var q :| q in s.procs && s.procs[q].pc.OwesReaders();
          assert t.procs[q].pc.OwesReaders();
        }
      }
    }
  }

  lemma BetweenWritersSafe(s: State, p: Pid, f: Effect)
    requires p in s.procs && WritersSafe(s) && KeepsWriters(s.dev, s.procs[p], f)
    ensures f.wake == WakeWriters || WritersSafe(Between(s, p, f))
  {
    var t := Between(s, p, f);
    if f.wake != WakeWriters {
      forall x | x in t.procs && SleepsToWrite(t.procs[x]) && !NoRoom(f.dev)
        ensures WritersWillWake(t)
      {
        if NoRoom(s.dev) {
          assert t.procs[p].pc.OwesWriters();
        } else {
          assert SleepsToWrite(s.procs[x]);
          var q :| q in s.procs && s.procs[q].pc.OwesWriters();
          assert t.procs[q].pc.OwesWriters();
        }
      }
    }
  }

  // ----- the wake-up itself -----

  lemma WakeReadersKeeps(t: State)
    requires DeviceInv(t.dev) && AllGood(t) && SoleCloser(t)
    ensures DeviceInv(AfterWakeReaders(t).dev)
    ensures AllGood(AfterWakeReaders(t)) && SoleCloser(AfterWakeReaders(t))
    ensures ReadersSafe(AfterWakeReaders(t))
    ensures WritersSafe(t) ==> WritersSafe(AfterWakeReaders(t))
  {
    var t' := AfterWakeReaders(t);
    assert SameStore(t.dev, t'.dev);
    forall x | x in t'.procs
      ensures Good(t'.dev, x, t'.procs[x]) && !SleepsToRead(t'.procs[x])
    {
      assert Good(t.dev, x, t.procs[x]);
    }
    if WritersWillWake(t) {
      var q :| q in t.procs && t.procs[q].pc.OwesWriters();
      assert t'.procs[q].pc.OwesWriters();
    }
  }

  lemma WakeWritersKeeps(t: State)
    requires DeviceInv(t.dev) && AllGood(t) && SoleCloser(t)
    ensures DeviceInv(AfterWakeWriters(t).dev)
    ensures AllGood(AfterWakeWriters(t)) && SoleCloser(AfterWakeWriters(t))
    ensures WritersSafe(AfterWakeWriters(t))
    ensures ReadersSafe(t) ==> ReadersSafe(AfterWakeWriters(t))
  {
    var t' := AfterWakeWriters(t);
    assert SameStore(t.dev, t'.dev);
    forall x | x in t'.procs
      ensures Good(t'.dev, x, t'.procs[x]) && !SleepsToWrite(t'.procs[x])
    {
      assert Good(t.dev, x, t.procs[x]);
    }
    if ReadersWillWake(t) {
      var q :| q in t.procs && t.procs[q].pc.OwesReaders();
      assert t'.procs[q].pc.OwesReaders();
    }
  }

  // ----- every event keeps the invariant -----

  lemma EventKeepsInv(s: State, e: Event)
    requires Inv(s) && Enabled(s, e)
    ensures Inv(Exec(s, e))
  {
    if e.Configure? {
      ConfigureKeeps(s, e);
    } else {
      var f := EventEffect(s.dev, e, s.procs[e.p]);
      BetweenIsGood(s, e, f);
      BetweenSoleCloser(s, e, f);
      EventKeeps(s, e, f);
      BetweenReadersSafe(s, e.p, f);
      var t := Between(s, e.p, f);
      match f.wake
      case NoWake =>
      case WakeReaders => WakeReadersKeeps(t);
      case WakeWriters => WakeWritersKeeps(t);
    }
  }

  lemma ConfigureKeeps(s: State, e: Event)
    requires Inv(s) && Enabled(s, e) && e.Configure?
    ensures Inv(Exec(s, e))
    ensures WritersSafe(s) ==> WritersSafe(Exec(s, e))
  {
    assert Exec(s, e).procs == s.procs;
  }

  lemma InitIsGood(s: State)
    requires Init(s)
    ensures Inv(s) && WritersSafe(s)
  {
    assert Readers(s.dev.files) == {};
    assert Writers(s.dev.files) == {};
  }

  lemma {:induction false} RunKeepsInv(s: State, evs: seq<Event>)
    requires Inv(s) && Legal(s, evs)
    ensures Inv(Run(s, evs))
    decreases |evs|
  {
    if evs != [] {
      EventKeepsInv(s, evs[0]);
      RunKeepsInv(Exec(s, evs[0]), evs[1..]);
    }
  }
}
