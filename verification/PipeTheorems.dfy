/** The main results about the pipe protocol.  Each is a statement about every run, by any number
    of processes, from a freshly initialised device. */
module PipeTheorems {
  import opened Common
  import opened RingBuffer
  import opened PipeProtocol
  import opened PipeSafety

  ghost predicate Reachable(s: State, init: State, evs: seq<Event>) {
    Init(init) && Legal(init, evs) && s == Run(init, evs)
  }

  lemma ReachableIsGood(s: State, init: State, evs: seq<Event>)
    requires Reachable(s, init, evs)
    ensures Inv(s)
  {
    InitIsGood(init);
    RunKeepsInv(init, evs);
  }

  // ----- the semaphore -----

  /** At most one process is inside, and a process outside every call never keeps the semaphore. */
  lemma MutualExclusion(s: State, init: State, evs: seq<Event>, p: Pid, q: Pid)
    requires Reachable(s, init, evs) && p in s.procs && q in s.procs
    ensures s.procs[p].pc.Holds() && s.procs[q].pc.Holds() ==> p == q
    ensures s.procs[p].pc.Idle? ==> s.dev.sem != Some(p)
  {
    ReachableIsGood(s, init, evs);
    assert Good(s.dev, p, s.procs[p]) && Good(s.dev, q, s.procs[q]);
  }

  /** Whatever ends a call (success, a signal, O_NONBLOCK, a failed allocation or copy), the
      semaphore is not with the caller afterwards; if it was, it is free, and no other holder
      lost it. */
  lemma EveryReturnReleases(s: State, init: State, evs: seq<Event>, e: Event)
    requires Reachable(s, init, evs) && Enabled(s, e) && e.Advance?
    requires Exec(s, e).procs[e.p].pc.Idle?
    ensures var sem, sem' := s.dev.sem, Exec(s, e).dev.sem;
            sem' == if sem == Some(e.p) then None else sem
  {
    ReachableIsGood(s, init, evs);
    var f := EventEffect(s.dev, e, s.procs[e.p]);
    EventIsGood(s, e, f);
    assert Exec(s, e).procs[e.p].pc == f.proc.pc;
    assert Exec(s, e).dev.sem == f.dev.sem;
  }

  /** A writer leaves `scull_getwritespace` towards the copy exactly when it tested, inside, that
      there is room; and there is still room when it copies. */
  lemma WriteSpaceIsHeld(s: State, init: State, evs: seq<Event>, p: Pid)
    requires Reachable(s, init, evs) && p in s.procs && s.procs[p].pc.Writing?
    ensures s.procs[p].pc.w.WCopy? ==>
              && s.dev.sem == Some(p)
              && s.dev.Live()
              && s.dev.ring.value.SpaceFree() > 0
    ensures s.procs[p].pc.w.WTest? ==>
              && s.dev.sem == Some(p)
              && s.dev.Live()
              && forall c :: CanWrite(s.dev, s.procs[p], c) ==>
                   (StepWrite(s.dev, p, s.procs[p], c).proc.pc == Writing(WCopy)
                    <==> s.dev.ring.value.SpaceFree() > 0)
  {
    ReachableIsGood(s, init, evs);
    assert Good(s.dev, p, s.procs[p]);
    SpaceIsCapacityMinusQueue(s.dev.ring.value);
  }

  // ----- the buffer -----

  /** No process inside read or write, asleep or awake, ever meets a freed buffer; the counters
      count the open files; and the buffer is there exactly as long as a file is open. */
  lemma BufferOutlivesItsUsers(s: State, init: State, evs: seq<Event>)
    requires Reachable(s, init, evs)
    ensures forall p :: p in s.procs && (s.procs[p].pc.Reading? || s.procs[p].pc.Writing?) ==>
              s.dev.Live()
    ensures s.dev.nreaders == |Readers(s.dev.files)|
    ensures s.dev.nwriters == |Writers(s.dev.files)|
    ensures s.dev.ring.Some? <==> s.dev.files != map[]
    ensures s.dev.ring.Some? <==> s.dev.nreaders + s.dev.nwriters > 0
  {
    ReachableIsGood(s, init, evs);
    forall p | p in s.procs && (s.procs[p].pc.Reading? || s.procs[p].pc.Writing?)
      ensures s.dev.Live()
    {
      assert Good(s.dev, p, s.procs[p]);
    }
    CountersTell(s.dev.files);
  }

  /** The pipe is a FIFO in every epoch, and what readers ever see is a concatenation of prefixes of
      what was written between opens. */
  lemma PipeIsFifo(s: State, init: State, evs: seq<Event>)
    requires Reachable(s, init, evs)
    ensures s.dev.ring.Some? ==>
              s.dev.Live() && s.dev.epoch.accepted == s.dev.epoch.returned + s.dev.ring.value.Queue()
    ensures s.dev.stream == AllReturned(s.dev.past + [s.dev.epoch])
    ensures forall e :: e in s.dev.past + [s.dev.epoch] ==> e.returned <= e.accepted
  {
    ReachableIsGood(s, init, evs);
    var all := s.dev.past + [s.dev.epoch];
    assert all[..|all| - 1] == s.dev.past;
  }

  // ----- sleep and wake-up -----

  /** No reader's wake-up is lost, whatever opens and releases happen meanwhile. */
  lemma NoLostReader(s: State, init: State, evs: seq<Event>, p: Pid)
    requires Reachable(s, init, evs) && p in s.procs && SleepsToRead(s.procs[p])
    ensures s.dev.Live()
    ensures s.dev.ring.value.Queue() == [] || ReadersWillWake(s)
  {
    ReachableIsGood(s, init, evs);
    assert Good(s.dev, p, s.procs[p]);
    SpaceIsCapacityMinusQueue(s.dev.ring.value);
  }

  /** What must hold when an open empties the queue: no writer sleeps, or one is about to be woken. */
  ghost predicate OpenIsHarmless(s: State) {
    WritersWillWake(s) || forall p :: p in s.procs ==> !SleepsToWrite(s.procs[p])
  }

  ghost predicate IsEmptying(s: State, e: Event) {
    e.Advance? && e.p in s.procs && Empties(s.procs[e.p], e.c)
  }

  /** An open wakes nobody: it keeps the writers safe exactly when it is harmless. */
  lemma OpenKeepsWritersIff(s: State, e: Event)
    requires Inv(s) && WritersSafe(s) && Enabled(s, e) && IsEmptying(s, e)
    ensures WritersSafe(Exec(s, e)) <==> OpenIsHarmless(s)
  {
    var t := Exec(s, e);
    assert t.dev.Live() && !t.dev.ring.value.Full();
    if WritersWillWake(s) {
      var q :| q in s.procs && s.procs[q].pc.OwesWriters();
      assert t.procs[q].pc.OwesWriters();
    }
    if WritersWillWake(t) {
      var q :| q in t.procs && t.procs[q].pc.OwesWriters();
      assert s.procs[q].pc.OwesWriters();
    }
    forall p | p in s.procs
      ensures p in t.procs && (SleepsToWrite(s.procs[p]) <==> SleepsToWrite(t.procs[p]))
    {
    }
  }

  lemma OthersKeepWriters(s: State, e: Event)
    requires Inv(s) && WritersSafe(s) && Enabled(s, e) && !IsEmptying(s, e)
    ensures WritersSafe(Exec(s, e))
  {
    if e.Configure? {
      ConfigureKeeps(s, e);
    } else {
      var f := EventEffect(s.dev, e, s.procs[e.p]);
      BetweenIsGood(s, e, f);
      BetweenSoleCloser(s, e, f);
      EventKeeps(s, e, f);
      BetweenWritersSafe(s, e.p, f);
      var t := Between(s, e.p, f);
      match f.wake
      case NoWake =>
      case WakeReaders => WakeReadersKeeps(t);
      case WakeWriters => WakeWritersKeeps(t);
    }
  }

  /** No writer's wake-up is lost anywhere along the run. */
  ghost predicate WritersSafeThroughout(s: State, evs: seq<Event>)
    requires Legal(s, evs)
    decreases |evs|
  {
    WritersSafe(s) && (evs == [] || WritersSafeThroughout(Exec(s, evs[0]), evs[1..]))
  }

  /** Every open along the run empties the queue at a moment when that is harmless. */
  ghost predicate OpensHarmlessThroughout(s: State, evs: seq<Event>)
    requires Legal(s, evs)
    decreases |evs|
  {
    evs == [] || ((IsEmptying(s, evs[0]) ==> OpenIsHarmless(s))
                  && OpensHarmlessThroughout(Exec(s, evs[0]), evs[1..]))
  }

  lemma {:induction false} WritersSafeIff(s: State, evs: seq<Event>)
    requires Inv(s) && WritersSafe(s) && Legal(s, evs)
    ensures WritersSafeThroughout(s, evs) <==> OpensHarmlessThroughout(s, evs)
    decreases |evs|
  {
    if evs != [] {
      var e, rest := evs[0], evs[1..];
      var t := Exec(s, e);
      EventKeepsInv(s, e);
      if IsEmptying(s, e) {
        OpenKeepsWritersIff(s, e);
      } else {
        OthersKeepWriters(s, e);
      }
      if WritersSafe(t) {
        WritersSafeIff(t, rest);
      }
    }
  }

  /** Over whole runs: no writer's wake-up is lost exactly when every open is harmless. */
  lemma NoLostWriterIff(init: State, evs: seq<Event>)
    requires Init(init) && Legal(init, evs)
    ensures WritersSafeThroughout(init, evs) <==> OpensHarmlessThroughout(init, evs)
  {
    InitIsGood(init);
    WritersSafeIff(init, evs);
  }

  // ----- the configured size -----

  /** An open that may take place: there is no buffer yet, or it is as large as the size now
      configured. */
  ghost predicate OpenFits(s: State) {
    s.dev.ring.Some? ==> s.dev.cfg <= s.dev.room
  }

  /** An open keeps the pointers inside the buffer exactly when it fits. */
  lemma OpenInBoundsIff(s: State, e: Event)
    requires Enabled(s, e) && IsEmptying(s, e)
    ensures Exec(s, e).dev.InBounds() <==> OpenFits(s)
  {
  }

  /** No other step moves them out. */
  lemma OthersStayInBounds(s: State, e: Event)
    requires s.dev.InBounds() && Enabled(s, e) && !IsEmptying(s, e)
    ensures Exec(s, e).dev.InBounds()
  {
    if e.Advance? {
      StepInBounds(s.dev, e.p, s.procs[e.p], e.c);
    }
  }

  lemma StepInBounds(d: Device, p: Pid, r: Proc, c: Choice)
    requires d.InBounds() && CanStep(d, r, c) && !Empties(r, c)
    ensures Step(d, p, r, c).dev.InBounds()
  {
    hide Ring.Queue, Ring.ReadCount, Ring.SpaceFree;
    match r.pc
    case Opening(_) =>
    case Releasing(_) =>
    case Reading(_) =>
    case Writing(_) =>
  }

  ghost predicate InBoundsThroughout(s: State, evs: seq<Event>)
    requires Legal(s, evs)
    decreases |evs|
  {
    s.dev.InBounds() && (evs == [] || InBoundsThroughout(Exec(s, evs[0]), evs[1..]))
  }

  ghost predicate OpensFitThroughout(s: State, evs: seq<Event>)
    requires Legal(s, evs)
    decreases |evs|
  {
    evs == [] || ((IsEmptying(s, evs[0]) ==> OpenFits(s)) && OpensFitThroughout(Exec(s, evs[0]), evs[1..]))
  }

  /** Over whole runs: the pipe stays inside its buffer exactly when every open fits. */
  lemma {:induction false} InBoundsIff(s: State, evs: seq<Event>)
    requires s.dev.InBounds() && Legal(s, evs)
    ensures InBoundsThroughout(s, evs) <==> OpensFitThroughout(s, evs)
    decreases |evs|
  {
    if evs != [] {
      if IsEmptying(s, evs[0]) {
        OpenInBoundsIff(s, evs[0]);
      } else {
        OthersStayInBounds(s, evs[0]);
      }
      if Exec(s, evs[0]).dev.InBounds() {
        InBoundsIff(Exec(s, evs[0]), evs[1..]);
      }
    }
  }

  /** The step of process r copies to or from index k of the memory at `dev->buffer`. */
  ghost predicate Touches(d: Device, r: Proc, k: nat) {
    && d.Live()
    && var ring := d.ring.value;
       || (r.pc == Reading(RCopy) && ring.rp <= k < ring.rp + ring.ReadCount(r.count))
       || (r.pc == Writing(WCopy) && ring.wp <= k < ring.wp + ring.WriteCount(|r.data|))
  }

  ghost predicate StaysInside(s: State, e: Event) {
    e.Advance? && e.p in s.procs ==> forall k: nat :: Touches(s.dev, s.procs[e.p], k) ==> k < s.dev.room
  }

  ghost predicate StaysInsideThroughout(s: State, evs: seq<Event>)
    requires Legal(s, evs)
    decreases |evs|
  {
    evs == [] || (StaysInside(s, evs[0]) && StaysInsideThroughout(Exec(s, evs[0]), evs[1..]))
  }

  /** While every open fits, no copy ever reaches past what was allocated. */
  lemma {:induction false} NothingTouchedOutside(s: State, evs: seq<Event>)
    requires s.dev.InBounds() && Legal(s, evs) && OpensFitThroughout(s, evs)
    ensures StaysInsideThroughout(s, evs)
    decreases |evs|
  {
    if evs != [] {
      if IsEmptying(s, evs[0]) {
        OpenInBoundsIff(s, evs[0]);
      } else {
        OthersStayInBounds(s, evs[0]);
      }
      NothingTouchedOutside(Exec(s, evs[0]), evs[1..]);
    }
  }
}
