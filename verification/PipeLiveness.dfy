/** Where runs of the pipe protocol can stop, and a run in which an open loses a wake-up. */
module PipeLiveness {
  import opened Common
  import opened RingBuffer
  import opened PipeProtocol
  import opened PipeSafety
  import opened PipeTheorems

  // ----- quiescence -----

  /** No process that is inside a call can take a step. */
  ghost predicate Quiescent(s: State) {
    forall p, c :: p in s.procs ==> !CanStep(s.dev, s.procs[p], c)
  }

  /** Asleep in `schedule`, with no signal to answer. */
  predicate Asleep(r: Proc) {
    (r.pc == Reading(RSleep) || r.pc == Writing(WSleep)) && !r.runnable && !r.signalled
  }

  lemma UnusedNumber(used: set<nat>) returns (n: nat)
    ensures n !in used
    ensures forall x :: x in used ==> x < n
  {
    n := 0;
    var left := used;
    while left != {}
      invariant forall x :: x in used ==> x in left || x < n
      decreases left
    {
      var x :| x in left;
      left := left - {x};
      if x >= n {
        n := x + 1;
      }
    }
  }

  /** Unless it is idle or asleep, a process that finds the semaphore free, or has it, can go on. */
  lemma CanGoOnUnlessAsleep(s: State, p: Pid) returns (c: Choice)
    requires Inv(s) && p in s.procs
    requires s.dev.sem in {None, Some(p)}
    requires !s.procs[p].pc.Idle? && !Asleep(s.procs[p])
    ensures CanStep(s.dev, s.procs[p], c)
  {
    assert Good(s.dev, p, s.procs[p]);
    var fid := UnusedNumber(s.dev.files.Keys);
    c := Choice(false, fid, seq(s.dev.cfg, _ => 0));
    match s.procs[p].pc
    case Opening(_) =>
    case Releasing(_) =>
    case Reading(_) =>
    case Writing(_) =>
  }

  /** When nothing can move any more, nobody is inside, every process is idle or asleep, readers
      sleep only over an empty queue, and so no reader can be stuck with bytes to read. */
  lemma QuiescentReaders(s: State, init: State, evs: seq<Event>)
    requires Reachable(s, init, evs) && Quiescent(s)
    ensures s.dev.sem == None
    ensures forall p :: p in s.procs ==> s.procs[p].pc.Idle? || Asleep(s.procs[p])
    ensures forall p :: p in s.procs && s.procs[p].pc.Reading? ==>
              s.dev.Live() && s.dev.ring.value.Queue() == []
  {
    ReachableIsGood(s, init, evs);
    if s.dev.sem.Some? {
      var h := s.dev.sem.value;
      assert Good(s.dev, h, s.procs[h]);
      var c := CanGoOnUnlessAsleep(s, h);
      assert false;
    }
    forall p | p in s.procs
      ensures s.procs[p].pc.Idle? || Asleep(s.procs[p])
      ensures s.procs[p].pc.Reading? ==> s.dev.Live() && s.dev.ring.value.Queue() == []
    {
      if !s.procs[p].pc.Idle? && !Asleep(s.procs[p]) {
        var c := CanGoOnUnlessAsleep(s, p);
      }
      if s.procs[p].pc.Reading? {
        NoLostReader(s, init, evs, p);
        if ReadersWillWake(s) {
          var q :| q in s.procs && s.procs[q].pc.OwesReaders();
          var c := CanGoOnUnlessAsleep(s, q);
        }
      }
    }
  }

  /** If no open has lost a wake-up, writers are stuck only over a full buffer; and since a buffer
      is never full and empty at once, readers and writers are never stuck together. */
  lemma QuiescentWriters(s: State, init: State, evs: seq<Event>)
    requires Reachable(s, init, evs) && Quiescent(s) && WritersSafe(s)
    ensures forall p :: p in s.procs && s.procs[p].pc.Writing? ==>
              s.dev.Live() && |s.dev.ring.value.Queue()| == s.dev.ring.value.Capacity()
    ensures forall p, q :: p in s.procs && q in s.procs ==>
              !(s.procs[p].pc.Reading? && s.procs[q].pc.Writing?)
  {
    QuiescentReaders(s, init, evs);
    ReachableIsGood(s, init, evs);
    forall p | p in s.procs && s.procs[p].pc.Writing?
      ensures s.dev.Live() && |s.dev.ring.value.Queue()| == s.dev.ring.value.Capacity()
    {
      assert Good(s.dev, p, s.procs[p]);
      assert s.dev.Live();
      SpaceIsCapacityMinusQueue(s.dev.ring.value);
    }
  }

  // ----- runs, one event longer -----

  lemma {:induction false} Extend(init: State, evs: seq<Event>, e: Event)
    requires Legal(init, evs) && Enabled(Run(init, evs), e)
    ensures Legal(init, evs + [e])
    ensures Run(init, evs + [e]) == Exec(Run(init, evs), e)
    decreases |evs|
  {
    if evs == [] {
      assert evs + [e] == [e];
      assert [e][1..] == [];
    } else {
      assert (evs + [e])[1..] == evs[1..] + [e];
      Extend(Exec(init, evs[0]), evs[1..], e);
    }
  }

  /** The run goes on with event e and reaches state t. */
  lemma Then(init: State, evs: seq<Event>, s: State, e: Event, t: State) returns (evs': seq<Event>)
    requires Reachable(s, init, evs) && Enabled(s, e) && t == Exec(s, e)
    ensures Reachable(t, init, evs')
  {
    Extend(init, evs, e);
    evs' := evs + [e];
  }

  // ----- the run that loses a wake-up -----

  const FILE := File(ReadWrite, false)

  /** A process that offers one byte to every write. */
  function Writer(pc: Pc, runnable: bool, result: Outcome): Proc {
    Proc(pc, 0, FILE, 0, [7], runnable, false, result)
  }

  function TwoProcesses(d: Device, first: Proc, second: Proc): State {
    State(d, map[0 := first, 1 := second])
  }

  /** A pipe with room for a single byte, opened once. */
  function OneSlot(ring: Ring, sem: Option<Pid>, outq: set<Pid>, accepted: seq<Byte>): Device {
    Device(2, Some(ring), 1, 1, sem, {}, outq, map[0 := FILE], Epoch(accepted, []), [Epoch([], [])], [], 2)
  }

  const FRESH := Device(2, None, 0, 0, None, {}, {}, map[], Epoch([], []), [], [], 0)
  const BYSTANDER := Writer(Idle, true, Done(0))
  const STARTED := TwoProcesses(FRESH, BYSTANDER, BYSTANDER)
  const EMPTY := Ring([0, 0], 0, 0)
  const FILLED := Ring([7, 0], 0, 1)

  /** Process 0 opens the pipe. */
  lemma FirstOpen() returns (evs: seq<Event>)
    ensures Reachable(TwoProcesses(OneSlot(EMPTY, None, {}, []), BYSTANDER, BYSTANDER), STARTED, evs)
  {
    var c := Choice(false, 0, [0, 0]);
    var s0 := STARTED;
    var s1 := TwoProcesses(FRESH, Writer(Opening(ODown), true, Done(0)), BYSTANDER);
    var s2 := TwoProcesses(FRESH.(sem := Some(0)), Writer(Opening(OBody), true, Done(0)), BYSTANDER);
    var s3 := TwoProcesses(OneSlot(EMPTY, Some(0), {}, []), Writer(Opening(OUp(Done(0))), true, Done(0)), BYSTANDER);
    var s4 := TwoProcesses(OneSlot(EMPTY, None, {}, []), BYSTANDER, BYSTANDER);
    evs := Then(STARTED, [], s0, StartOpen(0, FILE), s1);
    evs := Then(STARTED, evs, s1, Advance(0, c), s2);
    evs := Then(STARTED, evs, s2, Advance(0, c), s3);
    evs := Then(STARTED, evs, s3, Advance(0, c), s4);
  }

  /** Process 0 enters a write and finds room. */
  lemma FirstWriteEnters() returns (evs: seq<Event>)
    ensures Reachable(TwoProcesses(OneSlot(EMPTY, Some(0), {}, []), Writer(Writing(WCopy), true, Done(0)), BYSTANDER),
                      STARTED, evs)
  {
    var c := Choice(false, 0, []);
    evs := FirstOpen();
    var d := OneSlot(EMPTY, None, {}, []);
    var s0 := TwoProcesses(d, BYSTANDER, BYSTANDER);
    var s1 := TwoProcesses(d, Writer(Writing(WDown), true, Done(0)), BYSTANDER);
    var s2 := TwoProcesses(d.(sem := Some(0)), Writer(Writing(WTest), true, Done(0)), BYSTANDER);
    var s3 := TwoProcesses(d.(sem := Some(0)), Writer(Writing(WCopy), true, Done(0)), BYSTANDER);
    evs := Then(STARTED, evs, s0, StartWrite(0, 0, [7]), s1);
    evs := Then(STARTED, evs, s1, Advance(0, c), s2);
    evs := Then(STARTED, evs, s2, Advance(0, c), s3);
  }

  lemma OneByteFills()
    ensures EMPTY.Valid() && FILLED.Valid() && EMPTY.WriteCount(1) == 1 && EMPTY.AfterWrite([7]) == FILLED
    ensures FILLED.Full() && !EMPTY.Full()
  {
  }

  /** Process 0 copies its byte in. */
  lemma FirstWriteCopies() returns (evs: seq<Event>)
    ensures Reachable(TwoProcesses(OneSlot(FILLED, Some(0), {}, [7]),
                                   Writer(Writing(WUp(Done(1))), true, Done(0)), BYSTANDER),
                      STARTED, evs)
  {
    hide Ring.Queue, Ring.WriteCount, Ring.AfterWrite;
    OneByteFills();
    var c := Choice(false, 0, []);
    evs := FirstWriteEnters();
    var s3 := TwoProcesses(OneSlot(EMPTY, Some(0), {}, []), Writer(Writing(WCopy), true, Done(0)), BYSTANDER);
    var s4 := TwoProcesses(OneSlot(FILLED, Some(0), {}, [7]), Writer(Writing(WUp(Done(1))), true, Done(0)), BYSTANDER);
    evs := Then(STARTED, evs, s3, Advance(0, c), s4);
  }

  /** Process 0 has filled the pipe. */
  lemma FirstWrite() returns (evs: seq<Event>)
    ensures Reachable(TwoProcesses(OneSlot(FILLED, None, {}, [7]), Writer(Idle, true, Done(1)), BYSTANDER),
                      STARTED, evs)
  {
    var c := Choice(false, 0, []);
    evs := FirstWriteCopies();
    var d := OneSlot(FILLED, None, {}, [7]);
    var s4 := TwoProcesses(d.(sem := Some(0)), Writer(Writing(WUp(Done(1))), true, Done(0)), BYSTANDER);
    var s5 := TwoProcesses(d, Writer(Writing(WWake(1)), true, Done(0)), BYSTANDER);
    var s6 := TwoProcesses(d, Writer(Idle, true, Done(1)), BYSTANDER);
    evs := Then(STARTED, evs, s4, Advance(0, c), s5);
    evs := Then(STARTED, evs, s5, Advance(0, c), s6);
  }

  /** Process 0 writes once more and finds no room. */
  lemma SecondWriteTests() returns (evs: seq<Event>)
    ensures Reachable(TwoProcesses(OneSlot(FILLED, Some(0), {}, [7]),
                                   Writer(Writing(WUpFull), true, Done(1)), BYSTANDER),
                      STARTED, evs)
  {
    var c := Choice(false, 0, []);
    evs := FirstWrite();
    var d := OneSlot(FILLED, None, {}, [7]);
    var s0 := TwoProcesses(d, Writer(Idle, true, Done(1)), BYSTANDER);
    var s1 := TwoProcesses(d, Writer(Writing(WDown), true, Done(1)), BYSTANDER);
    var s2 := TwoProcesses(d.(sem := Some(0)), Writer(Writing(WTest), true, Done(1)), BYSTANDER);
    var s3 := TwoProcesses(d.(sem := Some(0)), Writer(Writing(WUpFull), true, Done(1)), BYSTANDER);
    evs := Then(STARTED, evs, s0, StartWrite(0, 0, [7]), s1);
    evs := Then(STARTED, evs, s1, Advance(0, c), s2);
    evs := Then(STARTED, evs, s2, Advance(0, c), s3);
  }

  /** Process 0 goes to sleep. */
  lemma SecondWriteSleeps() returns (evs: seq<Event>)
    ensures Reachable(TwoProcesses(OneSlot(FILLED, None, {0}, [7]), Writer(Writing(WSleep), false, Done(1)), BYSTANDER),
                      STARTED, evs)
  {
    var c := Choice(false, 0, []);
    evs := SecondWriteTests();
    var d := OneSlot(FILLED, None, {}, [7]);
    var s3 := TwoProcesses(d.(sem := Some(0)), Writer(Writing(WUpFull), true, Done(1)), BYSTANDER);
    var s4 := TwoProcesses(d, Writer(Writing(WPrepare), true, Done(1)), BYSTANDER);
    var s5 := TwoProcesses(d.(outq := {0}), Writer(Writing(WRetest), false, Done(1)), BYSTANDER);
    var s6 := TwoProcesses(d.(outq := {0}), Writer(Writing(WSleep), false, Done(1)), BYSTANDER);
    evs := Then(STARTED, evs, s3, Advance(0, c), s4);
    evs := Then(STARTED, evs, s4, Advance(0, c), s5);
    evs := Then(STARTED, evs, s5, Advance(0, c), s6);
  }

  /** A wake-up can be lost: process 1 opens the pipe and empties the queue while process 0 sleeps
      for room.  The buffer is empty now, nobody owes a wake-up, and the writer sleeps on. */
  lemma OpenLosesWakeup() returns (evs: seq<Event>, s: State)
    ensures Reachable(s, STARTED, evs)
    ensures 0 in s.procs && SleepsToWrite(s.procs[0]) && s.dev.Live() && s.dev.ring.value.Queue() == []
    ensures !WritersSafe(s)
  {
    var c := Choice(false, 1, [0, 0]);
    evs := SecondWriteSleeps();
    var full := OneSlot(FILLED, None, {0}, [7]);
    var sleeper := Writer(Writing(WSleep), false, Done(1));
    var s0 := TwoProcesses(full, sleeper, BYSTANDER);
    var s1 := TwoProcesses(full, sleeper, Writer(Opening(ODown), true, Done(0)));
    var s2 := TwoProcesses(full.(sem := Some(1)), sleeper, Writer(Opening(OBody), true, Done(0)));
    evs := Then(STARTED, evs, s0, StartOpen(1, FILE), s1);
    evs := Then(STARTED, evs, s1, Advance(1, c), s2);
    s := Exec(s2, Advance(1, c));
    evs := Then(STARTED, evs, s2, Advance(1, c), s);
    assert s.procs[0] == sleeper;
    assert !WritersWillWake(s);
  }

  /** A second open takes over a size for which there is no buffer. */
  lemma OpenTakesSize(size: nat) returns (evs: seq<Event>)
    requires size > 2
    ensures Reachable(TwoProcesses(Believing(size, Some(1)), BYSTANDER, Writer(Opening(OUp(Done(0))), true, Done(0))),
                      STARTED, evs)
  {
    var c := Choice(false, 1, seq(size, _ => 0));
    evs := FirstOpen();
    var d := OneSlot(EMPTY, None, {}, []);
    var d' := d.(cfg := size);
    var s0 := TwoProcesses(d, BYSTANDER, BYSTANDER);
    var s1 := TwoProcesses(d', BYSTANDER, BYSTANDER);
    var s2 := TwoProcesses(d', BYSTANDER, Writer(Opening(ODown), true, Done(0)));
    var s3 := TwoProcesses(d'.(sem := Some(1)), BYSTANDER, Writer(Opening(OBody), true, Done(0)));
    var s4 := TwoProcesses(Believing(size, Some(1)), BYSTANDER, Writer(Opening(OUp(Done(0))), true, Done(0)));
    evs := Then(STARTED, evs, s0, Configure(size), s1);
    evs := Then(STARTED, evs, s1, StartOpen(1, FILE), s2);
    evs := Then(STARTED, evs, s2, Advance(1, c), s3);
    assert Exec(s3, Advance(1, c)).dev == s4.dev;
    evs := Then(STARTED, evs, s3, Advance(1, c), s4);
  }

  /** The pipe after that open: it takes its buffer of 2 bytes for one of `size`. */
  function Believing(size: nat, sem: Option<Pid>): Device {
    Device(size, Some(Ring(seq(size, _ => 0), 0, 0)), 2, 2, sem, {}, {}, map[0 := FILE, 1 := FILE],
           Epoch([], []), [Epoch([], []), Epoch([], [])], [], 2)
  }

  function Filler(size: nat, pc: Pc): Proc
    requires size > 0
  {
    Proc(pc, 0, FILE, 0, seq(size - 1, _ => 7), true, false, Done(0))
  }

  /** The buffer can be overrun: once a pipe of size 2 is open, a larger size is configured, the next
      open takes that over, and the next write is about to copy past the end of the buffer. */
  lemma OpenOverrunsBuffer(size: nat) returns (evs: seq<Event>, s: State, c: Choice)
    requires size > 3
    ensures Reachable(s, STARTED, evs)
    ensures Enabled(s, Advance(1, c)) && Touches(s.dev, s.procs[1], size - 2) && s.dev.room == 2 <= size - 2
  {
    c := Choice(false, 0, []);
    evs := OpenTakesSize(size);
    var d := Believing(size, None);
    var s4 := TwoProcesses(Believing(size, Some(1)), BYSTANDER, Writer(Opening(OUp(Done(0))), true, Done(0)));
    var s5 := TwoProcesses(d, BYSTANDER, BYSTANDER);
    var s6 := TwoProcesses(d, BYSTANDER, Filler(size, Writing(WDown)));
    var s7 := TwoProcesses(Believing(size, Some(1)), BYSTANDER, Filler(size, Writing(WTest)));
    s := TwoProcesses(Believing(size, Some(1)), BYSTANDER, Filler(size, Writing(WCopy)));
    evs := Then(STARTED, evs, s4, Advance(1, c), s5);
    evs := Then(STARTED, evs, s5, StartWrite(1, 0, seq(size - 1, _ => 7)), s6);
    evs := Then(STARTED, evs, s6, Advance(1, c), s7);
    evs := Then(STARTED, evs, s7, Advance(1, c), s);
  }
}
