/** `scull_read` and `scull_write` read the geometry of the device before they take its semaphore.
    A write-only open that comes in between empties the device under another geometry, and the call
    goes on with the old one. */
module StaleGeometry {
  import opened Geometry

  type Pid = nat

  /** Geometries under which offsets have places; the others are the subject of UsableGeometry. */
  type Positive = x: int | x > 0 witness 1

  /** A call reads the quantum, then the qset, then waits for the semaphore. */
  datatype Pc = Idle | HasQuantum(quantum: Positive) | Loaded(quantum: Positive, qset: Positive)

  /** The geometry of the device, the one configured now, and where everybody is; and the byte that
      every place of the device holds, named by the offset it was written to. */
  datatype State = State(
    quantum: Positive, qset: Positive,
    newQuantum: Positive, newQset: Positive,
    procs: map<Pid, Pc>,
    cells: map<Place, nat>
  )

  datatype Event =
    | ReadQuantum(p: Pid)
    | ReadQset(p: Pid)
    | Perform(p: Pid, pos: nat)   // the write of the byte at pos, from down to up
    | GiveUp(p: Pid)              // down_interruptible meets a signal
    | Configure(quantum: Positive, qset: Positive)
    | Trim                        // a write-only open, from down to up

  predicate Enabled(s: State, e: Event) {
    match e
    case ReadQuantum(p) => p in s.procs && s.procs[p].Idle?
    case ReadQset(p) => p in s.procs && s.procs[p].HasQuantum?
    case Perform(p, _) => p in s.procs && s.procs[p].Loaded?
    case GiveUp(p) => p in s.procs && s.procs[p].Loaded?
    case Configure(_, _) | Trim => true
  }

  function Exec(s: State, e: Event): State
    requires Enabled(s, e)
  {
    match e
    case ReadQuantum(p) => s.(procs := s.procs[p := HasQuantum(s.quantum)])
    case ReadQset(p) => s.(procs := s.procs[p := Loaded(s.procs[p].quantum, s.qset)])
    case Perform(p, pos) =>
      s.(procs := s.procs[p := Idle],
         cells := s.cells[PlaceOf(pos, s.procs[p].quantum, s.procs[p].qset) := pos])
    case GiveUp(p) => s.(procs := s.procs[p := Idle])
    case Configure(quantum, qset) => s.(newQuantum := quantum, newQset := qset)
    case Trim => s.(quantum := s.newQuantum, qset := s.newQset, cells := map[])
  }

  ghost predicate Legal(s: State, evs: seq<Event>)
    decreases |evs|
  {
    evs == [] || (Enabled(s, evs[0]) && Legal(Exec(s, evs[0]), evs[1..]))
  }

  ghost function Run(s: State, evs: seq<Event>): State
    requires Legal(s, evs)
    decreases |evs|
  {
    if evs == [] then s else Run(Exec(s, evs[0]), evs[1..])
  }

  /** Every byte is where a later call looks for its offset. */
  ghost predicate AllFound(s: State) {
    forall place :: place in s.cells ==> PlaceOf(s.cells[place], s.quantum, s.qset) == place
  }

  /** What a call has read of the geometry is what the device has. */
  predicate IsFresh(s: State, pc: Pc) {
    match pc
    case Idle => true
    case HasQuantum(quantum) => quantum == s.quantum
    case Loaded(quantum, qset) => quantum == s.quantum && qset == s.qset
  }

  ghost predicate Fresh(s: State) {
    forall p :: p in s.procs ==> IsFresh(s, s.procs[p])
  }

  /** Nobody is between reading the geometry and the semaphore; or only what nobody has read yet
      is about to change. */
  ghost predicate TrimIsHarmless(s: State) {
    forall p :: p in s.procs && !s.procs[p].Idle? ==>
      && s.newQuantum == s.quantum
      && (s.procs[p].Loaded? ==> s.newQset == s.qset)
  }

  // ----- harmless trims -----

  lemma TrimKeepsFresh(s: State)
    requires Fresh(s) && TrimIsHarmless(s)
    ensures Fresh(Exec(s, Trim)) && AllFound(Exec(s, Trim))
  {
    var t := Exec(s, Trim);
    forall p | p in t.procs
      ensures IsFresh(t, t.procs[p])
    {
      assert IsFresh(s, s.procs[p]);
    }
  }

  lemma OthersKeepFresh(s: State, e: Event)
    requires Fresh(s) && AllFound(s) && Enabled(s, e) && !e.Trim?
    ensures Fresh(Exec(s, e)) && AllFound(Exec(s, e))
  {
    var t := Exec(s, e);
    assert e.Perform? ==> IsFresh(s, s.procs[e.p]);
    forall p | p in t.procs
      ensures IsFresh(t, t.procs[p])
    {
      assert p in s.procs && IsFresh(s, s.procs[p]);
    }
  }

  ghost predicate TrimsHarmlessThroughout(s: State, evs: seq<Event>)
    requires Legal(s, evs)
    decreases |evs|
  {
    evs == [] || ((evs[0].Trim? ==> TrimIsHarmless(s)) && TrimsHarmlessThroughout(Exec(s, evs[0]), evs[1..]))
  }

  ghost predicate AllFoundThroughout(s: State, evs: seq<Event>)
    requires Legal(s, evs)
    decreases |evs|
  {
    AllFound(s) && (evs == [] || AllFoundThroughout(Exec(s, evs[0]), evs[1..]))
  }

  /** Over every run, by any number of processes, in which every trim is harmless at its time: every
      byte is always where a later call looks for it. */
  lemma {:induction false} HarmlessTrimsLoseNothing(s: State, evs: seq<Event>)
    requires Fresh(s) && AllFound(s) && Legal(s, evs) && TrimsHarmlessThroughout(s, evs)
    ensures AllFoundThroughout(s, evs) && Fresh(Run(s, evs))
    decreases |evs|
  {
    if evs != [] {
      if evs[0].Trim? {
        TrimKeepsFresh(s);
      } else {
        OthersKeepFresh(s, evs[0]);
      }
      HarmlessTrimsLoseNothing(Exec(s, evs[0]), evs[1..]);
    }
  }

  // ----- harmful trims -----

  predicate WithoutTrim(evs: seq<Event>) {
    forall k :: 0 <= k < |evs| ==> !evs[k].Trim?
  }

  /** A way for the run to go on without another trim until a byte is misplaced. */
  ghost predicate Misplaces(s: State, evs: seq<Event>) {
    Legal(s, evs) && WithoutTrim(evs) && !AllFound(Run(s, evs))
  }

  /** Whoever has a stale geometry goes on to misplace a byte. */
  lemma StaleCallMisplaces(s: State, p: Pid) returns (evs: seq<Event>)
    requires p in s.procs && !IsFresh(s, s.procs[p])
    ensures Misplaces(s, evs) && 1 <= |evs| <= 2
  {
    if s.procs[p].Loaded? {
      var e := StalePerform(s, p);
      evs := [e];
      assert evs[1..] == [];
      assert Run(s, evs) == Run(Exec(s, e), []);
    } else {
      var t := Exec(s, ReadQset(p));
      var e := StalePerform(t, p);
      evs := [ReadQset(p), e];
      assert evs[1..] == [e] && [e][1..] == [];
      assert Run(t, [e]) == Run(Exec(t, e), []);
      assert Run(s, evs) == Run(t, [e]);
    }
  }

  lemma StalePerform(s: State, p: Pid) returns (e: Event)
    requires p in s.procs && s.procs[p].Loaded? && !IsFresh(s, s.procs[p])
    ensures e.Perform? && Enabled(s, e) && !AllFound(Exec(s, e))
  {
    var pc := s.procs[p];
    SamePlacesIff(pc.quantum, pc.qset, s.quantum, s.qset);
    var pos: nat :| PlaceOf(pos, pc.quantum, pc.qset) != PlaceOf(pos, s.quantum, s.qset);
    e := Perform(p, pos);
    assert Exec(s, e).cells[PlaceOf(pos, pc.quantum, pc.qset)] == pos;
  }

  lemma HarmfulTrimLeavesStale(s: State) returns (p: Pid)
    requires Fresh(s) && !TrimIsHarmless(s)
    ensures p in s.procs && !IsFresh(Exec(s, Trim), s.procs[p])
  {
    p :| p in s.procs && !s.procs[p].Idle?
         && !(s.newQuantum == s.quantum && (s.procs[p].Loaded? ==> s.newQset == s.qset));
    assert IsFresh(s, s.procs[p]);
  }

  lemma {:induction false} WithoutTrimIsHarmless(s: State, evs: seq<Event>)
    requires Legal(s, evs) && WithoutTrim(evs)
    ensures TrimsHarmlessThroughout(s, evs)
    decreases |evs|
  {
    if evs != [] {
      WithoutTrimIsHarmless(Exec(s, evs[0]), evs[1..]);
    }
  }

  lemma {:induction false} FoundAtTheEnd(s: State, evs: seq<Event>)
    requires Legal(s, evs) && AllFoundThroughout(s, evs)
    ensures AllFound(Run(s, evs))
    decreases |evs|
  {
    if evs != [] {
      FoundAtTheEnd(Exec(s, evs[0]), evs[1..]);
    }
  }

  /** The exact condition: after a trim that comes while nothing is stale, some call can go on to
      misplace a byte if and only if the trim was not harmless. */
  lemma TrimMisplacesIff(s: State)
    requires Fresh(s)
    ensures (exists evs :: Misplaces(Exec(s, Trim), evs)) <==> !TrimIsHarmless(s)
  {
    var t := Exec(s, Trim);
    if TrimIsHarmless(s) {
      TrimKeepsFresh(s);
      forall evs | Legal(t, evs) && WithoutTrim(evs)
        ensures AllFound(Run(t, evs))
      {
        WithoutTrimIsHarmless(t, evs);
        HarmlessTrimsLoseNothing(t, evs);
        FoundAtTheEnd(t, evs);
      }
    } else {
      var p := HarmfulTrimLeavesStale(s);
      var evs := StaleCallMisplaces(t, p);
    }
  }

  /** After no trim of the run can a call go on to misplace a byte. */
  ghost predicate TrimsSafeThroughout(s: State, evs: seq<Event>)
    requires Legal(s, evs)
    decreases |evs|
  {
    evs == []
    || ((evs[0].Trim? ==> !exists rest :: Misplaces(Exec(s, Trim), rest))
        && TrimsSafeThroughout(Exec(s, evs[0]), evs[1..]))
  }

  /** The same over whole runs. */
  lemma {:induction false} NeverMisplacesIff(s: State, evs: seq<Event>)
    requires Fresh(s) && AllFound(s) && Legal(s, evs)
    ensures TrimsSafeThroughout(s, evs) <==> TrimsHarmlessThroughout(s, evs)
    decreases |evs|
  {
    if evs != [] {
      if evs[0].Trim? {
        TrimMisplacesIff(s);
        if TrimIsHarmless(s) {
          TrimKeepsFresh(s);
          NeverMisplacesIff(Exec(s, Trim), evs[1..]);
        }
      } else {
        OthersKeepFresh(s, evs[0]);
        NeverMisplacesIff(Exec(s, evs[0]), evs[1..]);
      }
    }
  }

  // ----- places -----

  /** Two geometries put every offset at the same place only if they are the same. */
  lemma SamePlacesIff(quantum: int, qset: int, quantum': int, qset': int)
    requires quantum > 0 && qset > 0 && quantum' > 0 && qset' > 0
    ensures (forall off: nat :: PlaceOf(off, quantum, qset) == PlaceOf(off, quantum', qset'))
            <==> quantum == quantum' && qset == qset'
  {
    if quantum != quantum' {
      var off: nat := if quantum < quantum' then quantum else quantum';
      FirstOfSecondQuantum(quantum, qset, quantum', qset', off);
    } else if qset != qset' {
      var n: nat := if qset < qset' then qset else qset';
      FirstOfSecondItem(quantum, qset, qset', n);
    }
  }

  lemma FirstOfSecondQuantum(quantum: int, qset: int, quantum': int, qset': int, off: nat)
    requires quantum > 0 && qset > 0 && quantum' > 0 && qset' > 0 && quantum != quantum'
    requires off == if quantum < quantum' then quantum else quantum'
    ensures PlaceOf(off, quantum, qset) != PlaceOf(off, quantum', qset')
  {
    if quantum < quantum' {
      DivUnique(off, quantum, 1, 0);
      DivUnique(off, quantum', 0, off);
    } else {
      DivUnique(off, quantum', 1, 0);
      DivUnique(off, quantum, 0, off);
    }
  }

  lemma FirstOfSecondItem(quantum: int, qset: int, qset': int, n: nat)
    requires quantum > 0 && qset > 0 && qset' > 0 && qset != qset'
    requires n == if qset < qset' then qset else qset'
    ensures n * quantum >= 0
    ensures PlaceOf(n * quantum, quantum, qset) != PlaceOf(n * quantum, quantum, qset')
  {
    MulKeepsOrder(0, n, quantum);
    DivUnique(n * quantum, quantum, n, 0);
    if qset < qset' {
      DivUnique(n, qset, 1, 0);
      DivUnique(n, qset', 0, n);
    } else {
      DivUnique(n, qset', 1, 0);
      DivUnique(n, qset, 0, n);
    }
  }

  /** Two processes are enough: process 0 has read the geometry when the device is emptied under one
      with longer tables.  Its write then goes to an item in which nobody will look for the offset. */
  lemma StaleWrite() returns (s: State, evs: seq<Event>)
    ensures s == State(4, 1, 4, 1, map[0 := Idle, 1 := Idle], map[]) && Fresh(s) && AllFound(s)
    ensures evs == [ReadQuantum(0), ReadQset(0), Configure(4, 2), Trim, Perform(0, 4)] && Legal(s, evs)
    ensures Run(s, evs).cells == map[Place(1, 0, 0) := 4] && PlaceOf(4, 4, 2) == Place(0, 1, 0)
    ensures !AllFound(Run(s, evs))
  {
    s := State(4, 1, 4, 1, map[0 := Idle, 1 := Idle], map[]);
    evs := [ReadQuantum(0), ReadQset(0), Configure(4, 2), Trim, Perform(0, 4)];
    var s1 := Exec(s, evs[0]);
    var s2 := Exec(s1, evs[1]);
    var s3 := Exec(s2, evs[2]);
    var s4 := Exec(s3, evs[3]);
    var s5 := Exec(s4, evs[4]);
    assert evs[1..][1..] == evs[2..] && evs[2..][1..] == evs[3..] && evs[3..][1..] == evs[4..] && evs[4..][1..] == [];
    assert evs[4..][0] == evs[4] && Legal(s5, []) && Run(s5, []) == s5;
    assert Legal(s4, evs[4..]) && Run(s4, evs[4..]) == s5;
    assert Legal(s3, evs[3..]) && Run(s3, evs[3..]) == s5;
    assert Legal(s2, evs[2..]) && Run(s2, evs[2..]) == s5;
    assert Legal(s1, evs[1..]) && Run(s1, evs[1..]) == s5;
    assert PlaceOf(4, 4, 1) == Place(1, 0, 0) && Place(1, 0, 0) in s5.cells;
  }
}
