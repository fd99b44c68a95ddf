/** The single-open device: an atomic counter, decremented and tested in one step, and put back in
    another if the test fails. */
module SingleOpen {

  type Pid = nat

  /** Closed; about to undo a failed attempt; or having the device open. */
  datatype Pc = Closed | Undoing | Holding

  datatype State = State(available: int, procs: map<Pid, Pc>)

  datatype Event =
    | Attempt(p: Pid)     // atomic_dec_and_test
    | Undo(p: Pid)        // atomic_inc, then -EBUSY
    | Release(p: Pid)     // atomic_inc

  predicate Enabled(s: State, e: Event) {
    && e.p in s.procs
    && match e
       case Attempt(p) => s.procs[p].Closed?
       case Undo(p) => s.procs[p].Undoing?
       case Release(p) => s.procs[p].Holding?
  }

  function Exec(s: State, e: Event): State
    requires Enabled(s, e)
  {
    match e
    case Attempt(p) =>
      State(s.available - 1, s.procs[p := if s.available - 1 == 0 then Holding else Undoing])
    case Undo(p) => State(s.available + 1, s.procs[p := Closed])
    case Release(p) => State(s.available + 1, s.procs[p := Closed])
  }

  predicate Init(s: State) {
    s.available == 1 && forall p <- s.procs :: s.procs[p].Closed?
  }

  ghost predicate Legal(s: State, evs: seq<Event>)
    decreases |evs|
  {
    evs == [] || (Enabled(s, evs[0]) && Legal(Exec(s, evs[0]), evs[1..]))
  }

  ghost function Run(s: State, evs: seq<Event>): State
    requires Legal(s, evs)
    decreases |evs|
  {
    if evs == [] then s else Run(Exec(s, evs[0]), evs[1..])
  }

  function At(s: State, pc: Pc): set<Pid> {
    set p | p in s.procs && s.procs[p] == pc
  }

  /** The counter says exactly how many hold the device or are about to undo. */
  ghost predicate Inv(s: State) {
    && s.available == 1 - Size(s, Holding) - Size(s, Undoing)
    && Size(s, Holding) <= 1
  }

  function Size(s: State, pc: Pc): nat {
    |At(s, pc)|
  }

  /** Process p moves from one place to another, and the others stay. */
  lemma SizesAfterMove(s: State, n: int, p: Pid, pc: Pc, x: Pc)
    requires p in s.procs && s.procs[p] != pc
    ensures Size(State(n, s.procs[p := pc]), x)
            == Size(s, x) + (if x == pc then 1 else if x == s.procs[p] then -1 else 0)
  {
    var t := State(n, s.procs[p := pc]);
    if x == pc {
      assert At(t, x) == At(s, x) + {p};
    } else if x == s.procs[p] {
      assert At(t, x) == At(s, x) - {p};
    } else {
      assert At(t, x) == At(s, x);
    }
  }

  lemma EventKeepsInv(s: State, e: Event)
    requires Inv(s) && Enabled(s, e)
    ensures Inv(Exec(s, e))
  {
    hide At;
    var t := Exec(s, e);
    SizesAfterMove(s, t.available, e.p, t.procs[e.p], Holding);
    SizesAfterMove(s, t.available, e.p, t.procs[e.p], Undoing);
  }

  lemma {:induction false} RunKeepsInv(s: State, evs: seq<Event>)
    requires Inv(s) && Legal(s, evs)
    ensures Inv(Run(s, evs))
    decreases |evs|
  {
    if evs != [] {
      EventKeepsInv(s, evs[0]);
      RunKeepsInv(Exec(s, evs[0]), evs[1..]);
    }
  }

  lemma InitIsGood(s: State)
    requires Init(s)
    ensures Inv(s)
  {
    assert At(s, Holding) == {} && At(s, Undoing) == {};
  }

  lemma TwoMembers(x: set<Pid>, p: Pid, q: Pid)
    requires p in x && q in x && p != q
    ensures |x| >= 2
  {
    assert q in x - {p};
    assert |x - {p}| == |x| - 1;
  }

  /** In every interleaving at most one process has the device open, and an attempt succeeds
      exactly when nobody has it open and nobody is about to undo a failed one. */
  lemma SingleHolder(init: State, evs: seq<Event>, p: Pid, q: Pid)
    requires Init(init) && Legal(init, evs)
    requires p in Run(init, evs).procs && q in Run(init, evs).procs
    ensures var s := Run(init, evs);
            && s.available == 1 - Size(s, Holding) - Size(s, Undoing)
            && (s.procs[p].Holding? && s.procs[q].Holding? ==> p == q)
            && (s.procs[p].Closed? ==>
                  (Exec(s, Attempt(p)).procs[p].Holding? <==> At(s, Holding) == {} && At(s, Undoing) == {}))
  {
    InitIsGood(init);
    RunKeepsInv(init, evs);
    var s := Run(init, evs);
    if s.procs[p].Holding? && s.procs[q].Holding? && p != q {
      TwoMembers(At(s, Holding), p, q);
    }
  }

  /** An attempt may be refused although nobody has the device open: process 2 comes while
      process 1 has still to undo an attempt made before process 0 released. */
  lemma RefusedWithoutHolder()
    ensures var init := State(1, map[0 := Closed, 1 := Closed, 2 := Closed]);
            var evs := [Attempt(0), Attempt(1), Release(0)];
            && Init(init) && Legal(init, evs)
            && At(Run(init, evs), Holding) == {}
            && Enabled(Run(init, evs), Attempt(2))
            && Exec(Run(init, evs), Attempt(2)).procs[2].Undoing?
  {
    var init := State(1, map[0 := Closed, 1 := Closed, 2 := Closed]);
    var s1 := Exec(init, Attempt(0));
    assert s1 == State(0, map[0 := Holding, 1 := Closed, 2 := Closed]);
    var s2 := Exec(s1, Attempt(1));
    assert s2 == State(-1, map[0 := Holding, 1 := Undoing, 2 := Closed]);
    var s3 := Exec(s2, Release(0));
    assert s3 == State(0, map[0 := Closed, 1 := Undoing, 2 := Closed]);
    assert Run(s3, []) == s3;
    assert [Release(0)][1..] == [];
    assert Legal(s2, [Release(0)]) && Run(s2, [Release(0)]) == s3;
    assert [Attempt(1), Release(0)][1..] == [Release(0)];
    assert Legal(s1, [Attempt(1), Release(0)]) && Run(s1, [Attempt(1), Release(0)]) == s3;
    assert [Attempt(0), Attempt(1), Release(0)][1..] == [Attempt(1), Release(0)];
  }
}
