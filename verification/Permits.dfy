/** One event of the kernel's event table, seen as a counting semaphore: each wait and each signal
    is one step. */
module Permits {

  type Pid = nat

  /** `count` and `init_count` as the driver keeps them, the exclusive waiters in the order in which
      they came, and a history: permits handed out, and permits signalled back. */
  datatype Sem = Sem(count: int, initCount: int, waiters: seq<Pid>, granted: nat, returned: nat) {

    /** `myevent_wait`: the count goes down; who makes it negative has to wait. */
    function Wait(p: Pid): Sem {
      if count - 1 < 0 then this.(count := count - 1, waiters := waiters + [p])
      else this.(count := count - 1, granted := granted + 1)
    }

    /** `myevent_signal`: the count goes up, but not past its initial value; while it is not
        positive, the first waiter is woken. */
    function Signal(): Sem {
      var raised := count + 1 <= initCount;
      var s := if raised then this.(count := count + 1, returned := returned + 1) else this;
      if s.count <= 0 && s.waiters != [] then s.(waiters := s.waiters[1..], granted := s.granted + 1)
      else s
    }

    /** Permits handed out and not given back. */
    function Outstanding(): int {
      granted - returned
    }

    /** Every permit is available, or outstanding, or waited for; and there are never more of them
        outstanding than there were at the start. */
    predicate Conserved() {
      && initCount - count == Outstanding() + |waiters|
      && 0 <= Outstanding() <= initCount
      && |waiters| == (if count < 0 then -count else 0)
    }
  }

  function NewSem(c: int): Sem {
    Sem(c, c, [], 0, 0)
  }

  datatype Event = Wait(p: Pid) | Signal

  function Exec(s: Sem, e: Event): Sem {
    match e
    case Wait(p) => s.Wait(p)
    case Signal => s.Signal()
  }

  function Run(s: Sem, evs: seq<Event>): Sem
    decreases |evs|
  {
    if evs == [] then s else Run(Exec(s, evs[0]), evs[1..])
  }

  lemma EventConserves(s: Sem, e: Event)
    requires s.Conserved()
    ensures Exec(s, e).Conserved() && Exec(s, e).initCount == s.initCount
  {
  }

  lemma {:induction false} RunConserves(s: Sem, evs: seq<Event>)
    requires s.Conserved()
    ensures Run(s, evs).Conserved() && Run(s, evs).initCount == s.initCount
    decreases |evs|
  {
    if evs != [] {
      EventConserves(s, evs[0]);
      RunConserves(Exec(s, evs[0]), evs[1..]);
    }
  }

  /** Whoever waits and signals, and however often: permits are conserved over every run, exactly
      when the initial count is not negative. */
  lemma PermitsConservedIff(c: int)
    ensures (forall evs: seq<Event> :: Run(NewSem(c), evs).Conserved()) <==> c >= 0
  {
    if c >= 0 {
      forall evs: seq<Event>
        ensures Run(NewSem(c), evs).Conserved()
      {
        RunConserves(NewSem(c), evs);
      }
    } else {
      assert !Run(NewSem(c), []).Conserved();
    }
  }

  lemma PermitsConserved(c: int, evs: seq<Event>)
    requires c >= 0
    ensures var s := Run(NewSem(c), evs);
            && c - s.count == s.Outstanding() + |s.waiters|
            && 0 <= s.Outstanding() <= c
            && |s.waiters| == (if s.count < 0 then -s.count else 0)
  {
    RunConserves(NewSem(c), evs);
  }

  // ----- who is served when -----

  /** Who waited, in order. */
  function Arrivals(evs: seq<Event>): seq<Pid> {
    if evs == [] then []
    else (if evs[0].Wait? then [evs[0].p] else []) + Arrivals(evs[1..])
  }

  predicate IsSuffix(x: seq<Pid>, y: seq<Pid>) {
    |x| <= |y| && x == y[|y| - |x|..]
  }

  /** First come, first served: who still waits came last, in that order. */
  lemma {:induction false} WaitersCameLast(s: Sem, evs: seq<Event>)
    requires s.Conserved()
    ensures IsSuffix(Run(s, evs).waiters, s.waiters + Arrivals(evs))
    decreases |evs|
  {
    hide IsSuffix, Sem.Conserved, Exec;
    if evs == [] {
      assert s.waiters + [] == s.waiters;
      SuffixOfItself(s.waiters);
    } else {
      var e, t, rest := evs[0], Exec(s, evs[0]), Arrivals(evs[1..]);
      EventConserves(s, e);
      WaitersCameLast(t, evs[1..]);
      var come: seq<Pid> := if e.Wait? then [e.p] else [];
      StepKeepsOrder(s, e, come);
      SuffixOfLonger(Run(t, evs[1..]).waiters, t.waiters, s.waiters + come, rest);
      assert (s.waiters + come) + rest == s.waiters + (come + rest);
    }
  }

  lemma StepKeepsOrder(s: Sem, e: Event, come: seq<Pid>)
    requires s.Conserved() && come == if e.Wait? then [e.p] else []
    ensures IsSuffix(Exec(s, e).waiters, s.waiters + come)
  {
    assert e.Signal? ==> s.waiters + come == s.waiters;
  }

  lemma SuffixOfItself(x: seq<Pid>)
    ensures IsSuffix(x, x)
  {
  }

  lemma SuffixOfLonger(x: seq<Pid>, y: seq<Pid>, z: seq<Pid>, rest: seq<Pid>)
    requires IsSuffix(y, z) && IsSuffix(x, y + rest)
    ensures IsSuffix(x, z + rest)
  {
    assert z == z[..|z| - |y|] + y;
    assert z + rest == z[..|z| - |y|] + (y + rest);
  }

  function Waits(ps: seq<Pid>): seq<Event> {
    seq(|ps|, i requires 0 <= i < |ps| => Event.Wait(ps[i]))
  }

  /** Of the first callers of an event opened with count c, c are let in at once, and all others wait,
      in the order in which they came. */
  lemma {:induction false} FirstAreLetIn(c: nat, ps: seq<Pid>)
    ensures var s := Run(NewSem(c), Waits(ps));
            && s.granted == (if |ps| <= c then |ps| else c)
            && s.waiters == (if |ps| <= c then [] else ps[c..])
            && s.count == c - |ps| && s.initCount == c && s.returned == 0
    decreases |ps|
  {
    if ps != [] {
      var before := ps[..|ps| - 1];
      FirstAreLetIn(c, before);
      assert Waits(ps) == Waits(before) + [Event.Wait(ps[|ps| - 1])];
      RunLast(NewSem(c), Waits(before), Event.Wait(ps[|ps| - 1]));
    }
  }

  lemma {:induction false} RunLast(s: Sem, evs: seq<Event>, e: Event)
    ensures Run(s, evs + [e]) == Exec(Run(s, evs), e)
    decreases |evs|
  {
    if evs == [] {
      assert [e][1..] == [] && [] + [e] == [e];
      assert Run(Exec(s, e), []) == Exec(s, e);
    } else {
      assert (evs + [e])[1..] == evs[1..] + [e];
      RunLast(Exec(s, evs[0]), evs[1..], e);
    }
  }

  // ----- callers that signal only what they were granted -----

  /** An event and who has a permit of it. */
  datatype Users = Users(sem: Sem, holders: set<Pid>)

  datatype Call = Enter(p: Pid) | Leave(p: Pid)

  predicate Fair(u: Users, c: Call) {
    match c
    case Enter(p) => p !in u.holders && p !in u.sem.waiters
    case Leave(p) => p in u.holders
  }

  /** The holders after a call: who entered without waiting, and whom a signal let in. */
  function AfterCall(u: Users, c: Call): Users {
    match c
    case Enter(p) =>
      Users(u.sem.Wait(p), if u.sem.count > 0 then u.holders + {p} else u.holders)
    case Leave(p) =>
      var s := u.sem.Signal();
      Users(s, (u.holders - {p}) + if |s.waiters| < |u.sem.waiters| then {u.sem.waiters[0]} else {})
  }

  ghost predicate FairRun(u: Users, calls: seq<Call>)
    decreases |calls|
  {
    calls == [] || (Fair(u, calls[0]) && FairRun(AfterCall(u, calls[0]), calls[1..]))
  }

  function RunCalls(u: Users, calls: seq<Call>): Users
    decreases |calls|
  {
    if calls == [] then u else RunCalls(AfterCall(u, calls[0]), calls[1..])
  }

  ghost predicate UsersGood(u: Users) {
    && u.sem.Conserved()
    && |u.holders| == u.sem.Outstanding()
    && (forall i :: 0 <= i < |u.sem.waiters| ==> u.sem.waiters[i] !in u.holders)
    && (forall i, j :: 0 <= i < j < |u.sem.waiters| ==> u.sem.waiters[i] != u.sem.waiters[j])
  }

  lemma EnterKeepsUsers(u: Users, p: Pid)
    requires UsersGood(u) && Fair(u, Enter(p))
    ensures UsersGood(AfterCall(u, Enter(p)))
  {
    hide Sem.Conserved;
    EventConserves(u.sem, Event.Wait(p));
    WaitCounts(u.sem, p);
  }

  lemma WaitCounts(s: Sem, p: Pid)
    requires s.Conserved()
    ensures var t := s.Wait(p);
            if s.count > 0 then t.waiters == s.waiters && t.Outstanding() == s.Outstanding() + 1
            else t.waiters == s.waiters + [p] && t.Outstanding() == s.Outstanding()
  {
  }

  lemma LeaveKeepsUsers(u: Users, p: Pid)
    requires UsersGood(u) && Fair(u, Leave(p))
    ensures UsersGood(AfterCall(u, Leave(p)))
  {
    hide Sem.Conserved, Sem.Signal;
    EventConserves(u.sem, Event.Signal);
    assert |u.holders - {p}| == |u.holders| - 1;
    SignalCounts(u.sem);
  }

  lemma SignalCounts(s: Sem)
    requires s.Conserved() && s.Outstanding() > 0
    ensures var t := s.Signal();
            if s.waiters == [] then t.waiters == [] && t.Outstanding() == s.Outstanding() - 1
            else t.waiters == s.waiters[1..] && t.Outstanding() == s.Outstanding()
  {
  }

  lemma CallKeepsUsers(u: Users, c: Call)
    requires UsersGood(u) && Fair(u, c)
    ensures UsersGood(AfterCall(u, c)) && AfterCall(u, c).sem.initCount == u.sem.initCount
  {
    hide UsersGood;
    match c
    case Enter(p) => EnterKeepsUsers(u, p);
    case Leave(p) => LeaveKeepsUsers(u, p);
  }

  lemma {:induction false} FairRunKeepsUsers(u: Users, calls: seq<Call>)
    requires UsersGood(u) && FairRun(u, calls)
    ensures UsersGood(RunCalls(u, calls)) && RunCalls(u, calls).sem.initCount == u.sem.initCount
    decreases |calls|
  {
    if calls != [] {
      CallKeepsUsers(u, calls[0]);
      FairRunKeepsUsers(AfterCall(u, calls[0]), calls[1..]);
    }
  }

  /** At most `init_count` callers are between their wait and their signal, and nobody waits while
      there are fewer. */
  lemma MutualExclusion(c: int, calls: seq<Call>)
    requires c >= 0 && FairRun(Users(NewSem(c), {}), calls)
    ensures var u := RunCalls(Users(NewSem(c), {}), calls);
            && |u.holders| <= c
            && (u.sem.waiters != [] ==> |u.holders| == c)
  {
    FairRunKeepsUsers(Users(NewSem(c), {}), calls);
  }
}
