/** The kernel's event table: what its calls do to a sequence of numbered semaphores. */
module EventSpec {
  import opened Permits

  datatype Entry = Entry(num: int, sem: Sem)

  type Table = seq<Entry>

  function IndexOf(t: Table, n: int): (i: nat)
    ensures i <= |t| && (i < |t| ==> t[i].num == n)
    ensures forall j :: 0 <= j < i ==> t[j].num != n
  {
    if t == [] || t[0].num == n then 0 else 1 + IndexOf(t[1..], n)
  }

  lemma IndexIs(t: Table, n: int, i: nat)
    requires i <= |t| && (i < |t| ==> t[i].num == n)
    requires forall j :: 0 <= j < i ==> t[j].num != n
    ensures IndexOf(t, n) == i
  {
  }

  lemma SignalledIs(t: Table, n: int)
    requires Has(t, n)
    ensures |Signalled(t, n)| == |t| && Signalled(t, n)[IndexOf(t, n)].sem == t[IndexOf(t, n)].sem.Signal()
  {
  }

  lemma OneChanged(t: Table, i: nat, u: Table, e: Entry)
    requires i < |t| && |u| == |t| && u[i] == e
    requires forall j :: 0 <= j < |t| && j != i ==> u[j] == t[j]
    ensures u == t[i := e]
  {
  }

  predicate Has(t: Table, n: int) {
    IndexOf(t, n) < |t|
  }

  /** The first event of an empty table gets the number 2, whatever was asked for. */
  function Opened(t: Table, n: int, c: int): Table {
    if n == 0 || Has(t, n) then t
    else t + [Entry(if t == [] then 2 else n, NewSem(c))]
  }

  function Waited(t: Table, n: int, p: Pid): Table {
    var i := IndexOf(t, n);
    if i < |t| then t[i := Entry(n, t[i].sem.Wait(p))] else t
  }

  function Signalled(t: Table, n: int): Table {
    var i := IndexOf(t, n);
    if i < |t| then t[i := Entry(n, t[i].sem.Signal())] else t
  }

  function Closed(t: Table, n: int): Table {
    var i := IndexOf(t, n);
    if i < |t| then t[..i] + t[i + 1..] else t
  }

  predicate IsTail(t: Table, n: int) {
    IndexOf(t, n) == |t| - 1
  }

  datatype Call = OpenCall(n: int, c: int) | WaitCall(n: int, p: Pid) | SignalCall(n: int) | CloseCall(n: int)

  function AfterCall(t: Table, call: Call): Table {
    match call
    case OpenCall(n, c) => Opened(t, n, c)
    case WaitCall(n, p) => Waited(t, n, p)
    case SignalCall(n) => Signalled(t, n)
    case CloseCall(n) => Closed(t, n)
  }

  function AfterCalls(t: Table, calls: seq<Call>): Table
    decreases |calls|
  {
    if calls == [] then t else AfterCalls(AfterCall(t, calls[0]), calls[1..])
  }

  /** No call closes the event that is the last one of the table at that time. */
  ghost predicate TailStays(t: Table, calls: seq<Call>)
    decreases |calls|
  {
    calls == [] ||
    ((calls[0].CloseCall? ==> !IsTail(t, calls[0].n)) && TailStays(AfterCall(t, calls[0]), calls[1..]))
  }

  // ----- numbers -----

  predicate Distinct(t: Table) {
    forall i, j :: 0 <= i < j < |t| ==> t[i].num != t[j].num
  }

  lemma LongerIsDistinct(t: Table, x: Entry)
    requires Distinct(t) && !Has(t, x.num)
    ensures Distinct(t + [x])
  {
  }

  lemma CutIsDistinct(t: Table, i: nat)
    requires Distinct(t) && i < |t|
    ensures Distinct(t[..i] + t[i + 1..]) && !Has(t[..i] + t[i + 1..], t[i].num)
  {
    var u := t[..i] + t[i + 1..];
    assert forall k :: 0 <= k < |u| ==> u[k] == t[if k < i then k else k + 1];
  }

  function Numbers(t: Table): seq<int> {
    seq(|t|, i requires 0 <= i < |t| => t[i].num)
  }

  function Without(s: seq<int>, n: int): seq<int> {
    if s == [] then [] else (if s[0] == n then [] else [s[0]]) + Without(s[1..], n)
  }

  lemma {:induction false} WithoutAbsent(s: seq<int>, n: int)
    requires n !in s
    ensures Without(s, n) == s
  {
    if s != [] { WithoutAbsent(s[1..], n); }
  }

  lemma {:induction false} WithoutOne(a: seq<int>, n: int, b: seq<int>)
    requires n !in a && n !in b
    ensures Without(a + [n] + b, n) == a + b
  {
    if a == [] {
      WithoutAbsent(b, n);
      assert ([n] + b)[1..] == b && [] + [n] + b == [n] + b;
    } else {
      WithoutOne(a[1..], n, b);
      assert (a + [n] + b)[1..] == a[1..] + [n] + b;
    }
  }

  lemma HasIffIn(t: Table, n: int)
    ensures Has(t, n) <==> n in Numbers(t)
  {
    if Has(t, n) { assert Numbers(t)[IndexOf(t, n)] == n; }
  }

  lemma NumbersAfterClose(t: Table, n: int)
    requires Distinct(t)
    ensures Distinct(Closed(t, n)) && Numbers(Closed(t, n)) == Without(Numbers(t), n)
  {
    var s, i := Numbers(t), IndexOf(t, n);
    if i < |t| {
      CutIsDistinct(t, i);
      assert s == s[..i] + [n] + s[i + 1..];
      assert Numbers(Closed(t, n)) == s[..i] + s[i + 1..];
      WithoutOne(s[..i], n, s[i + 1..]);
    } else {
      WithoutAbsent(s, n);
    }
  }

  lemma NumbersAfterOpen(t: Table, n: int, c: int)
    requires Distinct(t)
    ensures Distinct(Opened(t, n, c))
    ensures Numbers(Opened(t, n, c))
            == if n == 0 || n in Numbers(t) then Numbers(t) else if t == [] then [2] else Numbers(t) + [n]
  {
    HasIffIn(t, n);
  }

  /** On the numbers, the calls append and delete. */
  lemma NumbersAfterCall(t: Table, call: Call)
    requires Distinct(t)
    ensures Distinct(AfterCall(t, call))
    ensures var s, r := Numbers(t), Numbers(AfterCall(t, call));
            match call
            case OpenCall(n, _) =>
              r == if n == 0 || n in s then s else if s == [] then [2] else s + [n]
            case CloseCall(n) => r == Without(s, n)
            case _ => r == s
  {
    match call
    case OpenCall(n, c) => NumbersAfterOpen(t, n, c);
    case CloseCall(n) => NumbersAfterClose(t, n);
    case _ =>
  }

  /** An open leaves the table with an event of the number asked for exactly when it is not the
      first: the first event is reachable under its own number only when that is 2. */
  lemma OpenGivesNumberIff(t: Table, n: int, c: int)
    requires n != 0
    ensures Has(Opened(t, n, c), n) <==> t != [] || n == 2
  {
    HasIffIn(t, n);
    HasIffIn(Opened(t, n, c), n);
    if t != [] && !Has(t, n) { assert Numbers(Opened(t, n, c))[|t|] == n; }
  }

  function Last(t: Table): int
    requires t != []
  {
    t[|t| - 1].num
  }

  lemma LastAfterCall(t: Table, call: Call)
    requires t != [] && (call.CloseCall? ==> !IsTail(t, call.n))
    ensures AfterCall(t, call) != []
    ensures Last(AfterCall(t, call)) == Last(t) || (call.OpenCall? && Last(AfterCall(t, call)) == call.n)
  {
  }

  /** While the tail stays, a table that has an event keeps one, and its last event is the one that
      was last or has the number of a later open: only the very first event is ever renumbered. */
  lemma {:induction false} NeverEmptyAgain(t: Table, calls: seq<Call>)
    requires t != [] && TailStays(t, calls)
    ensures AfterCalls(t, calls) != []
    ensures Last(AfterCalls(t, calls)) == Last(t)
            || exists call <- calls :: call.OpenCall? && Last(AfterCalls(t, calls)) == call.n
    decreases |calls|
  {
    if calls != [] {
      LastAfterCall(t, calls[0]);
      assert calls[0] in calls;
      NeverEmptyAgain(AfterCall(t, calls[0]), calls[1..]);
    }
  }

  // ----- semaphores -----

  /** The waits and signals that are meant for event n. */
  function Meant(calls: seq<Call>, n: int): seq<Event> {
    if calls == [] then []
    else
      var rest := Meant(calls[1..], n);
      match calls[0]
      case WaitCall(m, p) => if m == n then [Event.Wait(p)] + rest else rest
      case SignalCall(m) => if m == n then [Event.Signal] + rest else rest
      case _ => rest
  }

  lemma OtherCallsKeep(t: Table, call: Call, n: int)
    requires Has(t, n) && call != CloseCall(n)
    requires call.WaitCall? || call.SignalCall? ==> call.n != n
    ensures Has(AfterCall(t, call), n)
    ensures AfterCall(t, call)[IndexOf(AfterCall(t, call), n)] == t[IndexOf(t, n)]
  {
    var i, k, u := IndexOf(t, n), IndexOf(t, call.n), AfterCall(t, call);
    if call.CloseCall? && k < i {
      assert u[i - 1] == t[i];
      assert IndexOf(u, n) == i - 1;
    } else {
      assert u[i] == t[i];
      assert forall j :: 0 <= j < i ==> u[j].num == t[j].num;
      assert IndexOf(u, n) == i;
    }
  }

  lemma OwnCallSteps(t: Table, call: Call)
    requires Has(t, call.n) && (call.WaitCall? || call.SignalCall?)
    ensures Has(AfterCall(t, call), call.n)
    ensures AfterCall(t, call)[IndexOf(AfterCall(t, call), call.n)].sem
            == Exec(t[IndexOf(t, call.n)].sem, if call.WaitCall? then Event.Wait(call.p) else Event.Signal)
  {
    IndexIs(AfterCall(t, call), call.n, IndexOf(t, call.n));
  }

  /** Until it is closed, an event in the table goes through exactly the run that a semaphore on its
      own makes of the waits and signals meant for it, whatever is done with other events. */
  lemma {:induction false} EventsAreIndependent(t: Table, calls: seq<Call>, n: int)
    requires Has(t, n) && CloseCall(n) !in calls
    ensures var u := AfterCalls(t, calls);
            Has(u, n) && u[IndexOf(u, n)].sem == Run(t[IndexOf(t, n)].sem, Meant(calls, n))
    decreases |calls|
  {
    if calls != [] {
      var call, u := calls[0], AfterCall(t, calls[0]);
      if (call.WaitCall? || call.SignalCall?) && call.n == n {
        OwnCallSteps(t, call);
        assert Meant(calls, n)[1..] == Meant(calls[1..], n);
      } else {
        OtherCallsKeep(t, call, n);
      }
      EventsAreIndependent(u, calls[1..], n);
    }
  }

  /** An open of a new number leaves the other events alone and adds one with all its permits. */
  lemma OpenedEntry(t: Table, n: int, c: int)
    requires n != 0 && !Has(t, n)
    ensures var u := Opened(t, n, c);
            && |u| == |t| + 1 && u[..|t|] == t
            && var sem := u[|t|].sem;
               && sem.count == c && sem.initCount == c
               && sem.waiters == [] && sem.granted == 0 && sem.returned == 0
  {
  }

  /** Any open leaves the events alone that are there. */
  lemma OpenKeepsEntries(t: Table, n: int, c: int)
    ensures t <= Opened(t, n, c)
  {
  }

  /** What an event gives: once opened with count c, and until it is closed or signalled, it lets in the
      first c callers that wait for it and queues the others in order, whatever is done with other
      events in between. */
  lemma OpenGivesPermits(t: Table, n: int, c: nat, calls: seq<Call>, ps: seq<Pid>)
    requires (t != [] || n == 2) && n != 0 && !Has(t, n)
    requires CloseCall(n) !in calls && Meant(calls, n) == Waits(ps)
    ensures var u := AfterCalls(t, [OpenCall(n, c)] + calls);
            && Has(u, n)
            && var sem := u[IndexOf(u, n)].sem;
               && sem.granted == (if |ps| <= c then |ps| else c)
               && sem.waiters == (if |ps| <= c then [] else ps[c..])
  {
    var u := Opened(t, n, c);
    OpenedEntry(t, n, c);
    IndexIs(u, n, |t|);
    assert ([OpenCall(n, c)] + calls)[1..] == calls;
    EventsAreIndependent(u, calls, n);
    FirstAreLetIn(c, ps);
    assert u[|t|].sem == NewSem(c);
  }

  ghost predicate Good(t: Table) {
    && Distinct(t)
    && forall i :: 0 <= i < |t| ==> t[i].num != 0 && t[i].sem.Conserved()
  }

  lemma CallKeepsGood(t: Table, call: Call)
    requires Good(t) && (call.OpenCall? ==> call.c >= 0)
    ensures Good(AfterCall(t, call))
  {
    var u := AfterCall(t, call);
    NumbersAfterCall(t, call);
    forall i | 0 <= i < |u| ensures u[i].num != 0 && u[i].sem.Conserved() {
      if call.WaitCall? && Has(t, call.n) {
        EventConserves(t[IndexOf(t, call.n)].sem, Event.Wait(call.p));
      } else if call.SignalCall? && Has(t, call.n) {
        EventConserves(t[IndexOf(t, call.n)].sem, Event.Signal);
      }
    }
  }

  /** Over every run of calls on any number of events: the numbers stay distinct and permits are
      conserved in every event of the table. */
  lemma {:induction false} CallsKeepGood(t: Table, calls: seq<Call>)
    requires Good(t) && forall k :: 0 <= k < |calls| && calls[k].OpenCall? ==> calls[k].c >= 0
    ensures Good(AfterCalls(t, calls))
    decreases |calls|
  {
    if calls != [] {
      CallKeepsGood(t, calls[0]);
      CallsKeepGood(AfterCall(t, calls[0]), calls[1..]);
    }
  }

  // ----- who is woken by a close -----

  /** The semaphore of an event at the end of its close: only a signal for the tail still finds it. */
  function LeftBehind(t: Table, n: int): Sem
    requires Has(t, n)
  {
    var sem := t[IndexOf(t, n)].sem;
    if IsTail(t, n) then sem.Signal() else sem
  }

  /** A close is meant to wake who is blocked on the event.  It wakes them all exactly when there is
      nobody, or the event is the tail and there is only one. */
  lemma CloseWakesAllIff(t: Table, n: int)
    requires Good(t) && Has(t, n)
    ensures var waiters, left := t[IndexOf(t, n)].sem.waiters, LeftBehind(t, n).waiters;
            && (left == [] <==> waiters == [] || (IsTail(t, n) && |waiters| == 1))
            && left == if IsTail(t, n) && waiters != [] then waiters[1..] else waiters
  {
    var sem := t[IndexOf(t, n)].sem;
    assert sem.Conserved();
  }

  const STRANDING := [OpenCall(9, 0), OpenCall(5, 1)]

  /** The first open gets the number 2, whatever it asks for. */
  lemma TwoOpens()
    ensures AfterCalls([], STRANDING) == [Entry(2, NewSem(0)), Entry(5, NewSem(1))]
  {
    var t := [Entry(2, NewSem(0))];
    assert AfterCall([], OpenCall(9, 0)) == t;
    IndexIs(t, 5, 1);
    assert AfterCall(t, OpenCall(5, 1)) == t + [Entry(5, NewSem(1))];
    assert STRANDING[1..] == [OpenCall(5, 1)];
    assert AfterCalls(t, [OpenCall(5, 1)]) == AfterCalls(t + [Entry(5, NewSem(1))], []);
  }

  /** Two opens, a wait and a close strand a waiter. */
  lemma CloseStrandsWaiter(p: Pid)
    ensures var t := AfterCall(AfterCalls([], STRANDING), WaitCall(2, p));
            && Has(t, 2) && !IsTail(t, 2) && t[0].sem.Conserved()
            && LeftBehind(t, 2).waiters == [p]
  {
    TwoOpens();
    var u := [Entry(2, NewSem(0)), Entry(5, NewSem(1))];
    var t := AfterCall(u, WaitCall(2, p));
    IndexIs(u, 2, 0);
    IndexIs(t, 2, 0);
  }

  /** The table, and the closed events as their closes left them. */
  datatype World = World(table: Table, gone: Table)

  function WorldAfter(w: World, call: Call): World {
    World(AfterCall(w.table, call),
          if call.CloseCall? && Has(w.table, call.n) then w.gone + [Entry(call.n, LeftBehind(w.table, call.n))]
          else w.gone)
  }

  function WorldAfterAll(w: World, calls: seq<Call>): World
    decreases |calls|
  {
    if calls == [] then w else WorldAfterAll(WorldAfter(w, calls[0]), calls[1..])
  }

  /** Closed events stay as they are: who is stranded there is not woken by any later call. */
  lemma {:induction false} StrandedForever(w: World, calls: seq<Call>)
    ensures w.gone <= WorldAfterAll(w, calls).gone
    ensures WorldAfterAll(w, calls).table == AfterCalls(w.table, calls)
    decreases |calls|
  {
    if calls != [] {
      StrandedForever(WorldAfter(w, calls[0]), calls[1..]);
    }
  }

  ghost predicate NobodyStranded(w: World) {
    forall i :: 0 <= i < |w.gone| ==> w.gone[i].sem.waiters == []
  }

  /** Every close along the run finds nobody waiting. */
  ghost predicate ClosesFindNobody(t: Table, calls: seq<Call>)
    decreases |calls|
  {
    calls == []
    || ((calls[0].CloseCall? && Has(t, calls[0].n) ==> t[IndexOf(t, calls[0].n)].sem.waiters == [])
        && ClosesFindNobody(AfterCall(t, calls[0]), calls[1..]))
  }

  /** Over whole runs in which no close hits the tail: nobody is stranded exactly when every close
      finds nobody waiting. */
  lemma {:induction false} NobodyStrandedIff(w: World, calls: seq<Call>)
    requires NobodyStranded(w) && TailStays(w.table, calls)
    ensures NobodyStranded(WorldAfterAll(w, calls)) <==> ClosesFindNobody(w.table, calls)
    decreases |calls|
  {
    if calls != [] {
      var call, u := calls[0], WorldAfter(w, calls[0]);
      if call.CloseCall? && Has(w.table, call.n) && w.table[IndexOf(w.table, call.n)].sem.waiters != [] {
        StrandedForever(u, calls[1..]);
        assert u.gone[|w.gone|].sem.waiters != [];
      } else {
        NobodyStrandedIff(u, calls[1..]);
      }
    }
  }
}

/** The event table as the kernel keeps it: a list of nodes with a head and a tail pointer. */
module EventTable {
  import opened EventSpec

  class MyEvent {
    var eventNum: int
    var next: MyEvent?
    var count: int
    var initCount: int
    var waiters: seq<Permits.Pid>
    ghost var granted: nat
    ghost var returned: nat

    ghost function Sem(): Permits.Sem
      reads this`count, this`initCount, this`waiters, this`granted, this`returned
    {
      Permits.Sem.Sem(count, initCount, waiters, granted, returned)
    }

    ghost function Entry(): Entry
      reads this`eventNum, this`count, this`initCount, this`waiters, this`granted, this`returned
    {
      EventSpec.Entry.Entry(eventNum, Sem())
    }

    constructor (n: int, c: int)
      ensures eventNum == n && next == null && Sem() == Permits.NewSem(c)
    {
      eventNum, next, count, initCount, waiters := n, null, c, c, [];
      granted, returned := 0, 0;
    }

    method Wait(p: Permits.Pid) returns (r: WaitOutcome)
      modifies this`count, this`waiters, this`granted
      ensures Sem() == old(Sem()).Wait(p)
      ensures r == if old(count) > 0 then Granted else Queued
    {
      count := count - 1;
      if count < 0 {
        waiters := waiters + [p];
        r := Queued;
      } else {
        granted := granted + 1;
        r := Granted;
      }
    }

    method Signal() returns (r: int)
      modifies this`count, this`waiters, this`granted, this`returned
      ensures Sem() == old(Sem()).Signal()
      ensures r == if count <= 0 then eventNum else 0
    {
      if count + 1 <= initCount {
        count, returned := count + 1, returned + 1;
      }
      if count <= 0 {
        if waiters != [] {
          waiters, granted := waiters[1..], granted + 1;
        }
        return eventNum;
      }
      r := 0;
    }
  }

  ghost function TableOf(items: seq<MyEvent>): (t: Table)
    reads items`eventNum, items`count, items`initCount, items`waiters, items`granted, items`returned
    ensures |t| == |items| && forall i :: 0 <= i < |t| ==> t[i] == items[i].Entry()
  {
    if items == [] then [] else [items[0].Entry()] + TableOf(items[1..])
  }

  lemma TableWith(items: seq<MyEvent>, e: MyEvent)
    ensures TableOf(items + [e]) == TableOf(items) + [e.Entry()]
  {
    hide TableOf;
  }

  lemma TableWithout(items: seq<MyEvent>, i: nat)
    requires i < |items|
    ensures TableOf(items[..i] + items[i + 1..]) == TableOf(items)[..i] + TableOf(items)[i + 1..]
  {
    hide TableOf;
    var cut := items[..i] + items[i + 1..];
    var t, u := TableOf(items), TableOf(cut);
    forall k | 0 <= k < |cut| ensures u[k] == (t[..i] + t[i + 1..])[k] {
      var m := if k < i then k else k + 1;
      assert cut[k] == items[m] && (t[..i] + t[i + 1..])[k] == t[m];
    }
  }

  /** No two events have the same number. */
  ghost predicate Numbered(items: seq<MyEvent>)
    reads items`eventNum
  {
    forall i, j :: 0 <= i < j < |items| ==> items[i].eventNum != items[j].eventNum
  }

  lemma NumberedIsDistinct(items: seq<MyEvent>)
    ensures Numbered(items) <==> Distinct(TableOf(items))
  {
    hide TableOf;
    if Distinct(TableOf(items)) {
      forall i, j | 0 <= i < j < |items|
        ensures items[i].eventNum != items[j].eventNum
      {
        assert TableOf(items)[i].num != TableOf(items)[j].num;
      }
    }
  }

  ghost function At(items: seq<MyEvent>, i: int): MyEvent? {
    if 0 <= i < |items| then items[i] else null
  }

  datatype WaitOutcome = NoEvent | Granted | Queued

  lemma LinksWithout(was: seq<MyEvent>, i: nat)
    requires i < |was| - 1
    requires forall k {:trigger was[k].next} :: 0 <= k < |was| && k != i - 1 ==> was[k].next == At(was, k + 1)
    requires i > 0 ==> was[i - 1].next == At(was, i + 1)
    ensures var cut := was[..i] + was[i + 1..];
            && (forall k {:trigger cut[k].next} :: 0 <= k < |cut| ==> cut[k].next == At(cut, k + 1))
            && At(cut, 0) == At(was, if i == 0 then 1 else 0)
            && At(cut, |cut| - 1) == At(was, |was| - 1)
            && (forall k :: 0 <= k < |cut| ==> cut[k] == was[if k < i then k else k + 1])
  {
    var cut := was[..i] + was[i + 1..];
    forall k | 0 <= k < |cut| ensures cut[k].next == At(cut, k + 1) {
      if k < i { assert cut[k] == was[k]; } else { assert cut[k] == was[k + 1]; }
    }
  }

  lemma LinksWith(was: seq<MyEvent>, e: MyEvent)
    requires forall k {:trigger was[k].next} :: 0 <= k < |was| - 1 ==> was[k].next == At(was, k + 1)
    requires was != [] ==> was[|was| - 1].next == e
    requires e.next == null
    ensures var its := was + [e];
            && (forall k {:trigger its[k].next} :: 0 <= k < |its| ==> its[k].next == At(its, k + 1))
            && At(its, 0) == (if was == [] then e else was[0])
            && At(its, |its| - 1) == e
  {
    var its := was + [e];
    forall k | 0 <= k < |its| ensures its[k].next == At(its, k + 1) {
      assert k < |was| ==> its[k] == was[k];
    }
  }

  class EventList {
    var head: MyEvent?
    var end: MyEvent?
    ghost var items: seq<MyEvent>
    ghost var freed: seq<MyEvent>     // closed, in the order of their closes

    /** From the head, the links lead through these events and no others. */
    ghost predicate Chain(its: seq<MyEvent>)
      reads this`head, its`next, its`eventNum
    {
      && head == At(its, 0)
      && (forall i {:trigger its[i].next} :: 0 <= i < |its| ==> its[i].next == At(its, i + 1))
      && Numbered(its)
    }

    /** These are the events of the list, none of them freed, and the tail pointer is right. */
    ghost predicate IsList(its: seq<MyEvent>)
      reads this`head, this`end, this`freed, its`next, its`eventNum
    {
      && Chain(its)
      && end == At(its, |its| - 1)
      && Apart(its)
    }

    /** None of them has been freed. */
    ghost predicate Apart(its: seq<MyEvent>)
      reads this`freed
    {
      forall i :: 0 <= i < |its| ==> its[i] !in freed
    }

    ghost predicate Valid()
      reads this`head, this`end, this`freed, this`items, items`next, items`eventNum
    {
      IsList(items)
    }

    ghost function Abs(): Table
      reads this`items, items`eventNum, items`count, items`initCount, items`waiters, items`granted, items`returned
    {
      TableOf(items)
    }

    /** The closed events as they are now. */
    ghost function Gone(): Table
      reads this`freed, freed`eventNum, freed`count, freed`initCount, freed`waiters, freed`granted, freed`returned
    {
      TableOf(freed)
    }

    lemma FreedDiffer(i: nat)
      requires Apart(items) && i < |items|
      ensures forall j :: 0 <= j < |freed| ==> freed[j] != items[i]
    {
    }

    lemma {:induction false} ChainsAgree(a: seq<MyEvent>, b: seq<MyEvent>, k: nat)
      requires Chain(a) && Chain(b) && k <= |a|
      ensures k <= |b| && a[..k] == b[..k]
    {
      if k > 0 {
        ChainsAgree(a, b, k - 1);
        if k > 1 {
          assert a[k - 2] == a[..k - 1][k - 2] == b[..k - 1][k - 2] == b[k - 2];
          assert a[k - 2].next == At(a, k - 1) == At(b, k - 1);
        }
      }
    }

    /** A chain holds an event only once. */
    lemma OthersDiffer(i: nat)
      requires i < |items| && Chain(items)
      ensures forall j :: 0 <= j < |items| && j != i ==> items[j] != items[i]
    {
    }

    /** The links determine the events. */
    lemma OneChain(a: seq<MyEvent>, b: seq<MyEvent>)
      requires Chain(a) && Chain(b)
      ensures a == b
    {
      ChainsAgree(a, b, |a|);
      ChainsAgree(b, a, |b|);
    }

    /** With the tail pointer one event short, nothing is a list. */
    lemma TailIsLost()
      requires Chain(items) && items != [] && end == At(items, |items| - 2)
      ensures forall its :: !IsList(its)
    {
      hide TableOf, Numbered;
      forall its ensures !IsList(its) {
        if IsList(its) {
          OneChain(its, items);
          if |items| > 1 { OthersDiffer(|items| - 1); }
        }
      }
    }

    constructor ()
      ensures Valid() && items == [] && freed == []
    {
      head, end, items, freed := null, null, [], [];
    }

    /** The one event that waits and signals for number n can touch. */
    ghost function Target(n: int): set<MyEvent>
      reads this, items
    {
      if Has(Abs(), n) then {items[IndexOf(Abs(), n)]} else {}
    }

    /** `scheventNum`: the only event with that number, and the one before it. */
    method Find(n: int) returns (found: MyEvent?, prev: MyEvent?)
      requires Chain(items)
      ensures found == At(items, IndexOf(Abs(), n))
      ensures prev == At(items, IndexOf(Abs(), n) - 1)
      ensures found == null <==> forall e <- items :: e.eventNum != n
      ensures found != null ==> forall e <- items :: e.eventNum == n <==> e == found
    {
      hide TableOf, IndexOf;
      var tmp := head;
      prev := null;
      ghost var i := 0;
      while tmp != null && tmp.eventNum != n
        invariant 0 <= i <= |items| && tmp == At(items, i) && prev == At(items, i - 1)
        invariant forall j :: 0 <= j < i ==> items[j].eventNum != n
        decreases |items| - i
      {
        prev := tmp;
        tmp := tmp.next;
        i := i + 1;
      }
      found := tmp;
      IndexIs(Abs(), n, i);
    }

    method Append(e: MyEvent)
      requires Valid() && e.next == null && e !in items && e !in freed && !Has(Abs(), e.eventNum)
      modifies this`head, this`end, this`items, items`next
      ensures Valid() && items == old(items) + [e] && freed == old(freed) && Gone() == old(Gone())
      ensures Abs() == old(Abs()) + [old(e.Entry())]
    {
      hide TableOf, IndexOf, Distinct, Numbered;
      TableWith(items, e);
      NumberedIsDistinct(items);
      LongerIsDistinct(Abs(), e.Entry());
      NumberedIsDistinct(items + [e]);
      if head == null {
        head, end := e, e;
      } else {
        OthersDiffer(|items| - 1);
        end.next := e;
        end := e;
      }
      LinksWith(items, e);
      items := items + [e];
    }

    /** `myevent_open`. For the number 0 the C code returns a variable it never set: `undefined`. */
    method Open(n: int, c: int, undefined: int) returns (r: int)
      requires Valid()
      modifies this, items
      ensures Valid() && freed == old(freed) && Gone() == old(Gone())
      ensures Abs() == Opened(old(Abs()), n, c)
      ensures n == 0 || Has(old(Abs()), n) ==> items == old(items)
      ensures n != 0 && !Has(old(Abs()), n) ==>
                exists e :: fresh(e) && items == old(items) + [e]
      ensures r == if n == 0 then undefined
                   else if Has(old(Abs()), n) then 0
                   else if old(items) == [] then 2 else n
    {
      hide TableOf, IndexOf, Distinct;
      if n == 0 {
        return undefined;
      }
      var found, _ := Find(n);
      if found != null {
        return 0;
      }
      var e := new MyEvent(if head == null then 2 else n, c);
      Append(e);
      r := e.eventNum;
    }

    /** `myevent_wait`, up to the point where the caller sleeps. */
    method Wait(n: int, p: Permits.Pid) returns (r: WaitOutcome)
      requires Valid()
      modifies Target(n)`count, Target(n)`waiters, Target(n)`granted, Target(n)`returned
      ensures Valid() && Gone() == old(Gone()) && Abs() == Waited(old(Abs()), n, p)
      ensures r.NoEvent? <==> !Has(old(Abs()), n)
      ensures r.Granted? <==> Has(old(Abs()), n) && old(Abs())[IndexOf(old(Abs()), n)].sem.count > 0
    {
      hide TableOf, IndexOf, Numbered, Chain, Apart, At;
      var e, _ := Find(n);
      if e == null {
        return NoEvent;
      }
      ghost var t, i := Abs(), IndexOf(Abs(), n);
      OthersDiffer(i);
      FreedDiffer(i);
      r := e.Wait(p);
      OneChanged(t, i, Abs(), e.Entry());
    }

    /** `myevent_signal`. It follows the links only, and does not need the tail pointer. */
    method Signal(n: int) returns (r: int)
      requires Chain(items) && Apart(items)
      modifies Target(n)`count, Target(n)`waiters, Target(n)`granted, Target(n)`returned
      ensures Chain(items) && Apart(items) && Gone() == old(Gone()) && Abs() == Signalled(old(Abs()), n)
      ensures old(Valid()) ==> Valid()
      ensures r == if Has(Abs(), n) && Abs()[IndexOf(Abs(), n)].sem.count <= 0 then n else 0
    {
      hide TableOf, IndexOf, Numbered, Chain, Apart, At;
      var e, _ := Find(n);
      if e == null {
        return 0;
      }
      ghost var t, i := Abs(), IndexOf(Abs(), n);
      OthersDiffer(i);
      FreedDiffer(i);
      r := e.Signal();
      OneChanged(t, i, Abs(), e.Entry());
      IndexIs(Abs(), n, i);
    }

    /** Takes an event other than the last out of the list. */
    method Unlink(e: MyEvent, prev: MyEvent?, ghost i: nat)
      requires Valid() && i < |items| - 1 && e == items[i] && prev == At(items, i - 1)
      modifies this`head, this`items, items`next
      ensures Valid() && items == old(items)[..i] + old(items)[i + 1..]
      ensures Abs() == old(Abs())[..i] + old(Abs())[i + 1..]
      ensures e !in items
    {
      hide TableOf, IndexOf, Distinct, Has, Numbered;
      ghost var was, t := items, Abs();
      NumberedIsDistinct(was);
      OthersDiffer(i);
      if i > 0 { OthersDiffer(i - 1); }
      if e == head {
        head := head.next;
      } else {
        prev.next := e.next;
      }
      items := was[..i] + was[i + 1..];
      LinksWithout(was, i);
      TableWithout(was, i);
      CutIsDistinct(t, i);
      NumberedIsDistinct(items);
    }

    /** `kfree`. */
    method Free(e: MyEvent)
      modifies this`freed
      ensures freed == old(freed) + [e] && Gone() == old(Gone()) + [e.Entry()]
      ensures e !in items && old(Apart(items)) ==> Apart(items)
    {
      TableWith(freed, e);
      freed := freed + [e];
    }

    /** Frees the last event: only the tail pointer moves, the links still lead to the event, and
        the signal still finds it. */
    method DropTail(e: MyEvent, prev: MyEvent?)
      requires Valid() && e == end && prev == At(items, |items| - 2)
      modifies this`end, this`freed, items`count, items`waiters, items`granted, items`returned
      ensures Chain(items) && items == old(items) && end == prev
      ensures Abs() == Signalled(old(Abs()), e.eventNum)
      ensures freed == old(freed) + [e] && Gone() == old(Gone()) + [e.Entry()]
    {
      hide TableOf, IndexOf, Distinct, Chain, Apart, Signalled, Has;
      EndIsItem();
      end := prev;
      var _ := Signal(e.eventNum);
      Free(e);
    }

    lemma EndIsItem()
      requires Valid() && end != null
      ensures end in items
    {
    }

    method DropInner(e: MyEvent, prev: MyEvent?, ghost i: nat)
      requires Valid() && i < |items| - 1 && e == items[i] && prev == At(items, i - 1)
      modifies this`head, this`items, this`freed, items`next
      ensures Valid() && items == old(items)[..i] + old(items)[i + 1..]
      ensures Abs() == old(Abs())[..i] + old(Abs())[i + 1..]
      ensures freed == old(freed) + [e] && Gone() == old(Gone()) + [e.Entry()]
    {
      hide TableOf, IndexOf, Distinct, Chain, Apart, Has, Target, Signalled, At;
      DistinctIs();
      CutIsDistinct(Abs(), i);
      Unlink(e, prev, i);
      var _ := SignalMisses(e.eventNum);
      Free(e);
    }

    /** A signal that finds no event changes nothing. */
    method SignalMisses(n: int) returns (r: int)
      requires Chain(items) && Apart(items) && !Has(Abs(), n)
      ensures r == 0
    {
      hide TableOf, IndexOf, Distinct, Chain, Apart, Has, Target, Signalled, At;
      NoTarget(n);
      r := Signal(n);
    }

    lemma NoTarget(n: int)
      requires !Has(Abs(), n)
      ensures Target(n) == {} && Signalled(Abs(), n) == Abs()
    {
    }

    lemma DistinctIs()
      requires Valid()
      ensures Distinct(Abs())
    {
      NumberedIsDistinct(items);
    }

    /** Drops event i of the list. */
    method Drop(e: MyEvent, prev: MyEvent?, ghost i: nat)
      requires Valid() && i < |items| && e == items[i] && prev == At(items, i - 1)
      modifies this, items`next, items`count, items`waiters, items`granted, items`returned
      ensures freed == old(freed) + [e] && Gone() == old(Gone()) + [e.Entry()]
      ensures i < |old(items)| - 1 ==>
                && Valid() && items == old(items)[..i] + old(items)[i + 1..]
                && Abs() == old(Abs())[..i] + old(Abs())[i + 1..]
                && forall j :: 0 <= j < |old(items)| ==> old(items)[j].Sem() == old(items[j].Sem())
      ensures i == |old(items)| - 1 ==>
                && Chain(items) && items == old(items) && end == prev
                && Abs() == Signalled(old(Abs()), e.eventNum)
      ensures forall j :: 0 <= j < |items| ==> items[j] in old(items)
      ensures (exists its :: IsList(its)) <==> i < |old(items)| - 1
    {
      hide TableOf, IndexOf, Distinct, Signalled, Numbered, Chain, IsList, Apart, Has;
      ValidIsList();
      EndIff(i);
      if e == end {
        DropTail(e, prev);
        TailIsLost();
      } else {
        DropInner(e, prev, i);
        ValidIsList();
      }
    }

    /** `myevent_close`. An event other than the last leaves the list, and nobody who waits for it is
        woken, since the signal that should wake them no longer finds it. The last event is freed
        while the links still lead to it, and no list is left. */
    method Close(n: int) returns (r: int)
      requires Valid()
      modifies this, items`next, items`count, items`waiters, items`granted, items`returned
      ensures r == if Has(old(Abs()), n) then n else 0
      ensures freed == old(freed) + (if Has(old(Abs()), n) then [old(items)[IndexOf(old(Abs()), n)]] else [])
      ensures Gone() == old(Gone())
              + (if Has(old(Abs()), n) then [EventSpec.Entry.Entry(n, LeftBehind(old(Abs()), n))] else [])
      ensures !IsTail(old(Abs()), n) ==> Valid() && Abs() == Closed(old(Abs()), n)
      ensures forall j :: 0 <= j < |items| ==> items[j] in old(items)
      ensures !IsTail(old(Abs()), n) ==>
                forall j :: 0 <= j < |old(items)| ==> old(items)[j].Sem() == old(items[j].Sem())
      ensures IsTail(old(Abs()), n) ==>
                && Chain(items) && items == old(items) && end == At(items, |items| - 2)
                && Abs() == Signalled(old(Abs()), n)
      ensures (exists its :: IsList(its)) <==> !IsTail(old(Abs()), n)
    {
      hide TableOf, IndexOf, Distinct, Signalled, Numbered, Valid, Chain, IsList, Apart;
      ghost var t, gone, i := Abs(), Gone(), IndexOf(Abs(), n);
      ValidIsList();
      var e, prev := Find(n);
      assert Abs() == t && Gone() == gone;
      if e == null {
        ValidIsList();
        return 0;
      }
      Drop(e, prev, i);
      SignalledIs(t, n);
      assert e.Entry() == if i == |t| - 1 then Abs()[i] else t[i];
      r := n;
    }

    lemma ValidIsList()
      requires Valid()
      ensures IsList(items) && Chain(items)
    {
    }

    lemma EndIff(i: nat)
      requires Valid() && i < |items|
      ensures items[i] == end <==> i == |items| - 1
    {
      OthersDiffer(i);
    }

    method Step(call: Call, undefined: int)
      requires Valid() && (call.CloseCall? ==> !IsTail(Abs(), call.n))
      modifies this, items
      ensures Valid() && Abs() == AfterCall(old(Abs()), call)
      ensures World(Abs(), Gone()) == WorldAfter(World(old(Abs()), old(Gone())), call)
      ensures forall j :: 0 <= j < |items| ==> items[j] in old(items) || fresh(items[j])
    {
      hide TableOf, IndexOf, Distinct;
      match call
      case OpenCall(n, c) => var _ := Open(n, c, undefined);
      case WaitCall(n, p) => var _ := Wait(n, p);
      case SignalCall(n) => var _ := Signal(n);
      case CloseCall(n) => var _ := Close(n);
    }

    /** Any run of calls in which no close hits the tail. */
    method Serve(calls: seq<Call>, undefined: int)
      requires Valid() && TailStays(Abs(), calls)
      modifies this, items
      ensures Valid() && Abs() == AfterCalls(old(Abs()), calls)
      ensures Gone() == WorldAfterAll(World(old(Abs()), old(Gone())), calls).gone
    {
      hide TableOf, IndexOf, Distinct, IsTail, AfterCall, WorldAfter;
      var k := 0;
      while k < |calls|
        invariant 0 <= k <= |calls| && Valid()
        invariant forall i :: 0 <= i < |items| ==> items[i] in old(items) || fresh(items[i])
        invariant TailStays(Abs(), calls[k..])
        invariant AfterCalls(Abs(), calls[k..]) == AfterCalls(old(Abs()), calls)
        invariant WorldAfterAll(World(Abs(), Gone()), calls[k..])
                  == WorldAfterAll(World(old(Abs()), old(Gone())), calls)
      {
        assert calls[k..][1..] == calls[k + 1..];
        ghost var was := items;
        Step(calls[k], undefined);
        forall i | 0 <= i < |items| ensures items[i] in old(items) || fresh(items[i]) {
          assert items[i] in items;
          if items[i] in was {
            var j :| 0 <= j < |was| && was[j] == items[i];
          }
        }
        k := k + 1;
      }
    }
  }
}
