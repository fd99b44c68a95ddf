/** Who may open an access-controlled device, and the device that turns everybody else away. */
module OpenPolicy {
  import opened Common

  type Uid = nat
  type Fid = nat

  /** The identity of the caller; `root` is CAP_DAC_OVERRIDE. */
  datatype Cred = Cred(uid: Uid, euid: Uid, root: bool)

  /** The count and the owner the driver keeps, and the files that are open. */
  datatype Gate = Gate(count: int, owner: Uid, holders: map<Fid, Cred>) {

    /** `scull_w_available`; the test of `scull_u_open` is its negation. */
    predicate Available(c: Cred) {
      count == 0 || owner == c.uid || owner == c.euid || c.root
    }

    /** An open that is let in: the first one owns the device. */
    function Admit(f: Fid, c: Cred): Gate {
      Gate(count + 1, if count == 0 then c.uid else owner, holders[f := c])
    }

    /** A release: the owner is left as it is. */
    function Leave(f: Fid): Gate {
      Gate(count - 1, owner, holders - {f})
    }

    /** The count counts the open files, and whoever has one open is the owner, by either of its
        user ids, or root. */
    ghost predicate Valid() {
      && count == |holders|
      && forall f :: f in holders ==> Owns(holders[f])
    }

    predicate Owns(c: Cred) {
      owner == c.uid || owner == c.euid || c.root
    }
  }

  lemma AdmitKeeps(g: Gate, f: Fid, c: Cred)
    requires g.Valid() && f !in g.holders && g.Available(c)
    ensures g.Admit(f, c).Valid()
  {
    if g.count == 0 {
      assert g.holders == map[];
    }
    assert g.Admit(f, c).holders.Keys == g.holders.Keys + {f};
  }

  lemma LeaveKeeps(g: Gate, f: Fid)
    requires g.Valid() && f in g.holders
    ensures g.Leave(f).Valid()
  {
    assert (g.holders - {f}).Keys == g.holders.Keys - {f};
  }

  /** Two ordinary users who both have the device open act for the same user. */
  lemma HoldersShareAUser(g: Gate, f: Fid, f': Fid)
    requires g.Valid() && f in g.holders && f' in g.holders
    requires !g.holders[f].root && !g.holders[f'].root
    ensures {g.holders[f].uid, g.holders[f].euid} * {g.holders[f'].uid, g.holders[f'].euid} != {}
  {
    assert g.owner in {g.holders[f].uid, g.holders[f].euid} * {g.holders[f'].uid, g.holders[f'].euid};
  }

  // ----- who is let in -----

  /** A file is opened by a caller, or released. */
  datatype Access = Enter(f: Fid, c: Cred) | Exit(f: Fid)

  /** The files open after a history, told from the history alone. */
  function OpenFiles(h: seq<Access>): set<Fid> {
    if h == [] then {}
    else
      match h[|h| - 1]
      case Enter(f, _) => OpenFiles(h[..|h| - 1]) + {f}
      case Exit(f) => OpenFiles(h[..|h| - 1]) - {f}
  }

  /** The real user id of who opened the device last when nobody had it open. */
  function FirstUser(h: seq<Access>): Option<Uid> {
    if h == [] then None
    else if h[|h| - 1].Enter? && OpenFiles(h[..|h| - 1]) == {} then Some(h[|h| - 1].c.uid)
    else FirstUser(h[..|h| - 1])
  }

  /** The gate after a history. */
  function GateAfter(h: seq<Access>): Gate {
    if h == [] then Gate(0, 0, map[])
    else
      match h[|h| - 1]
      case Enter(f, c) => GateAfter(h[..|h| - 1]).Admit(f, c)
      case Exit(f) => GateAfter(h[..|h| - 1]).Leave(f)
  }

  /** Files are opened only by whom the test lets in, and released only while open. */
  ghost predicate IsHistory(h: seq<Access>) {
    h == [] ||
    (&& IsHistory(h[..|h| - 1])
     && match h[|h| - 1]
        case Enter(f, c) => f !in OpenFiles(h[..|h| - 1]) && GateAfter(h[..|h| - 1]).Available(c)
        case Exit(f) => f in OpenFiles(h[..|h| - 1]))
  }

  lemma {:induction false} GateTellsHistory(h: seq<Access>)
    requires IsHistory(h)
    ensures GateAfter(h).Valid() && GateAfter(h).holders.Keys == OpenFiles(h)
    ensures OpenFiles(h) != {} ==> FirstUser(h).Some?
    ensures FirstUser(h).Some? ==> GateAfter(h).owner == FirstUser(h).value
  {
    if h != [] {
      var before := h[..|h| - 1];
      GateTellsHistory(before);
      match h[|h| - 1]
      case Enter(f, c) =>
        AdmitKeeps(GateAfter(before), f, c);
        NobodyIn(GateAfter(before));
      case Exit(f) =>
        LeaveKeeps(GateAfter(before), f);
        assert GateAfter(h).holders.Keys == GateAfter(before).holders.Keys - {f};
    }
  }

  lemma HistoryGrows(h: seq<Access>, a: Access)
    requires IsHistory(h)
    requires if a.Enter? then a.f !in GateAfter(h).holders && GateAfter(h).Available(a.c)
             else a.f in GateAfter(h).holders
    ensures IsHistory(h + [a])
    ensures GateAfter(h + [a]) == if a.Enter? then GateAfter(h).Admit(a.f, a.c) else GateAfter(h).Leave(a.f)
  {
    hide Gate.Available, Gate.Admit, Gate.Leave, Gate.Valid;
    GateTellsHistory(h);
    assert (h + [a])[..|h + [a]| - 1] == h;
  }

  lemma NobodyIn(g: Gate)
    requires g.Valid()
    ensures g.count == 0 <==> g.holders.Keys == {}
  {
    assert |g.holders| == |g.holders.Keys|;
  }

  /** Nobody has the device open, or the caller is root, or who opened it first since it was last free
      has the caller's real or effective user id as its real one. */
  predicate LetsIn(h: seq<Access>, c: Cred) {
    OpenFiles(h) == {} || c.root || (FirstUser(h).Some? && FirstUser(h).value in {c.uid, c.euid})
  }

  /** Over every history of opens and releases the test lets in exactly those. */
  lemma AdmittedIff(h: seq<Access>, c: Cred)
    requires IsHistory(h)
    ensures GateAfter(h).Available(c) <==> LetsIn(h, c)
  {
    GateTellsHistory(h);
    NobodyIn(GateAfter(h));
  }

  /** The device of `scull_u_open` and `scull_u_release`; each is one critical section. */
  class UidDevice {
    var count: int
    var owner: Uid
    ghost var history: seq<Access>

    /** The gate as the fields have it, and the files its history has left open. */
    ghost function Abs(): Gate
      reads this
    {
      Gate(count, owner, GateAfter(history).holders)
    }

    ghost predicate Valid()
      reads this
    {
      IsHistory(history) && Abs() == GateAfter(history)
    }

    constructor ()
      ensures Valid() && history == []
    {
      count, owner, history := 0, 0, [];
    }

    /** Lets in exactly those whom the history lets in. */
    method Open(c: Cred, ghost f: Fid) returns (r: Outcome)
      requires Valid() && f !in OpenFiles(history)
      modifies this
      ensures Valid()
      ensures r == if LetsIn(old(history), c) then Done(0) else Failed(EBUSY)
      ensures history == if r.Done? then old(history) + [Enter(f, c)] else old(history)
      ensures Abs() == if r.Done? then old(Abs()).Admit(f, c) else old(Abs())
    {
      hide IsHistory, GateAfter, LetsIn, OpenFiles, FirstUser, Gate.Valid;
      AdmittedIff(history, c);
      GateTellsHistory(history);
      if count != 0 && owner != c.uid && owner != c.euid && !c.root {
        return Failed(EBUSY);
      }
      if count == 0 {
        owner := c.uid;
      }
      count := count + 1;
      HistoryGrows(history, Enter(f, c));
      history := history + [Enter(f, c)];
      return Done(0);
    }

    method Release(ghost f: Fid)
      requires Valid() && f in OpenFiles(history)
      modifies this
      ensures Valid() && history == old(history) + [Exit(f)] && Abs() == old(Abs()).Leave(f)
    {
      hide IsHistory, GateAfter, OpenFiles, Gate.Valid;
      GateTellsHistory(history);
      HistoryGrows(history, Exit(f));
      count := count - 1;
      history := history + [Exit(f)];
    }
  }
}
