/** Runs of the block driver over values: any number of devices under one configured geometry. */
module DriverSpec {
  import opened Common
  import opened Geometry
  import opened StoreSpec

  const SCULL_QUANTUM := 4000
  const SCULL_QSET := 1000

  /** The module parameters that `scull_ioctl` changes. */
  datatype Globals = Globals(quantum: int, qset: int, pipeSize: int) {
    function Get(p: Param): int {
      if p.Quantum? then quantum else qset
    }

    function With(p: Param, v: int): Globals {
      if p.Quantum? then this.(quantum := v) else this.(qset := v)
    }
  }

  datatype Param = Quantum | Qset

  /** The commands; `user` is what user memory holds, if it can be read. */
  datatype Command =
    | Reset
    | Set(p: Param, user: Option<int>)
    | Tell(p: Param, arg: int)
    | Get(p: Param, writable: bool)
    | Query(p: Param)
    | Exchange(p: Param, user: Option<int>, writable: bool)
    | Shift(p: Param, arg: int)
    | TellPipe(arg: int)
    | QueryPipe

  /** What comes back: a value; or 0, with a value copied to user memory; or an error. */
  datatype IoctlResult = Value(v: int) | Copied(v: int) | Error(errno: Errno)

  /** Only the administrator may set, tell, exchange or shift. */
  predicate NeedsAdmin(c: Command) {
    c.Set? || c.Tell? || c.Exchange? || c.Shift?
  }

  function GlobalsAfter(g: Globals, c: Command, admin: bool): Globals {
    if NeedsAdmin(c) && !admin then g
    else match c
      case Reset => g.(quantum := SCULL_QUANTUM, qset := SCULL_QSET)
      case Set(p, user) => if user.Some? then g.With(p, user.value) else g
      case Tell(p, arg) => g.With(p, AsInt(arg))
      case Exchange(p, user, _) => if user.Some? then g.With(p, user.value) else g
      case Shift(p, arg) => g.With(p, AsInt(arg))
      case TellPipe(arg) => g.(pipeSize := AsInt(arg))
      case Get(_, _) | Query(_) | QueryPipe => g
  }

  function IoctlOutcome(g: Globals, c: Command, admin: bool): IoctlResult {
    if NeedsAdmin(c) && !admin then Error(EPERM)
    else match c
      case Reset | Tell(_, _) | TellPipe(_) => Value(0)
      case Set(_, user) => if user.Some? then Value(0) else Error(EFAULT)
      case Get(p, writable) => if writable then Copied(g.Get(p)) else Error(EFAULT)
      case Query(p) => Value(g.Get(p))
      case Exchange(p, user, writable) => if user.Some? && writable then Copied(g.Get(p)) else Error(EFAULT)
      case Shift(p, _) => Value(g.Get(p))
      case QueryPipe => Value(g.pipeSize)
  }

  datatype DriverState = DriverState(g: Globals, stores: seq<Store>)

  /** One call, with what came back. */
  datatype Event =
    | Ioctl(c: Command, admin: bool, result: IoctlResult)
    | Open(dev: nat, writeOnly: bool)
    | Read(dev: nat, pos: nat, count: nat, room: nat, rr: Outcome, out: seq<Byte>)
    | Write(dev: nat, pos: nat, data: seq<Byte>, copied: nat, pad: seq<Byte>, wr: Outcome)

  predicate Trims(e: Event, i: nat) {
    e.Open? && e.writeOnly && e.dev == i
  }

  ghost predicate Next(s: DriverState, e: Event, s': DriverState) {
    match e
    case Ioctl(c, admin, result) => s' == s.(g := GlobalsAfter(s.g, c, admin)) && result == IoctlOutcome(s.g, c, admin)
    case Open(i, writeOnly) =>
      && i < |s.stores|
      && s' == if writeOnly then s.(stores := s.stores[i := Store(s.g.quantum, s.g.qset, 0, 0, map[])]) else s
    case Read(i, pos, count, room, r, out) =>
      && i < |s.stores| && (pos < s.stores[i].size ==> s.stores[i].quantum > 0)
      && s' == s
      && ReadStep(s.stores[i], pos, count, room, r, out)
    case Write(i, pos, data, copied, pad, r) =>
      && i < |s.stores| == |s'.stores| && s.stores[i].quantum > 0
      && s' == s.(stores := s.stores[i := s'.stores[i]])
      && WriteStep(s.stores[i], pos, data, copied, pad, r, s'.stores[i])
  }

  ghost predicate IsRun(states: seq<DriverState>, events: seq<Event>) {
    && |states| == |events| + 1
    && forall k :: 0 <= k < |events| ==> Next(states[k], events[k], states[k + 1])
  }

  lemma RunPrefix(states: seq<DriverState>, events: seq<Event>)
    requires events != [] && IsRun(states, events)
    ensures |states| == |events| + 1 && IsRun(states[..|events|], events[..|events| - 1])
    ensures Next(states[|events| - 1], events[|events| - 1], states[|events|])
  {
  }

  /** What a write has put into the device: all it accepted, or what was copied before the fault and
      what the fault left behind it. */
  function Accepted(data: seq<Byte>, copied: nat, pad: seq<Byte>, r: Outcome): seq<Byte> {
    match r
    case Done(n) => if n <= |data| then data[..n] else []
    case Failed(EFAULT) => if copied <= |data| then data[..copied] + pad else []
    case Failed(_) => []
  }

  predicate Within(off: nat, pos: nat, n: nat) {
    pos <= off < pos + n
  }

  /** A byte map with `bytes` laid over it at pos. */
  function Overlay(m: map<nat, Byte>, pos: nat, bytes: seq<Byte>): map<nat, Byte> {
    m + map off: nat | off < pos + |bytes| && Within(off, pos, |bytes|) :: bytes[off - pos]
  }

  /** The sparse byte map that device i is meant to be, from the bytes it starts with. */
  function Written(m: map<nat, Byte>, events: seq<Event>, i: nat): map<nat, Byte>
    decreases |events|
  {
    if events == [] then m
    else
      var before, e := Written(m, events[..|events| - 1], i), events[|events| - 1];
      if Trims(e, i) then map[]
      else if e.Write? && e.dev == i then Overlay(before, e.pos, Accepted(e.data, e.copied, e.pad, e.wr))
      else before
  }

  /** Every byte of the map is stored at its offset. */
  ghost predicate Contains(s: Store, m: map<nat, Byte>) {
    forall off :: off in m ==> HasByte(s.cells, off, m[off])
  }

  lemma OverlayAt(m: map<nat, Byte>, pos: nat, bytes: seq<Byte>, off: nat)
    ensures off in Overlay(m, pos, bytes) <==> off in m || Within(off, pos, |bytes|)
    ensures off in Overlay(m, pos, bytes) ==>
              Overlay(m, pos, bytes)[off] == if Within(off, pos, |bytes|) then bytes[off - pos] else m[off]
  {
  }

  lemma StoredKeepsMap(s: Store, m: map<nat, Byte>, pos: nat, bytes: seq<Byte>, s': Store)
    requires s.quantum > 0 && Stored(s, pos, bytes, s') && Contains(s, m)
    ensures Contains(s', Overlay(m, pos, bytes))
  {
    hide Overlay, Together;
    forall off | off in Overlay(m, pos, bytes)
      ensures HasByte(s'.cells, off, Overlay(m, pos, bytes)[off])
    {
      OverlayAt(m, pos, bytes, off);
      assert off in m ==> HasByte(s.cells, off, m[off]);
    }
  }

  lemma WriteKeepsMap(s: Store, m: map<nat, Byte>, pos: nat, data: seq<Byte>, copied: nat, pad: seq<Byte>,
                      r: Outcome, s': Store)
    requires s.quantum > 0 && WriteStep(s, pos, data, copied, pad, r, s') && Contains(s, m)
    ensures Contains(s', Overlay(m, pos, Accepted(data, copied, pad, r)))
  {
    hide Overlay, Stored, Contains;
    if r == Failed(ENOMEM) {
      NothingKeepsMap(s, m, pos, s');
    } else {
      StoredKeepsMap(s, m, pos, Accepted(data, copied, pad, r), s');
    }
  }

  lemma NothingKeepsMap(s: Store, m: map<nat, Byte>, pos: nat, s': Store)
    requires s'.cells == s.cells && Contains(s, m)
    ensures Contains(s', Overlay(m, pos, []))
  {
  }

  /** The block store refines a sparse byte map: whatever calls are made on whatever devices, with
      whatever geometry is configured meanwhile, each device holds the bytes its own map has. */
  lemma {:induction false} StoreRefinesMap(states: seq<DriverState>, events: seq<Event>, m: map<nat, Byte>, i: nat)
    requires IsRun(states, events) && i < |states[0].stores|
    requires Contains(states[0].stores[i], m)
    ensures i < |states[|events|].stores|
    ensures Contains(states[|events|].stores[i], Written(m, events, i))
    decreases |events|
  {
    if events != [] {
      var n := |events| - 1;
      var e := events[n];
      StoreRefinesMap(states[..n + 1], events[..n], m, i);
      assert Next(states[n], e, states[n + 1]);
      if e.Write? && e.dev == i {
        WriteKeepsMap(states[n].stores[i], Written(m, events[..n], i), e.pos, e.data, e.copied, e.pad, e.wr,
                      states[n + 1].stores[i]);
      }
    }
  }

  /** A read returns the map's bytes wherever it has any. */
  lemma ReadAgrees(states: seq<DriverState>, events: seq<Event>, m: map<nat, Byte>, k: nat, j: nat)
    requires IsRun(states, events) && k < |events| && events[k].Read?
    requires events[k].dev < |states[0].stores| && Contains(states[0].stores[events[k].dev], m)
    requires j < |events[k].out|
    ensures var now := Written(m, events[..k], events[k].dev);
            events[k].pos + j in now ==> events[k].out[j] == now[events[k].pos + j]
  {
    StoreRefinesMap(states[..k + 1], events[..k], m, events[k].dev);
    assert Next(states[k], events[k], states[k + 1]);
    var now := Written(m, events[..k], events[k].dev);
    if events[k].pos + j in now {
      assert HasByte(states[k].stores[events[k].dev].cells, events[k].pos + j, now[events[k].pos + j]);
      assert HasByte(states[k].stores[events[k].dev].cells, events[k].pos + j, events[k].out[j]);
    }
  }

  /** The end of the furthest write to device i since it was last emptied, zero-length ones included. */
  function Furthest(start: nat, events: seq<Event>, i: nat): nat
    decreases |events|
  {
    if events == [] then start
    else
      var before, e := Furthest(start, events[..|events| - 1], i), events[|events| - 1];
      if Trims(e, i) then 0
      else if e.Write? && e.dev == i && e.wr.Done? && before < e.pos + e.wr.count then e.pos + e.wr.count
      else before
  }

  /** The size of a device is the end of its furthest write. */
  lemma {:induction false} SizeIsFurthest(states: seq<DriverState>, events: seq<Event>, i: nat)
    requires IsRun(states, events) && i < |states[0].stores|
    ensures i < |states[|events|].stores|
    ensures states[|events|].stores[i].size == Furthest(states[0].stores[i].size, events, i)
    decreases |events|
  {
    hide Stored, ReadStep;
    if events != [] {
      var n := |events| - 1;
      RunPrefix(states, events);
      SizeIsFurthest(states[..n + 1], events[..n], i);
    }
  }

  /** A device's geometry is the one that was configured when it was last emptied. */
  lemma {:induction false} GeometryLasts(states: seq<DriverState>, events: seq<Event>, from: nat, i: nat)
    requires IsRun(states, events) && from <= |events| && i < |states[0].stores|
    requires forall k :: from <= k < |events| ==> !Trims(events[k], i)
    ensures forall k :: 0 <= k <= |events| ==> |states[k].stores| == |states[0].stores|
    ensures var s, t := states[from].stores[i], states[|events|].stores[i];
            t.quantum == s.quantum && t.qset == s.qset
    ensures from > 0 && Trims(events[from - 1], i) ==>
              var g := states[from - 1].g;
              states[|events|].stores[i].quantum == g.quantum && states[|events|].stores[i].qset == g.qset
    decreases |events|
  {
    if events != [] {
      var n := |events| - 1;
      assert Next(states[n], events[n], states[n + 1]);
      GeometryLasts(states[..n + 1], events[..n], if from <= n then from else n, i);
    }
  }
}
