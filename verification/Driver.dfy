/** The block driver at work: several devices, one allocator, one configured geometry. */
module Driver {
  import opened Common
  import opened Geometry
  import opened StoreSpec
  import opened BlockStore
  import opened DriverSpec

  /** A device is as it was when neither it nor its blocks have been touched. */
  twostate lemma Untouched(d: ScullDev)
    requires old(d.Valid())
    requires unchanged(d)
    requires unchanged(old(d.shape.Blocks()))
    ensures d.Valid() && d.Abs() == old(d.Abs())
  {
  }

  /** A call before it is made. */
  datatype Request =
    | AskIoctl(c: Command, admin: bool)
    | AskOpen(dev: nat, writeOnly: bool)
    | AskRead(dev: nat, pos: nat, count: nat, room: nat)
    | AskWrite(dev: nat, pos: nat, data: seq<Byte>, copied: nat)

  /** The event is the request, answered. */
  predicate Answers(e: Event, q: Request) {
    match q
    case AskIoctl(c, admin) => e.Ioctl? && e.c == c && e.admin == admin
    case AskOpen(i, writeOnly) => e == Event.Open(i, writeOnly)
    case AskRead(i, pos, count, room) => e.Read? && e == Event.Read(i, pos, count, room, e.rr, e.out)
    case AskWrite(i, pos, data, copied) => e.Write? && e == Event.Write(i, pos, data, copied, e.pad, e.wr)
  }

  class ScullDriver {
    const kernel: Kernel
    const devices: seq<ScullDev>
    var quantum: int      // scull_quantum
    var qset: int         // scull_qset
    var pipeSize: int     // scull_p_buffer

    /** The blocks of all devices. */
    ghost function AllBlocks(): set<object>
      reads devices
    {
      set i, o | 0 <= i < |devices| && o in devices[i].shape.Blocks() :: o
    }

    /** Every device is sound, no block belongs to two of them, and what the kernel has allocated
        and not freed is exactly what can be reached from the devices. */
    ghost predicate Valid()
      reads kernel, devices, AllBlocks()
    {
      assert forall i :: 0 <= i < |devices| ==>
        && devices[i].shape.Blocks() <= AllBlocks()
        && devices[i].shape.Nodes() <= devices[i].shape.Blocks()
        && devices[i].shape.Tables() <= devices[i].shape.Blocks();
      && (forall i, j :: 0 <= i < j < |devices| ==> devices[i] != devices[j])
      && (forall i :: 0 <= i < |devices| ==> devices[i].Valid())
      && (forall i, j :: 0 <= i < j < |devices| ==> devices[i].shape.Blocks() !! devices[j].shape.Blocks())
      && (forall i :: 0 <= i < |devices| ==> devices[i] !in AllBlocks())
      && kernel !in AllBlocks() && this !in AllBlocks()
      && kernel.live == AllBlocks()
    }

    /** The devices store what `stores` says. */
    ghost predicate Hold(stores: seq<Store>)
      requires Valid()
      reads kernel, devices, AllBlocks()
    {
      assert forall i :: 0 <= i < |devices| ==> devices[i].shape.Blocks() <= AllBlocks();
      && |stores| == |devices|
      && forall i :: 0 <= i < |devices| ==> stores[i] == devices[i].Abs()
    }

    /** The driver's state is s. */
    ghost predicate Is(s: DriverState)
      requires Valid()
      reads this, kernel, devices, AllBlocks()
    {
      s.g == Globals(quantum, qset, pipeSize) && Hold(s.stores)
    }

    constructor (kernel: Kernel, devices: seq<ScullDev>, g: Globals)
      requires kernel.live == {}
      requires forall i, j :: 0 <= i < j < |devices| ==> devices[i] != devices[j]
      requires forall i :: 0 <= i < |devices| ==> devices[i].Valid() && devices[i].shape == Shape([], [], map[])
      ensures Valid() && this.kernel == kernel && this.devices == devices
      ensures quantum == g.quantum && qset == g.qset && pipeSize == g.pipeSize
    {
      this.kernel, this.devices := kernel, devices;
      quantum, qset, pipeSize := g.quantum, g.qset, g.pipeSize;
      new;
      hide ScullDev.Valid, Shape.Blocks;
      forall i | 0 <= i < |devices|
        ensures devices[i].shape.Blocks() == {}
      {
        devices[i].shape.NodesAreBlocks();
      }
    }

    ghost function Shapes(): (shapes: seq<Shape>)
      reads devices
      ensures |shapes| == |devices| && forall j :: 0 <= j < |devices| ==> shapes[j] == devices[j].shape
    {
      seq(|devices|, j requires 0 <= j < |devices| reads devices => devices[j].shape)
    }

    /** `others` has the blocks of the devices other than i, and these share none. */
    ghost predicate OthersApart(i: nat, shapes: seq<Shape>, others: set<object>)
      requires |shapes| == |devices|
    {
      && (forall j, k :: 0 <= j < k < |devices| ==> devices[j] != devices[k])
      && (forall j :: 0 <= j < |devices| && j != i ==> shapes[j].Blocks() <= others)
      && (forall j, k :: 0 <= j < k < |devices| && j != i && k != i ==> shapes[j].Blocks() !! shapes[k].Blocks())
      && (forall o :: o in others ==> exists j :: 0 <= j < |devices| && j != i && o in shapes[j].Blocks())
    }

    /** A block of a device is no device, not the driver and not the allocator. */
    ghost predicate NoBlock(o: object) {
      o == kernel || o == this || exists j :: 0 <= j < |devices| && o == devices[j]
    }

    ghost predicate Apart(others: set<object>, blocks: set<object>) {
      others !! blocks && forall o :: o in others + blocks ==> !NoBlock(o)
    }

    lemma SetApart(i: nat)
      requires Valid() && i < |devices|
      ensures var blocks := devices[i].shape.Blocks();
              var others := AllBlocks() - blocks;
              && blocks <= AllBlocks()
              && OthersApart(i, Shapes(), others)
              && Apart(others, blocks)
              && kernel.live == others + blocks
              && devices[i].Ready(kernel)
              && (forall o :: o in others ==> o !in blocks && o != devices[i] && o != kernel)
              && (forall j :: 0 <= j < |devices| && j != i ==>
                    && devices[j] != devices[i] && devices[j] as object != kernel
                    && devices[j] !in blocks
                    && devices[j].shape.Blocks() <= others
                    && devices[j].Valid())
    {
    }

    lemma StillValid(i: nat, shapes: seq<Shape>, others: set<object>)
      requires i < |devices| && |shapes| == |devices|
      requires devices[i].Valid()
      requires forall j :: 0 <= j < |devices| && j != i ==> devices[j].Valid() && devices[j].shape == shapes[j]
      requires OthersApart(i, shapes, others) && Apart(others, devices[i].shape.Blocks())
      requires kernel.live == others + devices[i].shape.Blocks()
      ensures Valid() && AllBlocks() == others + devices[i].shape.Blocks()
    {
      assert AllBlocks() == others + devices[i].shape.Blocks();
      assert NoBlock(kernel) && NoBlock(this);
      assert forall j :: 0 <= j < |devices| ==> NoBlock(devices[j]);
    }

    /** Blocks that are nobody's join those of device i. */
    lemma Join(others: set<object>, blocks: set<object>, blocks': set<object>, live: set<object>, live': set<object>)
      requires Apart(others, blocks) && live == others + blocks
      requires blocks <= blocks' <= live'
      requires forall o :: o in blocks' && o !in blocks ==> o !in others && !NoBlock(o)
      requires live <= live' && forall o :: o in live' ==> o in live || o in blocks'
      ensures Apart(others, blocks') && live' == others + blocks'
    {
    }

    /** Device i has no blocks any more. */
    lemma Leave(others: set<object>, blocks: set<object>, blocks': set<object>)
      requires Apart(others, blocks) && blocks' == {}
      ensures Apart(others, blocks') && (others + blocks) - blocks == others + blocks'
    {
    }

    lemma StoresAre(s: DriverState)
      requires Valid() && Is(s)
      ensures |s.stores| == |devices| && s.g == Globals(quantum, qset, pipeSize)
      ensures forall j :: 0 <= j < |devices| ==>
                && devices[j].Valid() && s.stores[j] == devices[j].Abs()
                && s.stores[j].quantum == devices[j].quantum && s.stores[j].size == devices[j].size
    {
    }

    /** The driver's state with one store replaced. */
    lemma IsWith(i: nat, s: DriverState, s': DriverState)
      requires Valid() && i < |devices| == |s.stores|
      requires s' == s.(stores := s.stores[i := devices[i].Abs()])
      requires s.g == Globals(quantum, qset, pipeSize)
      requires forall j :: 0 <= j < |devices| && j != i ==> devices[j].Valid() && s.stores[j] == devices[j].Abs()
      ensures Is(s')
    {
    }

    /** A block that was no device's before is a new one. */
    twostate predicate NoStrangers()
      reads devices
    {
      forall o :: o in AllBlocks() ==> o in old(AllBlocks()) || fresh(o)
    }

    /** `scull_write` on device i. */
    method Write(i: nat, buf: seq<Byte>, copied: nat, pos: nat, ghost s: DriverState)
      returns (r: Outcome, newPos: nat, pad: seq<Byte>, ghost s': DriverState)
      requires Valid() && Is(s) && i < |devices|
      requires Fits(devices[i].quantum, devices[i].qset, pos) && InFile(pos, |buf|)
      modifies devices[i], kernel, devices[i].shape.Blocks()
      ensures Valid() && Is(s') && NoStrangers()
      ensures Next(s, Event.Write(i, pos, buf, copied, pad, r), s')
    {
      hide Valid, Is, AllBlocks, OthersApart, Apart, ScullDev.Valid, ScullDev.Ready, ScullDev.Linked, ScullDev.Abs,
           ScullDev.Mem, Shape.Valid, Shape.Blocks, Shape.Nodes, Shape.Tables, Shape.Quanta, WriteStep, Fits;
      SetApart(i);
      StoresAre(s);
      FitsIsUsable(devices[i].quantum, devices[i].qset, pos);
      var d := devices[i];
      ghost var shapes, blocks, others := Shapes(), d.shape.Blocks(), AllBlocks() - d.shape.Blocks();
      ghost var live := kernel.live;
      r, newPos, pad := d.Write(kernel, buf, copied, pos);
      assert forall o :: o in others ==> unchanged(o);
      forall j | 0 <= j < |devices| && j != i
        ensures unchanged(devices[j]) && devices[j].Valid() && devices[j].Abs() == s.stores[j]
      {
        Untouched(devices[j]);
      }
      d.ReadyIsValid(kernel);
      assert forall o :: o in d.shape.Blocks() && o !in blocks ==> o !in others && !NoBlock(o);
      Join(others, blocks, d.shape.Blocks(), live, kernel.live);
      StillValid(i, shapes, others);
      s' := s.(stores := s.stores[i := devices[i].Abs()]);
      IsWith(i, s, s');
    }

    /** `scull_read` on device i: nothing changes anywhere. */
    method Read(i: nat, count: nat, room: nat, pos: nat, ghost s: DriverState)
      returns (r: Outcome, out: seq<Byte>, newPos: nat)
      requires Valid() && Is(s) && i < |devices|
      requires InFile(pos, count)
      requires pos < devices[i].size ==> Fits(devices[i].quantum, devices[i].qset, pos)
      modifies devices[i], kernel, devices[i].shape.items
      ensures Valid() && Is(s) && NoStrangers()
      ensures Next(s, Event.Read(i, pos, count, room, r, out), s)
    {
      hide Valid, Is, AllBlocks, OthersApart, Apart, ScullDev.Valid, ScullDev.Ready, ScullDev.Linked, ScullDev.Abs,
           ScullDev.Mem, Shape.Valid, Shape.Blocks, Shape.Nodes, Shape.Tables, Shape.Quanta, ReadStep, Fits;
      SetApart(i);
      StoresAre(s);
      if pos < devices[i].size { FitsIsUsable(devices[i].quantum, devices[i].qset, pos); }
      var d := devices[i];
      ghost var shapes, blocks, others := Shapes(), d.shape.Blocks(), AllBlocks() - d.shape.Blocks();
      d.shape.NodesAreBlocks();
      r, out, newPos := d.Read(kernel, count, room, pos);
      assert forall o :: o in others ==> unchanged(o);
      forall j | 0 <= j < |devices| && j != i
        ensures unchanged(devices[j]) && devices[j].Valid() && devices[j].Abs() == s.stores[j]
      {
        Untouched(devices[j]);
      }
      d.ReadyIsValid(kernel);
      StillValid(i, shapes, others);
      IsWith(i, s, s);
    }

    /** Line 249 of `scull_open`. */
    method Empty(i: nat, ghost s: DriverState) returns (ghost s': DriverState)
      requires Valid() && Is(s) && i < |devices|
      modifies devices[i], kernel, devices[i].shape.items
      ensures Valid() && Is(s') && NoStrangers()
      ensures s' == s.(stores := s.stores[i := Store(quantum, qset, 0, 0, map[])])
    {
      hide Valid, Is, AllBlocks, OthersApart, Apart, ScullDev.Valid, ScullDev.Ready, ScullDev.Linked, ScullDev.Abs,
           ScullDev.Mem, Shape.Valid, Shape.Blocks, Shape.Nodes, Shape.Tables, Shape.Quanta;
      SetApart(i);
      StoresAre(s);
      var d := devices[i];
      ghost var shapes, blocks, others := Shapes(), d.shape.Blocks(), AllBlocks() - d.shape.Blocks();
      d.shape.NodesAreBlocks();
      d.Trim(kernel, quantum, qset);
      d.shape.NodesAreBlocks();
      assert forall o :: o in others ==> unchanged(o);
      forall j | 0 <= j < |devices| && j != i
        ensures unchanged(devices[j]) && devices[j].Valid() && devices[j].Abs() == s.stores[j]
      {
        Untouched(devices[j]);
      }
      Leave(others, blocks, d.shape.Blocks());
      StillValid(i, shapes, others);
      s' := s.(stores := s.stores[i := d.Abs()]);
      IsWith(i, s, s');
    }

    /** `scull_open` on device i: a write-only open empties it, and gives it the geometry that is
        configured now. */
    method Open(i: nat, writeOnly: bool, ghost s: DriverState) returns (ghost s': DriverState)
      requires Valid() && Is(s) && i < |devices|
      modifies devices[i], kernel, devices[i].shape.items
      ensures Valid() && Is(s') && NoStrangers()
      ensures Next(s, Event.Open(i, writeOnly), s')
    {
      hide Valid, Is;
      StoresAre(s);
      s' := s;
      if writeOnly {
        s' := Empty(i, s);
      }
    }

    /** The value of one of the two geometry parameters. */
    function Get(p: Param): int
      reads this
    {
      if p.Quantum? then quantum else qset
    }

    method Put(p: Param, v: int)
      modifies this`quantum, this`qset
      ensures Globals(quantum, qset, pipeSize) == old(Globals(quantum, qset, pipeSize)).With(p, v)
    {
      if p.Quantum? {
        quantum := v;
      } else {
        qset := v;
      }
    }

    /** The switch of `scull_ioctl`. */
    method RunCommand(c: Command, admin: bool) returns (result: IoctlResult)
      modifies this`quantum, this`qset, this`pipeSize
      ensures Globals(quantum, qset, pipeSize) == GlobalsAfter(old(Globals(quantum, qset, pipeSize)), c, admin)
      ensures result == IoctlOutcome(old(Globals(quantum, qset, pipeSize)), c, admin)
    {
      match c
      case Reset =>
        quantum, qset := SCULL_QUANTUM, SCULL_QSET;
        return Value(0);
      case Set(p, user) =>
        if !admin {
          return Error(EPERM);
        }
        if user.None? {
          return Error(EFAULT);
        }
        Put(p, user.value);
        return Value(0);
      case Tell(p, arg) =>
        if !admin {
          return Error(EPERM);
        }
        Put(p, AsInt(arg));
        return Value(0);
      case Get(p, writable) =>
        return if writable then Copied(Get(p)) else Error(EFAULT);
      case Query(p) =>
        return Value(Get(p));
      case Exchange(p, user, writable) =>
        if !admin {
          return Error(EPERM);
        }
        if user.None? {
          return Error(EFAULT);
        }
        var tmp := Get(p);
        Put(p, user.value);
        return if writable then Copied(tmp) else Error(EFAULT);
      case Shift(p, arg) =>
        if !admin {
          return Error(EPERM);
        }
        var tmp := Get(p);
        Put(p, AsInt(arg));
        return Value(tmp);
      case TellPipe(arg) =>
        pipeSize := AsInt(arg);
        return Value(0);
      case QueryPipe =>
        return Value(pipeSize);
    }

    /** `scull_ioctl`: it changes parameters for the next trim, and touches no device. */
    method Ioctl(c: Command, admin: bool, ghost s: DriverState) returns (result: IoctlResult, ghost s': DriverState)
      requires Valid() && Is(s)
      modifies this`quantum, this`qset, this`pipeSize
      ensures Valid() && Is(s') && NoStrangers()
      ensures Next(s, Event.Ioctl(c, admin, result), s')
    {
      assert this !in AllBlocks();
      hide Valid, AllBlocks, Hold, GlobalsAfter, IoctlOutcome;
      result := RunCommand(c, admin);
      s' := s.(g := Globals(quantum, qset, pipeSize));
    }

    /** What the driver relies on without checking it: offsets fit its integers. */
    predicate Serves(q: Request)
      reads this, devices
    {
      match q
      case AskIoctl(_, _) => true
      case AskOpen(i, _) => i < |devices|
      case AskRead(i, pos, count, _) =>
        && i < |devices| && InFile(pos, count)
        && (pos < devices[i].size ==> Fits(devices[i].quantum, devices[i].qset, pos))
      case AskWrite(i, pos, data, _) =>
        && i < |devices| && InFile(pos, |data|)
        && Fits(devices[i].quantum, devices[i].qset, pos)
    }

    lemma BlocksAreAll()
      requires Valid()
      ensures forall i :: 0 <= i < |devices| ==> devices[i].shape.Blocks() <= AllBlocks()
      ensures forall i, j :: 0 <= i < |devices| && 0 <= j < |devices[i].shape.items| ==>
                devices[i].shape.items[j] in AllBlocks()
    {
      forall i | 0 <= i < |devices|
        ensures forall j :: 0 <= j < |devices[i].shape.items| ==> devices[i].shape.items[j] in devices[i].shape.Blocks()
      {
        devices[i].shape.NodesAreBlocks();
      }
    }

    method Serve(q: Request, ghost s: DriverState) returns (ghost e: Event, ghost s': DriverState)
      requires Valid() && Is(s) && Serves(q)
      modifies this`quantum, this`qset, this`pipeSize, kernel, devices, AllBlocks()
      ensures Valid() && Is(s') && NoStrangers()
      ensures Next(s, e, s') && Answers(e, q)
    {
      hide Valid, Is, AllBlocks, NoStrangers, Next, Fits, Shape.Blocks;
      BlocksAreAll();
      s' := s;
      match q
      case AskIoctl(c, admin) =>
        var result;
        result, s' := Ioctl(c, admin, s);
        e := Event.Ioctl(c, admin, result);
      case AskOpen(i, writeOnly) =>
        s' := Open(i, writeOnly, s);
        e := Event.Open(i, writeOnly);
      case AskRead(i, pos, count, room) =>
        var r, out, newPos := Read(i, count, room, pos, s);
        e := Event.Read(i, pos, count, room, r, out);
      case AskWrite(i, pos, data, copied) =>
        var r, newPos, pad;
        r, newPos, pad, s' := Write(i, data, copied, pos, s);
        e := Event.Write(i, pos, data, copied, pad, r);
    }

    /** Any sequence of calls, up to the first that the driver must not be asked.  At its end, and so
        at the end of every shorter one, the devices are sound and the allocated blocks are those in
        use. */
    method Run(qs: seq<Request>, ghost s: DriverState)
      returns (n: nat, ghost states: seq<DriverState>, ghost events: seq<Event>)
      requires Valid() && Is(s)
      modifies this`quantum, this`qset, this`pipeSize, kernel, devices, AllBlocks()
      ensures Valid() && n <= |qs| && (n < |qs| ==> !Serves(qs[n]))
      ensures |events| == n && IsRun(states, events)
      ensures states[0] == s && Is(states[n])
      ensures forall k :: 0 <= k < n ==> Answers(events[k], qs[k])
    {
      hide Valid, Is, AllBlocks, Next, Answers, Serves;
      n, states, events := 0, [s], [];
      while n < |qs| && Serves(qs[n])
        invariant Valid() && n <= |qs| && NoStrangers()
        invariant |events| == n && IsRun(states, events)
        invariant states[0] == s && Is(states[n])
        invariant forall k :: 0 <= k < n ==> Answers(events[k], qs[k])
      {
        ghost var e, s' := Serve(qs[n], states[n]);
        states, events, n := states + [s'], events + [e], n + 1;
      }
    }
  }
}
