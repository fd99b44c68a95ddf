/** `struct scull_dev`: a linked list of quantum sets, each a table of pointers to quanta, all
    allocated when first needed.  Every call runs under the device semaphore, as one step. */
module BlockStore {
  import opened Common
  import opened Geometry
  import opened StoreSpec

  /** The kernel's allocator: which blocks are allocated and not yet freed. */
  class Kernel {
    const plentiful: bool     // no allocation fails
    ghost var live: set<object>

    constructor (plentiful: bool)
      ensures this.plentiful == plentiful && live == {}
    {
      this.plentiful := plentiful;
      live := {};
    }

    method Succeeds() returns (ok: bool)
      ensures plentiful ==> ok
    {
      ok := *;
      ok := ok || plentiful;
    }

    /** `kmalloc` and `memset` of a list item. */
    method NewItem() returns (q: QuantumSet?)
      modifies this`live
      ensures q == null ==> live == old(live) && !plentiful
      ensures q != null ==>
                && fresh(q) && q.data == null && q.next == null
                && live == old(live) + {q}
    {
      q := null;
      var ok := Succeeds();
      if ok {
        q := new QuantumSet();
        live := live + {q};
      }
    }

    /** `kmalloc` and `memset` of a table of n null pointers. */
    method NewTable(n: nat) returns (t: array?<array?<Byte>>)
      modifies this`live
      ensures t == null ==> live == old(live) && !plentiful
      ensures t != null ==>
                && fresh(t) && t.Length == n && (forall i :: 0 <= i < n ==> t[i] == null)
                && live == old(live) + {t}
    {
      t := null;
      var ok := Succeeds();
      if ok {
        t := new array?<Byte>[n](_ => null);
        live := live + {t};
      }
    }

    /** `kmalloc` of a quantum, which is not zeroed: its bytes are anything. */
    method NewQuantum(n: nat) returns (b: array?<Byte>)
      modifies this`live
      ensures b == null ==> live == old(live) && !plentiful
      ensures b != null ==> fresh(b) && b.Length == n && live == old(live) + {b}
    {
      b := null;
      var ok := Succeeds();
      if ok {
        b := new Byte[n];
        live := live + {b};
      }
    }

    /** `kfree` of a block, which must be allocated: nothing is freed twice. */
    method Free(b: object)
      requires b in live
      modifies this`live
      ensures live == old(live) - {b}
    {
      live := live - {b};
    }
  }

  /** `struct scull_qset`. */
  class QuantumSet {
    var data: array?<array?<Byte>>
    var next: QuantumSet?

    constructor ()
      ensures data == null && next == null
    {
      data, next := null, null;
    }
  }

  /** The structure below a device, as values: the list, the table of every item that has one,
      and the quanta by where they hang. */
  datatype Shape = Shape(
    items: seq<QuantumSet>,
    tables: seq<array?<array?<Byte>>>,
    quanta: map<Key, array<Byte>>
  ) {
    ghost function Nodes(): set<object> {
      set i | 0 <= i < |items| :: items[i] as object
    }

    ghost function Tables(): set<object> {
      set i | 0 <= i < |tables| && tables[i] != null :: tables[i] as object
    }

    ghost function Quanta(): set<object> {
      set k | k in quanta :: quanta[k] as object
    }

    /** Every block that can be reached from the device. */
    ghost function Blocks(): set<object> {
      Nodes() + Tables() + Quanta()
    }

    lemma NodesAreBlocks()
      ensures forall i :: 0 <= i < |items| ==> items[i] in Blocks()
      ensures items == [] && tables == [] && quanta == map[] ==> Blocks() == {}
    {
    }

    /** No block is in two places, and tables and quanta have the sizes of the geometry. */
    ghost predicate Valid(quantum: int, qset: int) {
      && |tables| == |items|
      && (forall i, j :: 0 <= i < j < |items| ==> items[i] != items[j])
      && (forall i, j :: 0 <= i < j < |tables| && tables[i] != null ==> tables[i] != tables[j])
      && (forall i :: 0 <= i < |tables| && tables[i] != null ==> tables[i].Length == qset)
      && (forall k :: k in quanta ==>
            k.0 < |tables| && tables[k.0] != null && k.1 < qset && quanta[k].Length == quantum)
      && (forall k, k' :: k in quanta && k' in quanta && k != k' ==> quanta[k] != quanta[k'])
      && Quanta() !! Nodes() + Tables()
    }

    function WithItem(q: QuantumSet): Shape {
      Shape(items + [q], tables + [null], quanta)
    }

    function WithTable(i: nat, t: array<array?<Byte>>): Shape
      requires i < |tables|
    {
      this.(tables := tables[i := t])
    }

    function WithQuantum(k: Key, b: array<Byte>): Shape {
      this.(quanta := quanta[k := b])
    }

    /** The blocks a trim has freed when it is at position j of the table of item k. */
    ghost function Before(k: nat, j: nat): set<object>
      requires k <= |items| == |tables|
    {
      (set i | 0 <= i < k :: items[i] as object)
      + (set i | 0 <= i < k && tables[i] != null :: tables[i] as object)
      + (set key | key in quanta && (key.0 < k || (key.0 == k && key.1 < j)) :: quanta[key] as object)
    }

    lemma ItemsDiffer(i: nat, quantum: int, qset: int)
      requires Valid(quantum, qset) && i < |items|
      ensures |items| == |tables| && forall j :: 0 <= j < |items| && j != i ==> items[j] != items[i]
      ensures tables[i] == null ==> forall j :: (i, j) !in quanta
    {
    }

    lemma TablesDiffer(i: nat, quantum: int, qset: int)
      requires Valid(quantum, qset) && i < |tables| && tables[i] != null
      ensures |items| == |tables| && tables[i].Length == qset
      ensures forall j :: 0 <= j < |tables| && j != i ==> tables[j] != tables[i]
    {
    }

    lemma BeforeEnds(quantum: int, qset: int)
      requires Valid(quantum, qset)
      ensures Before(0, 0) == {}
      ensures Before(|items|, 0) == Blocks()
    {
    }

    lemma BeforeQuantum(k: nat, j: nat, quantum: int, qset: int)
      requires Valid(quantum, qset) && k < |items|
      ensures if (k, j) in quanta
              then quanta[(k, j)] in Blocks() - Before(k, j) && Before(k, j + 1) == Before(k, j) + {quanta[(k, j)]}
              else Before(k, j + 1) == Before(k, j)
    {
    }

    lemma BeforeItem(k: nat, quantum: int, qset: int)
      requires Valid(quantum, qset) && k < |items| && qset > 0
      ensures items[k] in Blocks() - Before(k, qset)
      ensures if tables[k] != null
              then && tables[k] in Blocks() - Before(k, qset) - {items[k]}
                   && Before(k + 1, 0) == Before(k, qset) + {tables[k]} + {items[k]}
              else Before(k + 1, 0) == Before(k, 0) + {items[k]} && Before(k, qset) == Before(k, 0)
    {
      if tables[k] != null {
        BeforeItemWithTable(k, quantum, qset);
      }
    }

    lemma BeforeItemWithTable(k: nat, quantum: int, qset: int)
      requires Valid(quantum, qset) && k < |items| && qset > 0 && tables[k] != null
      ensures tables[k] in Blocks() - Before(k, qset) - {items[k]}
      ensures Before(k + 1, 0) == Before(k, qset) + {tables[k]} + {items[k]}
    {
    }

    lemma WithItemKeeps(q: QuantumSet, quantum: int, qset: int)
      requires Valid(quantum, qset) && q !in Blocks()
      ensures WithItem(q).Valid(quantum, qset)
      ensures WithItem(q).Blocks() == Blocks() + {q}
    {
      var w := WithItem(q);
      assert w.items[|items|] == q;
      assert forall i :: 0 <= i < |items| ==> w.items[i] == items[i] && w.tables[i] == tables[i];
      assert w.Nodes() == Nodes() + {q};
      assert w.Tables() == Tables();
    }

    lemma WithTableKeeps(i: nat, t: array<array?<Byte>>, quantum: int, qset: int)
      requires Valid(quantum, qset) && t !in Blocks() && t.Length == qset
      requires i < |tables| && tables[i] == null
      ensures WithTable(i, t).Valid(quantum, qset)
      ensures WithTable(i, t).Blocks() == Blocks() + {t}
    {
      var w := WithTable(i, t);
      assert w.tables[i] == t;
      assert forall j :: 0 <= j < |tables| && j != i ==> w.tables[j] == tables[j];
      assert w.Tables() == Tables() + {t};
    }

    lemma WithQuantumKeeps(k: Key, b: array<Byte>, quantum: int, qset: int)
      requires Valid(quantum, qset) && b !in Blocks() && b.Length == quantum
      requires k !in quanta && k.0 < |tables| && tables[k.0] != null && k.1 < qset
      ensures WithQuantum(k, b).Valid(quantum, qset)
      ensures WithQuantum(k, b).Blocks() == Blocks() + {b}
    {
      var w := WithQuantum(k, b);
      assert w.quanta[k] == b;
      assert forall j :: j in quanta ==> w.quanta[j] == quanta[j];
      assert w.Quanta() == Quanta() + {b};
    }
  }

  lemma WrittenTwice(mem: map<Key, seq<Byte>>, k: Key, first: seq<Byte>, second: seq<Byte>)
    ensures mem[k := first][k := second] == mem[k := second]
  {
  }

  /** More blocks are reachable, and those are the blocks that have been allocated. */
  ghost predicate Grown(blocks: set<object>, live: set<object>, blocks': set<object>, live': set<object>) {
    && (forall o :: o in blocks ==> o in blocks')
    && (forall o :: o in live' ==> o in live || o in blocks')
    && live <= live'
  }

  lemma GrownByOne(blocks: set<object>, live: set<object>, b: object)
    requires blocks <= live
    ensures Grown(blocks, live, blocks, live)
    ensures Grown(blocks, live, blocks + {b}, live + {b})
    ensures blocks + {b} <= live + {b}
  {
  }

  class ScullDev {
    var data: QuantumSet?
    var quantum: int
    var qset: int
    var size: nat
    ghost var shape: Shape

    /** The pointer is to item k of the list, or null past its end. */
    predicate At(items: seq<QuantumSet>, k: nat, dptr: QuantumSet?) {
      k <= |items| && if k < |items| then dptr == items[k] else dptr == null
    }

    lemma AtIs(items: seq<QuantumSet>, k: nat, dptr: QuantumSet)
      requires At(items, k, dptr)
      ensures k < |items| && dptr == items[k]
    {
    }

    lemma AtEnd(items: seq<QuantumSet>, k: nat, dptr: QuantumSet?)
      requires At(items, k, dptr)
      ensures dptr == null <==> k == |items|
    {
    }

    /** Behind every item is the next, and below it its table. */
    ghost predicate Chained(items: seq<QuantumSet>, tables: seq<array?<array?<Byte>>>)
      reads items`data, items`next
    {
      && |tables| == |items|
      && (forall i :: 0 <= i < |items| ==> items[i].data == tables[i])
      && (forall i :: 0 <= i < |items| ==> At(items, i + 1, items[i].next))
    }

    /** Table t of item k has the pointers to its quanta. */
    ghost predicate Points(quanta: map<Key, array<Byte>>, k: nat, t: array<array?<Byte>>)
      reads t
    {
      forall j :: 0 <= j < t.Length ==> t[j] == if (k, j) in quanta then quanta[(k, j)] else null
    }

    /** Every table has the pointers to its quanta. */
    ghost predicate AllPoint(quanta: map<Key, array<Byte>>, tables: seq<array?<array?<Byte>>>)
      reads set t | t in tables && t != null
    {
      forall i :: 0 <= i < |tables| && tables[i] != null ==> Points(quanta, i, tables[i])
    }

    /** The pointers below the head are those of the shape. */
    ghost predicate Wired(was: Shape)
      reads was.items`data, was.items`next, set t | t in was.tables && t != null
    {
      Chained(was.items, was.tables) && AllPoint(was.quanta, was.tables)
    }

    /** The pointers in memory are those of the shape. */
    ghost predicate Linked()
      reads this`data, this`shape, shape.Nodes(), shape.Tables()
    {
      At(shape.items, 0, data) && Wired(shape)
    }

    /** The geometry is one with which something can be stored. */
    predicate Usable()
      reads this`quantum, this`qset
    {
      quantum > 0 && qset > 0
    }

    /** The list is also long enough for the size, and empty while the geometry is unusable. */
    ghost predicate Valid()
      reads this, shape.Nodes(), shape.Tables()
    {
      && (shape.items != [] ==> Usable())
      && size <= Capacity(|shape.items|, quantum, qset)
      && shape.Valid(quantum, qset)
      && this !in shape.Blocks()
      && Linked()
    }

    /** The device is sound and the kernel knows its blocks. */
    ghost predicate Ready(kernel: Kernel)
      reads this, shape.Nodes(), shape.Tables(), kernel
    {
      Valid() && shape.Blocks() <= kernel.live && kernel !in shape.Blocks()
    }

    /** The quanta that are there, with their bytes. */
    ghost function Mem(): map<Key, seq<Byte>>
      reads this`shape, shape.Quanta()
    {
      map k | k in shape.quanta :: shape.quanta[k][..]
    }

    lemma MemIsValid()
      requires Valid()
      ensures MemoryValid(Mem(), quantum, qset, |shape.items|)
    {
    }

    /** What is stored, by offset. */
    ghost function Abs(): Store
      requires Valid()
      reads this, shape.Blocks()
    {
      MemIsValid();
      Store(quantum, qset, size, |shape.items|, CellsOf(Mem(), quantum, qset, |shape.items|))
    }

    lemma AbsIs()
      requires Valid()
      ensures MemoryValid(Mem(), quantum, qset, |shape.items|)
      ensures Abs() == Store(quantum, qset, size, |shape.items|, CellsOf(Mem(), quantum, qset, |shape.items|))
    {
      MemIsValid();
    }

    /** In every state of a sound device, the list covers the size and whole quanta are stored. */
    lemma StoresWholeQuanta()
      requires Valid()
      ensures Abs().Valid()
    {
      AbsIs();
      CellsAreWhole(Mem(), quantum, qset, |shape.items|, size);
    }

    /** A device without data. */
    constructor (quantum: int, qset: int)
      ensures Valid() && shape == Shape([], [], map[])
      ensures Abs() == Store(quantum, qset, 0, 0, map[])
    {
      data, size := null, 0;
      this.quantum, this.qset := quantum, qset;
      shape := Shape([], [], map[]);
    }

    /** The device has the new blocks of `shape`, and the kernel has allocated just those. */
    twostate predicate Gained(kernel: Kernel)
      reads this, kernel
    {
      && Grown(old(shape.Blocks()), old(kernel.live), shape.Blocks(), kernel.live)
      && (forall o :: o in shape.Blocks() ==> o in old(shape.Blocks()) || fresh(o))
      && quantum == old(quantum) && qset == old(qset)
    }

    /** The first item of an empty list. */
    method Start(q: QuantumSet)
      requires Valid() && Usable() && shape.items == []
      requires q !in shape.Blocks() && q.data == null && q.next == null
      modifies this`data, this`shape
      ensures Valid() && shape == old(shape).WithItem(q) && shape.Blocks() == old(shape.Blocks()) + {q}
    {
      shape.WithItemKeeps(q, quantum, qset);
      data := q;
      shape := shape.WithItem(q);
    }

    method SetNext(last: QuantumSet, q: QuantumSet, ghost was: Shape)
      requires Wired(was) && was.items != [] && last == was.items[|was.items| - 1]
      requires q !in was.items && q.data == null && q.next == null
      requires forall i :: 0 <= i < |was.items| - 1 ==> was.items[i] != last
      modifies last`next
      ensures Wired(was.WithItem(q))
    {
      last.next := q;
      ghost var now := was.WithItem(q);
      forall i | 0 <= i < |now.items|
        ensures now.items[i].data == now.tables[i] && At(now.items, i + 1, now.items[i].next)
      {
        assert i < |was.items| ==> now.items[i] == was.items[i] && old(At(was.items, i + 1, was.items[i].next));
      }
    }

    /** One more item after the last. */
    method Link(last: QuantumSet, q: QuantumSet)
      requires Valid() && shape.items != [] && last == shape.items[|shape.items| - 1]
      requires q !in shape.Blocks() && q.data == null && q.next == null
      modifies this`shape, last`next
      ensures Valid() && shape == old(shape).WithItem(q) && shape.Blocks() == old(shape.Blocks()) + {q}
    {
      hide Valid, Linked, Wired, Capacity, Shape.Valid, Shape.Blocks, Shape.Nodes, Shape.Tables;
      Parts();
      shape.WithItemKeeps(q, quantum, qset);
      shape.ItemsDiffer(|shape.items| - 1, quantum, qset);
      shape.NodesAreBlocks();
      UsableIs();
      CapacityGrows(|shape.items|, |shape.items| + 1, quantum, qset);
      SetNext(last, q, shape);
      shape := shape.WithItem(q);
      Whole();
    }

    method SetTable(qs: QuantumSet, t: array<array?<Byte>>, ghost i: nat, ghost was: Shape)
      requires Wired(was) && i < |was.items| && qs == was.items[i]
      requires forall j :: 0 <= j < |was.items| && j != i ==> was.items[j] != qs
      requires forall j :: 0 <= j < t.Length ==> t[j] == null && (i, j) !in was.quanta
      modifies qs`data
      ensures |was.tables| == |was.items| && Wired(was.WithTable(i, t))
    {
      qs.data := t;
      ghost var now := was.WithTable(i, t);
      forall j | 0 <= j < |now.items|
        ensures now.items[j].data == now.tables[j] && At(now.items, j + 1, now.items[j].next)
      {
        assert old(At(was.items, j + 1, was.items[j].next));
      }
    }

    /** Item i gets a table. */
    method AttachTable(qs: QuantumSet, t: array<array?<Byte>>, ghost i: nat)
      requires Valid() && i < |shape.items| && qs == shape.items[i] && shape.tables[i] == null
      requires t !in shape.Blocks() && t.Length == qset && forall j :: 0 <= j < qset ==> t[j] == null
      modifies this`shape, qs`data
      ensures Valid() && shape == old(shape).WithTable(i, t) && shape.Blocks() == old(shape.Blocks()) + {t}
    {
      hide Valid, Linked, Wired, Capacity, Shape.Valid, Shape.Blocks, Shape.Nodes, Shape.Tables;
      Parts();
      shape.ItemsDiffer(i, quantum, qset);
      shape.WithTableKeeps(i, t, quantum, qset);
      SetTable(qs, t, i, shape);
      shape := shape.WithTable(i, t);
      Whole();
    }

    method SetSlot(t: array<array?<Byte>>, b: array<Byte>, ghost i: nat, s: nat, ghost was: Shape)
      requires Wired(was) && i < |was.tables| && was.tables[i] == t && s < t.Length
      requires forall j :: 0 <= j < |was.tables| && j != i ==> was.tables[j] != t
      modifies t
      ensures Wired(was.WithQuantum((i, s), b))
    {
      t[s] := b;
    }

    /** Position s of the table of item i gets a quantum. */
    method AttachQuantum(t: array<array?<Byte>>, b: array<Byte>, ghost i: nat, s: nat)
      requires Valid() && i < |shape.items| && t == shape.tables[i] && s < qset
      requires (i, s) !in shape.quanta
      requires b !in shape.Blocks() && b.Length == quantum
      modifies this`shape, t
      ensures Valid() && shape == old(shape).WithQuantum((i, s), b) && shape.Blocks() == old(shape.Blocks()) + {b}
    {
      hide Valid, Linked, Wired, Capacity, Shape.Valid, Shape.Blocks, Shape.Nodes, Shape.Tables;
      Parts();
      shape.TablesDiffer(i, quantum, qset);
      shape.WithQuantumKeeps((i, s), b, quantum, qset);
      ghost var was := shape;
      shape := was.WithQuantum((i, s), b);
      SetSlot(t, b, i, s, was);
      Whole();
    }

    /** What a sound device is made of. */
    lemma Parts()
      requires Valid()
      ensures shape.Valid(quantum, qset) && this !in shape.Blocks()
      ensures shape.items != [] ==> Usable()
      ensures size <= Capacity(|shape.items|, quantum, qset)
      ensures At(shape.items, 0, data) && Wired(shape)
    {
    }

    lemma Whole()
      requires shape.Valid(quantum, qset) && this !in shape.Blocks()
      requires shape.items != [] ==> Usable()
      requires size <= Capacity(|shape.items|, quantum, qset)
      requires At(shape.items, 0, data) && Wired(shape)
      ensures Valid()
    {
    }

    lemma NextIsItem(i: nat)
      requires Valid() && i < |shape.items|
      ensures i + 1 < |shape.items| ==> shape.items[i].next == shape.items[i + 1]
      ensures shape.items[i].next == null <==> i + 1 == |shape.items|
    {
      if i + 1 < |shape.items| {
        var q: object := shape.items[i + 1];
        assert shape.items[i].next == q;
      }
    }

    /** The first item, allocated if the list is empty. */
    method First(kernel: Kernel) returns (qs: QuantumSet?)
      requires Ready(kernel) && Usable()
      modifies this`data, this`shape, kernel`live
      ensures Ready(kernel) && Gained(kernel) && size == old(size)
      ensures qs != null ==> 0 < |shape.items| && qs == shape.items[0]
      ensures qs == null ==> !kernel.plentiful && shape.items == []
      ensures |shape.tables| == |shape.items|
      ensures shape == old(shape)
              || (old(shape.items) == [] && |shape.items| == 1 && fresh(shape.items[0])
                  && shape == old(shape).WithItem(shape.items[0]))
      ensures old(shape.items) != [] ==> unchanged(this) && unchanged(kernel)
    {
      qs := data;
      if qs == null {
        qs := kernel.NewItem();
        if qs != null {
          Start(qs);
        }
      }
    }

    /** The item after number i, allocated if i is the last. */
    method After(kernel: Kernel, qs: QuantumSet, ghost i: nat) returns (next: QuantumSet?)
      requires Ready(kernel)
      requires i < |shape.items| && qs == shape.items[i]
      modifies this`shape, kernel`live, qs`next
      ensures Ready(kernel) && Gained(kernel) && size == old(size)
      ensures next != null ==> i + 1 < |shape.items| && next == shape.items[i + 1]
      ensures next == null ==> !kernel.plentiful && |shape.items| == i + 1
      ensures |shape.tables| == |shape.items|
      ensures shape == old(shape)
              || (|old(shape.items)| == i + 1 && next != null && fresh(next) && shape == old(shape).WithItem(next))
      ensures i + 1 < |old(shape.items)| ==> unchanged(this) && unchanged(kernel) && unchanged(qs)
    {
      NextIsItem(i);
      next := qs.next;
      if next == null {
        next := kernel.NewItem();
        if next != null {
          Link(qs, next);
        }
      }
    }

    /** `scull_follow`: the item with number n, growing the list up to it if need be. */
    method Follow(kernel: Kernel, n: nat) returns (qs: QuantumSet?)
      requires Ready(kernel) && Usable()
      modifies this`data, this`shape, kernel`live, shape.items`next
      ensures Ready(kernel) && Gained(kernel) && size == old(size)
      ensures shape.quanta == old(shape.quanta)
      ensures old(shape.items) <= shape.items && old(shape.tables) <= shape.tables
      ensures qs != null ==> n < |shape.items| && qs == shape.items[n] && (n < |old(shape.items)| || fresh(qs))
      ensures qs != null ==> |shape.items| == if n < |old(shape.items)| then |old(shape.items)| else n + 1
      ensures qs != null ==>
                && n < |shape.tables|
                && (shape.tables[n] != null ==> n < |old(shape.tables)| && shape.tables[n] == old(shape.tables)[n])
      ensures qs == null ==> !kernel.plentiful && |shape.items| <= n
      ensures n < |old(shape.items)| ==> unchanged(this) && unchanged(kernel) && unchanged(old(shape.items))
    {
      hide Valid, Ready, Shape.Blocks;
      qs := First(kernel);
      if qs == null {
        return;
      }
      var left: nat := n;
      ghost var i := 0;
      while left > 0
        invariant i + left == n
        invariant Ready(kernel) && Gained(kernel) && size == old(size)
        invariant shape.quanta == old(shape.quanta)
        invariant old(shape.items) <= shape.items && old(shape.tables) <= shape.tables
        invariant i < |shape.items| && qs == shape.items[i] && (i < |old(shape.items)| || fresh(qs))
        invariant forall j :: |old(shape.tables)| <= j < |shape.tables| ==> shape.tables[j] == null
        invariant |shape.tables| == |shape.items|
        invariant |shape.items| == if i < |old(shape.items)| then |old(shape.items)| else i + 1
        invariant i < |old(shape.items)| ==> unchanged(this) && unchanged(kernel) && unchanged(old(shape.items))
      {
        left := left - 1;
        qs := After(kernel, qs, i);
        if qs == null {
          return;
        }
        i := i + 1;
      }
    }

    /** The table of item i, allocated if it has none. */
    method EnsureTable(kernel: Kernel, qs: QuantumSet, ghost i: nat) returns (t: array?<array?<Byte>>)
      requires Ready(kernel)
      requires i < |shape.items| && qs == shape.items[i]
      modifies this`shape, kernel`live, qs`data
      ensures Ready(kernel) && Gained(kernel) && size == old(size)
      ensures shape.items == old(shape.items) && shape.quanta == old(shape.quanta)
      ensures t != null ==>
                && i < |shape.tables| && shape.tables[i] == t
                && shape.tables == old(shape.tables)[i := t]
                && (t == old(shape.tables[i]) || fresh(t))
      ensures t == null ==> !kernel.plentiful
    {
      t := qs.data;
      if t == null {
        t := kernel.NewTable(qset);
        if t != null {
          AttachTable(qs, t, i);
        }
      }
    }

    /** What a pointer in a table says. */
    lemma SlotIs(i: nat, s: nat)
      requires Valid() && i < |shape.items| && shape.tables[i] != null && s < qset
      ensures s < shape.tables[i].Length
      ensures shape.tables[i][s] == if (i, s) in shape.quanta then shape.quanta[(i, s)] else null
      ensures (i, s) in shape.quanta ==> shape.quanta[(i, s)] in shape.Blocks()
    {
      shape.TablesDiffer(i, quantum, qset);
      assert Points(shape.quanta, i, shape.tables[i]);
    }

    /** Allocates a quantum for position s of the table of item i. */
    method AddQuantum(kernel: Kernel, t: array<array?<Byte>>, ghost i: nat, s: nat) returns (b: array?<Byte>)
      requires Ready(kernel)
      requires i < |shape.items| && t == shape.tables[i] && s < qset && (i, s) !in shape.quanta
      modifies this`shape, kernel`live, t
      ensures Ready(kernel) && Gained(kernel)
      ensures b != null ==> fresh(b) && shape == old(shape).WithQuantum((i, s), b)
      ensures b == null ==> !kernel.plentiful && shape == old(shape)
    {
      assert kernel !in shape.Nodes() && kernel !in shape.Tables();
      hide Valid, Linked, Wired, Shape.Valid, Shape.Blocks, Shape.Nodes, Shape.Tables, Shape.Quanta, Shape.WithQuantum,
           Grown;
      ghost var blocks, live := shape.Blocks(), kernel.live;
      GrownByOne(blocks, live, kernel);
      b := kernel.NewQuantum(quantum);
      if b != null {
        AttachQuantum(t, b, i, s);
        GrownByOne(blocks, live, b);
        assert shape.Blocks() == blocks + {b} && kernel.live == live + {b};
      }
    }

    /** The quantum at position s of the table of item i, allocated if there is none. */
    method EnsureQuantum(kernel: Kernel, t: array<array?<Byte>>, ghost i: nat, s: nat) returns (b: array?<Byte>)
      requires Ready(kernel)
      requires i < |shape.items| && t == shape.tables[i] && s < qset
      modifies this`shape, kernel`live, t
      ensures Ready(kernel) && Gained(kernel)
      ensures shape.items == old(shape.items) && shape.tables == old(shape.tables)
      ensures b != null ==>
                && shape.quanta == old(shape.quanta)[(i, s) := b]
                && (if (i, s) in old(shape.quanta) then b == old(shape.quanta)[(i, s)] else fresh(b))
      ensures b == null ==> !kernel.plentiful && shape == old(shape)
    {
      SlotIs(i, s);
      hide Valid, Ready, Gained, Shape.Blocks;
      b := t[s];
      if b == null {
        b := AddQuantum(kernel, t, i, s);
      } else {
        assert Gained(kernel);
      }
    }

    /** The quantum at position s below item i, allocated if it is not there. */
    method ReserveIn(kernel: Kernel, qs: QuantumSet, ghost i: nat, s: nat) returns (b: array?<Byte>)
      requires Ready(kernel) && s < qset
      requires i < |shape.items| && qs == shape.items[i]
      modifies this`shape, kernel`live, qs`data, if shape.tables[i] == null then {} else {shape.tables[i]}
      ensures Ready(kernel) && Gained(kernel) && size == old(size)
      ensures shape.items == old(shape.items)
      ensures b != null ==>
                && shape.quanta == old(shape.quanta)[(i, s) := b]
                && (if (i, s) in old(shape.quanta) then b == old(shape.quanta)[(i, s)] else fresh(b))
      ensures b == null ==> !kernel.plentiful && shape.quanta == old(shape.quanta)
    {
      hide Valid, Ready, Shape.Valid, Shape.Blocks;
      var t := EnsureTable(kernel, qs, i);
      if t == null {
        return null;
      }
      b := EnsureQuantum(kernel, t, i, s);
    }

    /** Lines 354-368 of `scull_write`: the quantum at position s of item number n, allocated if it
        is not there. */
    method Reserve(kernel: Kernel, n: nat, s: nat) returns (b: array?<Byte>)
      requires Ready(kernel) && Usable() && s < qset
      modifies this`data, this`shape, kernel`live, shape.Nodes(), shape.Tables()
      ensures Ready(kernel) && Gained(kernel) && size == old(size)
      ensures |shape.items| >= |old(shape.items)|
      ensures b == null ==> !kernel.plentiful && shape.quanta == old(shape.quanta)
      ensures b != null ==>
                && |shape.items| == (if n < |old(shape.items)| then |old(shape.items)| else n + 1)
                && shape.quanta == old(shape.quanta)[(n, s) := b]
                && (if (n, s) in old(shape.quanta) then b == old(shape.quanta)[(n, s)] else fresh(b))
    {
      ghost var items, tables, nodes, tabs := shape.items, shape.tables, shape.Nodes(), shape.Tables();
      assert forall i :: 0 <= i < |items| ==> items[i] in nodes;
      assert forall i :: 0 <= i < |tables| && tables[i] != null ==> tables[i] in tabs;
      var qs := Follow(kernel, n);
      if qs == null {
        return null;
      }
      assert qs in nodes || fresh(qs);
      assert shape.tables[n] == null || shape.tables[n] in tabs;
      b := ReserveIn(kernel, qs, n, s);
    }

    /** The quanta of `mem` are in memory as they were. */
    ghost predicate Holds(quanta: map<Key, array<Byte>>, mem: map<Key, seq<Byte>>)
      reads quanta.Values
    {
      mem.Keys == quanta.Keys && forall k :: k in quanta ==> mem[k] == quanta[k][..]
    }

    lemma MemHolds()
      ensures Holds(shape.quanta, Mem())
      ensures forall mem :: Holds(shape.quanta, mem) ==> mem == Mem()
    {
    }

    lemma MemGains(quanta: map<Key, array<Byte>>, mem: map<Key, seq<Byte>>, k: Key, b: array<Byte>)
      requires Holds(quanta, mem) && shape.quanta == quanta[k := b]
      ensures Mem() == mem[k := b[..]]
    {
    }

    /** Reserving a quantum changes no byte that is there. */
    method ReserveMem(kernel: Kernel, n: nat, s: nat) returns (b: array?<Byte>)
      requires Ready(kernel) && Usable() && s < qset
      modifies this`data, this`shape, kernel`live, shape.Nodes(), shape.Tables()
      ensures Ready(kernel) && Gained(kernel) && size == old(size)
      ensures |shape.items| >= |old(shape.items)|
      ensures b == null ==> !kernel.plentiful && Mem() == old(Mem())
      ensures b != null ==>
                && |shape.items| == Max(|old(shape.items)|, n + 1)
                && (n, s) in shape.quanta && shape.quanta[(n, s)] == b
                && ((n, s) in old(shape.quanta) ==> b == old(shape.quanta)[(n, s)])
                && ((n, s) !in old(shape.quanta) ==> fresh(b))
                && Mem() == old(Mem())[(n, s) := b[..]]
                && ((n, s) in old(Mem()) ==> b[..] == old(Mem())[(n, s)])
    {
      ghost var quanta, frame, mem := shape.quanta, shape.Nodes() + shape.Tables(), Mem();
      assert forall k :: k in quanta ==>
        quanta[k] !in frame && quanta[k] as object != this && quanta[k] as object != kernel;
      MemHolds();
      hide *;
      b := Reserve(kernel, n, s);
      assert forall k :: k in quanta ==> unchanged(quanta[k]);
      assert Holds(quanta, mem);
      if b == null {
        MemHolds();
      } else {
        MemGains(quanta, mem, (n, s), b);
      }
    }

    /** `copy_from_user` into a quantum. */
    method CopyIn(b: array<Byte>, q: nat, bytes: seq<Byte>)
      requires q + |bytes| <= b.Length
      modifies b
      ensures Patched(old(b[..]), q, bytes, b[..])
    {
      forall j | 0 <= j < |bytes| {
        b[q + j] := bytes[j];
      }
    }

    /** `copy_from_user` into quantum k changes its bytes and nothing else. */
    method CopyInMem(kernel: Kernel, ghost k: Key, b: array<Byte>, q: nat, bytes: seq<Byte>)
      requires Ready(kernel) && k in shape.quanta && shape.quanta[k] == b
      requires q + |bytes| <= b.Length
      modifies b
      ensures Ready(kernel) && unchanged(this) && unchanged(kernel)
      ensures Patched(old(b[..]), q, bytes, b[..])
      ensures Mem() == old(Mem())[k := b[..]]
    {
      ghost var mem, quanta, frame := Mem(), shape.quanta, shape.Nodes() + shape.Tables();
      assert b !in frame && b as object != this && b as object != kernel;
      assert forall k' :: k' in quanta && k' != k ==> quanta[k'] != b;
      MemHolds();
      hide *;
      CopyIn(b, q, bytes);
      MemChanged(mem, k);
    }

    lemma MemChanged(mem: map<Key, seq<Byte>>, k: Key)
      requires k in shape.quanta && mem.Keys == shape.quanta.Keys
      requires forall k' :: k' in mem && k' != k ==> mem[k'] == shape.quanta[k'][..]
      ensures Mem() == mem[k := shape.quanta[k][..]]
    {
    }

    /** The quantum of pos is there, with `bytes` copied to their offsets; or it could not be had. */
    method Put(kernel: Kernel, pos: nat, n: nat, s: nat, q: nat, bytes: seq<Byte>) returns (ok: bool)
      requires Ready(kernel) && Usable() && Place(n, s, q) == PlaceOf(pos, quantum, qset)
      requires q + |bytes| <= quantum
      modifies this, kernel, shape.Blocks()
      ensures Ready(kernel) && Valid() && Gained(kernel) && size == old(size)
      ensures !ok ==> !kernel.plentiful && Abs().len >= old(Abs()).len && Abs() == old(Abs()).(len := Abs().len)
      ensures ok ==> Stored(old(Abs()), pos, bytes, Abs()) && Abs().len == Max(old(Abs()).len, n + 1)
    {
      ghost var s0, mem, quanta, blocks := Abs(), Mem(), shape.quanta, shape.Blocks();
      assert forall k :: k in quanta ==> quanta[k] in blocks;
      AbsIs();
      assert Valid();
      ghost var k := KeyOf(pos, quantum, qset);
      assert k == (n, s) && q == QPos(pos, quantum) && quantum > 0 && qset > 0;
      hide Valid, Ready, Linked, Abs, Mem, CellsOf, KeyOf, PlaceOf, QPos, MemoryValid, Patched, Stored,
           Shape.Valid, Shape.Blocks, Shape.Nodes, Shape.Tables, Shape.Quanta;
      var b := ReserveMem(kernel, n, s);
      assert Valid() by { ReadyIsValid(kernel); }
      AbsIs();
      if b == null {
        CellsIgnoreLength(mem, quantum, qset, s0.len, |shape.items|);
        return false;
      }
      ghost var held := b[..];
      CopyInMem(kernel, k, b, q, bytes);
      assert Valid() by { ReadyIsValid(kernel); }
      NowStored(s0, mem, pos, k, q, held, bytes, b[..]);
      return true;
    }

    /** The device has stored `bytes` at pos once its memory has them, whatever its quantum held. */
    lemma NowStored(s0: Store, mem: map<Key, seq<Byte>>, pos: nat, k: Key, q: nat,
                    held: seq<Byte>, bytes: seq<Byte>, after: seq<Byte>)
      requires Valid() && Usable() && s0.quantum == quantum && s0.qset == qset
      requires MemoryValid(mem, s0.quantum, s0.qset, s0.len) && s0.cells == CellsOf(mem, s0.quantum, s0.qset, s0.len)
      requires k == KeyOf(pos, s0.quantum, s0.qset) && q == QPos(pos, s0.quantum)
      requires k in mem ==> held == mem[k]
      requires Patched(held, q, bytes, after)
      requires Mem() == mem[k := held][k := after]
      ensures Stored(s0, pos, bytes, Abs())
    {
      AbsIs();
      assert |after| == s0.quantum by {
        assert Mem()[k] == after;
      }
      assert |held| == s0.quantum;
      hide *;
      WrittenTwice(mem, k, held, after);
      MemoryStored(s0, mem, pos, held, bytes, Abs(), after);
    }

    lemma ReadyIsValid(kernel: Kernel)
      requires Ready(kernel)
      ensures Valid() && shape.Blocks() <= kernel.live && kernel !in shape.Blocks()
    {
    }

    /** Lines 381-382 of `scull_write`. */
    method Extend(kernel: Kernel, pos: nat, n: nat)
      requires Ready(kernel) && Usable()
      requires QPos(pos, quantum) + n <= quantum && PlaceOf(pos, quantum, qset).item < |shape.items|
      modifies this`size
      ensures Ready(kernel) && Valid() && size == Max(old(size), pos + n) && Abs() == old(Abs()).(size := size)
    {
      hide *;
      ReadyIsValid(kernel);
      UsableIs();
      Parts();
      AbsIs();
      MemHolds();
      EndInItem(pos, n, quantum, qset);
      CapacityGrows(PlaceOf(pos, quantum, qset).item + 1, |shape.items|, quantum, qset);
      ghost var quanta, mem := shape.quanta, Mem();
      if size < pos + n {
        size := pos + n;
      }
      Whole();
      assert Holds(quanta, mem);
      MemHolds();
      AbsIs();
      ValidIsReady(kernel);
    }

    lemma UsableIs()
      ensures Usable() <==> quantum > 0 && qset > 0
    {
    }

    lemma ValidIsReady(kernel: Kernel)
      requires Valid() && shape.Blocks() <= kernel.live && kernel !in shape.Blocks()
      ensures Ready(kernel)
    {
    }

    /** `scull_write`, with `copied` bytes of user memory readable before a fault.  After a fault
        anything, `pad`, may follow them in the kernel, as far as the copy was to reach. */
    method Write(kernel: Kernel, buf: seq<Byte>, copied: nat, pos: nat)
      returns (r: Outcome, newPos: nat, pad: seq<Byte>)
      requires Ready(kernel) && Fits(quantum, qset, pos) && InFile(pos, |buf|)
      modifies this, kernel, shape.Blocks()
      ensures Ready(kernel) && Gained(kernel)
      ensures WriteStep(old(Abs()), pos, buf, copied, pad, r, Abs())
      ensures newPos == if r.Done? then pos + r.count else pos
      ensures r.Done? ==>
                r.count <= |buf| && (r.count == |buf| || QPos(pos, old(quantum)) + r.count == old(quantum))
      ensures r == Failed(ENOMEM) ==> !kernel.plentiful
      ensures r != Failed(ENOMEM) ==>
                Abs().len == Max(old(Abs()).len, PlaceOf(pos, old(quantum), old(qset)).item + 1)
    {
      ghost var s0 := Abs();
      ReadyIsValid(kernel);
      AbsIs();
      assert Usable() && |shape.items| == s0.len;
      hide Valid, Ready, Linked, Usable, Gained, Grown, Abs, Mem, CellsOf, MemoryValid, Capacity, Fits, Locate, PlaceOf,
           QPos, Stored, WriteStep, Shape.Valid, Shape.Blocks, Shape.Nodes, Shape.Tables, Shape.Quanta;
      var place := Locate(pos, quantum, qset);
      var n, s, q := place.item, place.sPos, place.qPos;
      var count := |buf|;
      if count > quantum - q {
        count := quantum - q;
      }
      var bytes := buf[..count];
      pad := [];
      if copied < count {
        pad := *;
        if copied + |pad| > count {
          pad := [];
        }
        bytes := buf[..copied] + pad;
      }
      var ok := Put(kernel, pos, n, s, q, bytes);
      if !ok {
        WriteFailed(s0, pos, buf, copied, Abs());
        return Failed(ENOMEM), pos, [];
      }
      if copied < count {
        WriteFaulted(s0, pos, buf, copied, pad, count, Abs());
        return Failed(EFAULT), pos, pad;
      }
      newPos := pos + count;
      ghost var s1 := Abs();
      Extend(kernel, pos, count);
      WriteDone(s0, pos, buf, copied, count, s1, Abs());
      r := Done(count);
    }

    /** Lines 315-318 of `scull_read`: the quantum at position s of an item that is there.  Nothing
        is allocated on the way. */
    method Lookup(kernel: Kernel, n: nat, s: nat) returns (b: array?<Byte>)
      requires Ready(kernel) && n < |shape.items| && s < qset
      modifies this`data, this`shape, kernel`live, shape.items`next
      ensures Ready(kernel) && unchanged(this) && unchanged(kernel) && unchanged(shape.items)
      ensures b == if (n, s) in shape.quanta then shape.quanta[(n, s)] else null
    {
      var dptr := Follow(kernel, n);
      if dptr == null || dptr.data == null {
        return null;
      }
      b := dptr.data[s];
    }

    /** The same, as a look into the memory. */
    method LookupMem(kernel: Kernel, n: nat, s: nat) returns (b: array?<Byte>)
      requires Ready(kernel) && n < |shape.items| && s < qset
      modifies this`data, this`shape, kernel`live, shape.items`next
      ensures Ready(kernel) && unchanged(this) && unchanged(kernel) && unchanged(shape.items)
      ensures Mem() == old(Mem())
      ensures b == null <==> (n, s) !in Mem()
      ensures b != null ==> b[..] == Mem()[(n, s)] && |b[..]| == quantum
    {
      ghost var quanta, mem := shape.quanta, Mem();
      assert forall k :: k in quanta ==> quanta[k].Length == quantum;
      MemHolds();
      hide *;
      b := Lookup(kernel, n, s);
      assert Holds(quanta, mem);
      FoundInMem(mem, (n, s));
    }

    lemma FoundInMem(mem: map<Key, seq<Byte>>, k: Key)
      requires Holds(shape.quanta, mem)
      ensures Mem() == mem
      ensures k in mem <==> k in shape.quanta
      ensures k in shape.quanta ==> mem[k] == shape.quanta[k][..]
    {
    }

    /** Lines 315-329 of `scull_read`. */
    method CopyOut(kernel: Kernel, n: nat, s: nat, q: nat, count: nat, room: nat) returns (r: Outcome, out: seq<Byte>)
      requires Ready(kernel) && n < |shape.items| && s < qset && q < quantum
      modifies this`data, this`shape, kernel`live, shape.items`next
      ensures Ready(kernel) && unchanged(this) && unchanged(kernel) && unchanged(shape.items)
      ensures Mem() == old(Mem())
      ensures CopiedOut(Mem(), quantum, (n, s), q, count, room, r, out)
    {
      hide Valid, Ready, Linked, Mem, Shape.Valid, Shape.Blocks, Shape.Nodes, Shape.Tables, Shape.Quanta;
      r, out := Done(0), [];
      var b := LookupMem(kernel, n, s);
      if b == null {
        return;
      }
      var c := count;
      if c > quantum - q {
        c := quantum - q;
      }
      if room < c {
        return Failed(EFAULT), [];
      }
      return Done(c), b[q..q + c];
    }

    /** `scull_read`, with room for `room` bytes of user memory before a fault: it changes nothing. */
    method Read(kernel: Kernel, count: nat, room: nat, pos: nat) returns (r: Outcome, out: seq<Byte>, newPos: nat)
      requires Ready(kernel) && InFile(pos, count) && (pos < size ==> Fits(quantum, qset, pos))
      modifies this`data, this`shape, kernel`live, shape.items`next
      ensures Ready(kernel) && unchanged(this) && unchanged(kernel) && unchanged(shape.items)
      ensures Abs() == old(Abs())
      ensures ReadStep(Abs(), pos, count, room, r, out)
      ensures newPos == if r.Done? then pos + r.count else pos
      ensures r.Done? && r.count > 0 ==> r.count <= count && pos + r.count <= size
      ensures r.Done? && r.count < count && pos + r.count < size && pos in Abs().cells ==>
                QPos(pos, quantum) + r.count == quantum
    {
      hide *;
      ReadyIsValid(kernel);
      Parts();
      AbsIs();
      ghost var s0, mem := Abs(), Mem();
      r, out, newPos := Done(0), [], pos;
      if pos >= size {
        ReadPastEnd(s0, pos, count, room);
        ReadLimits(s0, pos, count, room, r, out);
        return;
      }
      var c: nat := count;
      if pos + count > size {
        c := size - pos;
      }
      FitsIsUsable(quantum, qset, pos);
      UsableIs();
      var place := Locate(pos, quantum, qset);
      ItemInList(pos, quantum, qset, |shape.items|);
      ghost var k := KeyOf(pos, quantum, qset);
      KeyIsPlace(pos, quantum, qset, place);
      r, out := CopyOut(kernel, place.item, place.sPos, place.qPos, c, room);
      if r.Done? {
        newPos := pos + r.count;
      }
      ReadyIsValid(kernel);
      AbsIs();
      UsableStore(s0);
      ReadOutcome(s0, mem, pos, count, room, k, place.qPos, r, out);
      ReadLimits(s0, pos, count, room, r, out);
    }

    lemma UsableStore(s: Store)
      requires s.quantum > 0 && s.qset > 0
      ensures s.Usable()
    {
    }

    lemma KeyIsPlace(pos: nat, quantum: int, qset: int, place: Place)
      requires quantum > 0 && qset > 0 && place == PlaceOf(pos, quantum, qset)
      ensures KeyOf(pos, quantum, qset) == (place.item, place.sPos) && place.qPos == QPos(pos, quantum)
      ensures place.sPos < qset && place.qPos < quantum
    {
    }

    /** Lines 71-72 of `scull_trim`: the quanta of one table. */
    method FreeQuanta(kernel: Kernel, t: array<array?<Byte>>, ghost was: Shape, ghost k: nat, ghost live: set<object>)
      requires was.Valid(quantum, qset) && qset > 0
      requires k < |was.items| && was.tables[k] == t && Points(was.quanta, k, t)
      requires was.Blocks() <= live && kernel.live == live - was.Before(k, 0)
      modifies kernel
      ensures kernel.live == live - was.Before(k, qset)
    {
      assert t.Length == qset;
      var i := 0;
      while i < qset
        invariant 0 <= i <= qset
        invariant kernel.live == live - was.Before(k, i)
      {
        was.BeforeQuantum(k, i, quantum, qset);
        if t[i] != null {
          kernel.Free(t[i]);
        }
        i := i + 1;
      }
    }

    /** Lines 70-77: everything below one item, and the item. */
    method FreeItem(kernel: Kernel, dptr: QuantumSet, ghost was: Shape, ghost k: nat, ghost live: set<object>)
      returns (next: QuantumSet?)
      requires was.Valid(quantum, qset) && qset > 0
      requires k < |was.items| && was.items[k] == dptr && was.tables[k] == dptr.data
      requires dptr.data != null ==> Points(was.quanta, k, dptr.data)
      requires was.Blocks() <= live && kernel.live == live - was.Before(k, 0)
      modifies kernel, dptr`data
      ensures kernel.live == live - was.Before(k + 1, 0)
      ensures next == old(dptr.next)
    {
      was.BeforeItem(k, quantum, qset);
      if dptr.data != null {
        FreeQuanta(kernel, dptr.data, was, k, live);
        kernel.Free(dptr.data);
        dptr.data := null;
      }
      next := dptr.next;
      kernel.Free(dptr);
    }

    /** Lines 69-78 of `scull_trim`. */
    method FreeAll(kernel: Kernel, ghost was: Shape, ghost live: set<object>)
      requires was.Valid(quantum, qset) && (was.items != [] ==> qset > 0)
      requires At(was.items, 0, data) && Chained(was.items, was.tables)
      requires AllPoint(was.quanta, was.tables)
      requires was.Blocks() <= live && kernel.live == live - was.Before(0, 0)
      modifies kernel, was.items
      ensures kernel.live == live - was.Before(|was.items|, 0)
    {
      hide At, Points, Shape.Valid, Shape.Before, Shape.Blocks, Shape.Nodes, Shape.Tables, Shape.Quanta;
      ghost var k := 0;
      var dptr := data;
      while dptr != null
        invariant k <= |was.items| == |was.tables| && At(was.items, k, dptr)
        invariant kernel.live == live - was.Before(k, 0)
        invariant forall i :: k <= i < |was.items| ==> was.items[i].data == was.tables[i]
        invariant forall i :: 0 <= i < |was.items| ==> At(was.items, i + 1, was.items[i].next)
        decreases |was.items| - k
      {
        AtEnd(was.items, k, dptr);
        AtIs(was.items, k, dptr);
        was.ItemsDiffer(k, quantum, qset);
        dptr := FreeItem(kernel, dptr, was, k, live);
        k := k + 1;
      }
      AtEnd(was.items, k, dptr);
    }

    lemma ChainHolds()
      requires Valid()
      ensures At(shape.items, 0, data) && Chained(shape.items, shape.tables)
      ensures AllPoint(shape.quanta, shape.tables)
      ensures shape.Before(0, 0) == {} && shape.Before(|shape.items|, 0) == shape.Blocks()
    {
      shape.BeforeEnds(quantum, qset);
    }

    lemma EmptyIsValid()
      requires shape == Shape([], [], map[]) && data == null && size == 0
      ensures Valid() && Abs() == Store(quantum, qset, 0, 0, map[])
    {
    }

    /** `scull_trim`: frees every block of the device exactly once, walking the tables with the
        geometry they were built with, and takes over the geometry configured now. */
    method Trim(kernel: Kernel, newQuantum: int, newQset: int)
      requires Ready(kernel)
      modifies this, kernel, shape.items
      ensures kernel.live == old(kernel.live) - old(shape.Blocks())
      ensures shape == Shape([], [], map[]) && data == null
      ensures size == 0 && quantum == newQuantum && qset == newQset
      ensures Valid() && Abs() == Store(newQuantum, newQset, 0, 0, map[])
    {
      ChainHolds();
      FreeAll(kernel, shape, kernel.live);
      size, quantum, qset, data := 0, newQuantum, newQset, null;
      shape := Shape([], [], map[]);
      EmptyIsValid();
    }
  }
}
