/** Short writes repeated until everything is stored, short reads repeated until everything is
    back: a device gives back what it was given, at one call for every quantum touched. */
module RoundTrip {
  import opened Common
  import opened Geometry
  import opened StoreSpec
  import opened BlockStore

  /** `bytes` are stored from pos on, wherever quanta and items begin, and nothing else that was
      stored has changed. */
  ghost predicate Covers(s: Store, pos: nat, bytes: seq<Byte>, s': Store) {
    && s'.quantum == s.quantum && s'.qset == s.qset
    && (forall off :: pos <= off < pos + |bytes| ==> off in s'.cells && s'.cells[off] == bytes[off - pos])
    && (forall off :: off in s.cells && !(pos <= off < pos + |bytes|) ==>
          off in s'.cells && s'.cells[off] == s.cells[off])
  }

  lemma CoversMore(s: Store, pos: nat, a: seq<Byte>, s1: Store, b: seq<Byte>, s2: Store)
    requires s1.quantum > 0 && Covers(s, pos, a, s1) && Stored(s1, pos + |a|, b, s2)
    ensures Covers(s, pos, a + b, s2)
  {
    hide Together;
  }

  lemma CoversNext(s: Store, pos: nat, bytes: seq<Byte>, done: nat, n: nat, s1: Store, s2: Store)
    requires s1.quantum > 0 && done + n <= |bytes|
    requires Covers(s, pos, bytes[..done], s1) && Stored(s1, pos + done, bytes[done..done + n], s2)
    ensures Covers(s, pos, bytes[..done + n], s2)
  {
    hide Covers, Stored;
    CoversMore(s, pos, bytes[..done], s1, bytes[done..done + n], s2);
    assert bytes[..done] + bytes[done..done + n] == bytes[..done + n];
  }

  /** How many quanta the offsets [pos, pos + n) lie in. */
  function Touched(pos: nat, n: nat, quantum: int): int
    requires n > 0 ==> quantum > 0
  {
    if n == 0 then 0 else (pos + n - 1) / quantum - pos / quantum + 1
  }

  /** A call that starts where the last one reached the end of a quantum touches one more. */
  lemma OneMoreTouched(pos: nat, done: nat, n: nat, quantum: int)
    requires quantum > 0 && 0 < n <= quantum - QPos(pos + done, quantum)
    requires done == 0 || QPos(pos + done, quantum) == 0
    ensures Touched(pos, done + n, quantum) == Touched(pos, done, quantum) + 1
  {
    var p := pos + done;
    var k, q := p / quantum, p % quantum;
    assert p == k * quantum + q;
    DivUnique(p + n - 1, quantum, k, q + n - 1);
    if done > 0 {
      DivUnique(p - 1, quantum, k - 1, quantum - 1);
    }
  }

  lemma EndsQuantum(p: nat, quantum: int)
    requires quantum > 0
    ensures QPos(p + (quantum - QPos(p, quantum)), quantum) == 0
  {
    var k := p / quantum;
    assert p == k * quantum + p % quantum;
    DivUnique(p + (quantum - p % quantum), quantum, k + 1, 0);
  }

  /** After so many calls `done` of `total` bytes have been handled, and the next call starts where a
      quantum starts. */
  ghost predicate Progress(pos: nat, done: nat, total: nat, quantum: int, calls: nat) {
    && (done > 0 ==> quantum > 0)
    && calls == Touched(pos, done, quantum)
    && (done == total || done == 0 || QPos(pos + done, quantum) == 0)
  }

  lemma NothingYet(s: Store, pos: nat, total: nat)
    ensures Covers(s, pos, [], s) && Progress(pos, 0, total, s.quantum, 0)
  {
  }

  /** One more call, which goes on to the end of its quantum or to the end of the bytes. */
  lemma MoreProgress(pos: nat, done: nat, total: nat, quantum: int, calls: nat, n: nat)
    requires quantum > 0 && done < total && Progress(pos, done, total, quantum, calls)
    requires n == Min(total - done, quantum - QPos(pos + done, quantum))
    ensures 0 < n && done + n <= total && Progress(pos, done + n, total, quantum, calls + 1)
  {
    OneMoreTouched(pos, done, n, quantum);
    EndsQuantum(pos + done, quantum);
  }

  lemma AllDone(pos: nat, total: nat, quantum: int, calls: nat)
    requires Progress(pos, total, total, quantum, calls)
    ensures total > 0 ==> quantum > 0
    ensures calls == Touched(pos, total, quantum)
  {
  }

  /** One write that cannot fail, of what is left after `done` bytes: it stores up to the end of
      the quantum. */
  method WriteOnce(dev: ScullDev, kernel: Kernel, pos: nat, bytes: seq<Byte>, done: nat) returns (n: nat)
    requires dev.Ready(kernel) && kernel.plentiful && done < |bytes|
    requires FitsRange(dev.quantum, dev.qset, pos, |bytes|)
    modifies dev, kernel, dev.shape.Blocks()
    ensures dev.Ready(kernel) && dev.Gained(kernel) && dev.Valid()
    ensures dev.quantum > 0 && 0 < n == Min(|bytes| - done, dev.quantum - QPos(pos + done, dev.quantum))
    ensures old(dev.Abs()).quantum == dev.quantum
    ensures Stored(old(dev.Abs()), pos + done, bytes[done..done + n], dev.Abs())
    ensures dev.size == Max(old(dev.size), pos + done + n)
  {
    hide ScullDev.Valid, ScullDev.Linked, ScullDev.Abs, ScullDev.Mem, Shape.Valid, Shape.Blocks, Shape.Nodes,
         Shape.Tables, Shape.Quanta, Fits, FitsRange, InFile, QPos, Stored;
    var rest := bytes[done..];
    FitsPart(dev.quantum, dev.qset, pos, |bytes|, done);
    dev.ReadyIsValid(kernel);
    dev.AbsIs();
    var r, newPos, pad := dev.Write(kernel, rest, |rest|, pos + done);
    dev.ReadyIsValid(kernel);
    dev.AbsIs();
    n := r.count;
    assert rest[..n] == bytes[done..done + n];
  }

  /** Writes until all of `bytes` is stored; no allocation and no copy fails. */
  method WriteAll(dev: ScullDev, kernel: Kernel, pos: nat, bytes: seq<Byte>) returns (calls: nat)
    requires dev.Ready(kernel) && kernel.plentiful
    requires FitsRange(dev.quantum, dev.qset, pos, |bytes|)
    modifies dev, kernel, dev.shape.Blocks()
    ensures dev.Ready(kernel) && dev.Gained(kernel)
    ensures Covers(old(dev.Abs()), pos, bytes, dev.Abs())
    ensures bytes != [] ==> dev.size == Max(old(dev.size), pos + |bytes|)
    ensures (bytes != [] ==> dev.quantum > 0) && calls == Touched(pos, |bytes|, dev.quantum)
  {
    hide ScullDev.Valid, ScullDev.Linked, ScullDev.Ready, ScullDev.Abs, ScullDev.Mem, Shape.Valid, Shape.Blocks,
         Shape.Nodes, Shape.Tables, Shape.Quanta, Fits, FitsRange, InFile, Touched, Covers, QPos, Stored, Progress;
    dev.ReadyIsValid(kernel);
    dev.AbsIs();
    var done: nat := 0;
    calls := 0;
    ghost var s0 := dev.Abs();
    NothingYet(s0, pos, |bytes|);
    assert bytes[..0] == [];
    while done < |bytes|
      invariant done <= |bytes|
      invariant dev.Ready(kernel) && dev.Gained(kernel) && dev.Valid()
      invariant Covers(s0, pos, bytes[..done], dev.Abs())
      invariant dev.size == if done == 0 then old(dev.size) else Max(old(dev.size), pos + done)
      invariant Progress(pos, done, |bytes|, dev.quantum, calls)
    {
      ghost var s1 := dev.Abs();
      var n := WriteOnce(dev, kernel, pos, bytes, done);
      CoversNext(s0, pos, bytes, done, n, s1, dev.Abs());
      MoreProgress(pos, done, |bytes|, dev.quantum, calls, n);
      done := done + n;
      calls := calls + 1;
    }
    AllDone(pos, |bytes|, dev.quantum, calls);
    assert bytes[..done] == bytes;
  }

  /** All of [pos, pos + n) is stored, before the end of the data. */
  ghost predicate Stocked(s: Store, pos: nat, n: nat) {
    (n == 0 || pos + n <= s.size) && forall off :: pos <= off < pos + n ==> off in s.cells
  }

  /** `out` is what is stored from pos on. */
  ghost predicate IsAt(s: Store, pos: nat, out: seq<Byte>) {
    forall i :: 0 <= i < |out| ==> HasByte(s.cells, pos + i, out[i])
  }

  lemma ReadStocked(s: Store, pos: nat, n: nat, r: Outcome, out: seq<Byte>)
    requires s.quantum > 0 && n > 0 && Stocked(s, pos, n) && ReadStep(s, pos, n, n, r, out)
    ensures r == Done(Min(n, s.quantum - QPos(pos, s.quantum)))
    ensures |out| == r.count && IsAt(s, pos, out)
  {
    assert pos in s.cells;
    hide QPos;
  }

  lemma NothingThere(s: Store, pos: nat)
    ensures IsAt(s, pos, [])
  {
  }

  lemma IsAtMore(s: Store, pos: nat, a: seq<Byte>, b: seq<Byte>)
    requires IsAt(s, pos, a) && IsAt(s, pos + |a|, b)
    ensures IsAt(s, pos, a + b)
  {
    forall i | 0 <= i < |a + b|
      ensures HasByte(s.cells, pos + i, (a + b)[i])
    {
      if i < |a| {
        assert HasByte(s.cells, pos + i, a[i]);
      } else {
        assert HasByte(s.cells, pos + |a| + (i - |a|), b[i - |a|]);
      }
    }
  }

  lemma StockedPart(s: Store, pos: nat, n: nat, done: nat)
    requires Stocked(s, pos, n) && done <= n
    ensures Stocked(s, pos + done, n - done)
  {
  }

  /** One read that cannot fail, of what is left after `done` bytes: it returns what there is up to
      the end of the quantum. */
  method ReadOnce(dev: ScullDev, kernel: Kernel, pos: nat, n: nat, done: nat) returns (out: seq<Byte>)
    requires dev.Ready(kernel) && done < n && FitsRange(dev.quantum, dev.qset, pos, n)
    requires dev.Valid() && Stocked(dev.Abs(), pos, n)
    modifies dev, kernel, dev.shape.items
    ensures dev.Ready(kernel) && unchanged(dev) && dev.Valid() && dev.Abs() == old(dev.Abs())
    ensures dev.quantum > 0 && |out| == Min(n - done, dev.quantum - QPos(pos + done, dev.quantum))
    ensures IsAt(dev.Abs(), pos + done, out)
  {
    hide ScullDev.Valid, ScullDev.Linked, ScullDev.Ready, ScullDev.Abs, ScullDev.Mem, Shape.Valid, Shape.Blocks,
         Shape.Nodes, Shape.Tables, Shape.Quanta, Fits, FitsRange, InFile, QPos, ReadStep, Stocked, IsAt;
    FitsPart(dev.quantum, dev.qset, pos, n, done);
    FitsIsUsable(dev.quantum, dev.qset, pos + done);
    StockedPart(dev.Abs(), pos, n, done);
    dev.AbsIs();
    var r, bytes, newPos := dev.Read(kernel, n - done, n - done, pos + done);
    dev.ReadyIsValid(kernel);
    dev.AbsIs();
    ReadStocked(dev.Abs(), pos + done, n - done, r, bytes);
    out := bytes;
  }

  /** Reads until n bytes are back. */
  method ReadAll(dev: ScullDev, kernel: Kernel, pos: nat, n: nat) returns (out: seq<Byte>, calls: nat)
    requires dev.Ready(kernel) && FitsRange(dev.quantum, dev.qset, pos, n)
    requires dev.Valid() && Stocked(dev.Abs(), pos, n)
    modifies dev, kernel, dev.shape.items
    ensures dev.Ready(kernel) && unchanged(dev) && dev.Valid() && dev.Abs() == old(dev.Abs())
    ensures |out| == n && IsAt(dev.Abs(), pos, out)
    ensures (n > 0 ==> dev.quantum > 0) && calls == Touched(pos, n, dev.quantum)
  {
    hide ScullDev.Valid, ScullDev.Linked, ScullDev.Ready, ScullDev.Abs, ScullDev.Mem, Shape.Valid, Shape.Blocks,
         Shape.Nodes, Shape.Tables, Shape.Quanta, Fits, FitsRange, InFile, Touched, QPos, Stocked, IsAt, Progress;
    out, calls := [], 0;
    ghost var s := dev.Abs();
    dev.AbsIs();
    NothingYet(s, pos, n);
    NothingThere(s, pos);
    while |out| < n
      invariant |out| <= n
      invariant dev.Ready(kernel) && unchanged(dev) && dev.Valid() && dev.Abs() == s
      invariant IsAt(s, pos, out)
      invariant Progress(pos, |out|, n, dev.quantum, calls)
      decreases n - |out|
    {
      var more := ReadOnce(dev, kernel, pos, n, |out|);
      IsAtMore(s, pos, out, more);
      MoreProgress(pos, |out|, n, dev.quantum, calls, |more|);
      out := out + more;
      calls := calls + 1;
    }
    AllDone(pos, n, dev.quantum, calls);
  }

  lemma CoversStocks(s: Store, pos: nat, bytes: seq<Byte>, s': Store, out: seq<Byte>)
    requires Covers(s, pos, bytes, s') && (bytes == [] || pos + |bytes| <= s'.size)
    ensures Stocked(s', pos, |bytes|)
    ensures |out| == |bytes| && IsAt(s', pos, out) ==> out == bytes
  {
    if |out| == |bytes| && IsAt(s', pos, out) {
      forall i | 0 <= i < |out|
        ensures out[i] == bytes[i]
      {
        assert HasByte(s'.cells, pos + i, out[i]);
        assert pos + i in s'.cells && s'.cells[pos + i] == bytes[pos + i - pos];
      }
    }
  }

  /** The round trip: any bytes, any length, any offset. */
  method StoreAndFetch(dev: ScullDev, kernel: Kernel, pos: nat, bytes: seq<Byte>) returns (out: seq<Byte>, calls: nat)
    requires dev.Ready(kernel) && kernel.plentiful
    requires FitsRange(dev.quantum, dev.qset, pos, |bytes|)
    modifies dev, kernel, dev.shape.Blocks()
    ensures dev.Ready(kernel) && out == bytes
    ensures (bytes != [] ==> dev.quantum > 0) && calls == 2 * Touched(pos, |bytes|, dev.quantum)
  {
    hide ScullDev.Valid, ScullDev.Linked, ScullDev.Ready, ScullDev.Abs, ScullDev.Mem, Shape.Valid, Shape.Blocks,
         Shape.Nodes, Shape.Tables, Shape.Quanta, Fits, FitsRange, InFile, Touched, Covers, Stocked, IsAt, QPos;
    dev.ReadyIsValid(kernel);
    ghost var s0 := dev.Abs();
    var writes := WriteAll(dev, kernel, pos, bytes);
    dev.shape.NodesAreBlocks();
    dev.ReadyIsValid(kernel);
    dev.AbsIs();
    CoversStocks(s0, pos, bytes, dev.Abs(), []);
    var fetches;
    out, fetches := ReadAll(dev, kernel, pos, |bytes|);
    CoversStocks(s0, pos, bytes, dev.Abs(), out);
    calls := writes + fetches;
  }
}
