/** What a scull device stores, as a value: a sparse map from offsets to bytes. */
module StoreSpec {
  import opened Common
  import opened Geometry

  /** `cells` has the bytes of every quantum that is there, written or not. */
  datatype Store = Store(quantum: int, qset: int, size: nat, len: nat, cells: map<nat, Byte>) {

    /** The list covers the size, quanta are whole, and all of them lie inside the list. */
    ghost predicate Valid() {
      && (Usable() || (len == 0 && cells == map[]))
      && size <= Capacity(len, quantum, qset)
      && (forall off :: off in cells ==> off < Capacity(len, quantum, qset))
      && (forall off: nat, off': nat :: off in cells && quantum > 0 && Together(off', off, quantum) ==> off' in cells)
    }

    /** A geometry with which something can be stored. */
    predicate Usable() {
      quantum > 0 && qset > 0
    }

    /** A read stops at the end of the data and at the end of the quantum, and does not fill holes. */
    function ReadCount(pos: nat, count: nat): nat
      requires pos < size ==> quantum > 0
    {
      if pos >= size || pos !in cells then 0
      else Min(Min(count, size - pos), quantum - QPos(pos, quantum))
    }

    /** A write stops at the end of the quantum. */
    function WriteCount(pos: nat, count: nat): nat
      requires quantum > 0
    {
      Min(count, quantum - QPos(pos, quantum))
    }
  }

  /** The bytes at [pos, pos + |bytes|) have become `bytes`; the quantum of pos is there now, with
      whatever its memory held; and no other byte of any quantum has changed. */
  ghost predicate Stored(s: Store, pos: nat, bytes: seq<Byte>, s': Store)
    requires s.quantum > 0
  {
    && s'.quantum == s.quantum && s'.qset == s.qset
    && (forall off: nat :: off in s'.cells <==> off in s.cells || Together(off, pos, s.quantum))
    && (forall off :: pos <= off < pos + |bytes| ==> off in s'.cells && s'.cells[off] == bytes[off - pos])
    && (forall off :: off in s.cells && !(pos <= off < pos + |bytes|) ==>
          off in s'.cells && s'.cells[off] == s.cells[off])
  }

  /** What one write of `data` at pos may do, and what it then returns.  A copy that faults has
      stored the `copied` bytes it could read, and may leave anything, `pad`, in the rest of the
      range it was to fill. */
  ghost predicate WriteStep(s: Store, pos: nat, data: seq<Byte>, copied: nat, pad: seq<Byte>, r: Outcome, s': Store)
    requires s.quantum > 0
  {
    var n := s.WriteCount(pos, |data|);
    match r
    case Failed(ENOMEM) => s' == s.(len := s'.len) && s'.len >= s.len
    case Failed(EFAULT) =>
      copied + |pad| <= n && copied < n && Stored(s, pos, data[..copied] + pad, s') && s'.size == s.size
    case Done(count) =>
      && count == n <= copied
      && Stored(s, pos, data[..n], s')
      && s'.size == if s.size < pos + n then pos + n else s.size
    case _ => false
  }

  lemma WriteFailed(s: Store, pos: nat, data: seq<Byte>, copied: nat, s': Store)
    requires s.quantum > 0 && s' == s.(len := s'.len) && s'.len >= s.len
    ensures WriteStep(s, pos, data, copied, [], Failed(ENOMEM), s')
  {
  }

  lemma WriteFaulted(s: Store, pos: nat, data: seq<Byte>, copied: nat, pad: seq<Byte>, n: nat, s': Store)
    requires s.quantum > 0 && n == s.WriteCount(pos, |data|) && copied < n && copied + |pad| <= n
    requires Stored(s, pos, data[..copied] + pad, s') && s'.size == s.size
    ensures WriteStep(s, pos, data, copied, pad, Failed(EFAULT), s')
  {
  }

  /** The size catches up with the end of what was stored. */
  lemma WriteDone(s: Store, pos: nat, data: seq<Byte>, copied: nat, n: nat, s1: Store, s2: Store)
    requires s.quantum > 0 && n == s.WriteCount(pos, |data|) && n <= copied
    requires Stored(s, pos, data[..n], s1) && s1.size == s.size
    requires s2 == s1.(size := Max(s.size, pos + n))
    ensures WriteStep(s, pos, data, copied, [], Done(n), s2)
  {
  }

  /** What one read does: it changes nothing, so only its result is described. */
  ghost predicate ReadStep(s: Store, pos: nat, count: nat, room: nat, r: Outcome, out: seq<Byte>)
    requires pos < s.size ==> s.quantum > 0
  {
    var n := s.ReadCount(pos, count);
    && r == (if room < n then Failed(EFAULT) else Done(n))
    && |out| == (if r.Done? then n else 0)
    && forall i :: 0 <= i < |out| ==> HasByte(s.cells, pos + i, out[i])
  }

  /** A read returns no more than it is asked for and than there is, and stops short only at the end of
      the data, at the end of a quantum, or in a hole. */
  lemma ReadLimits(s: Store, pos: nat, count: nat, room: nat, r: Outcome, out: seq<Byte>)
    requires pos < s.size ==> s.quantum > 0
    requires ReadStep(s, pos, count, room, r, out)
    ensures r.Done? && r.count > 0 ==> r.count <= count && pos + r.count <= s.size
    ensures r.Done? && r.count < count && pos + r.count < s.size && pos in s.cells ==>
              QPos(pos, s.quantum) + r.count == s.quantum
  {
    hide QPos;
  }

  lemma ReadPastEnd(s: Store, pos: nat, count: nat, room: nat)
    requires pos >= s.size
    ensures ReadStep(s, pos, count, room, Done(0), [])
  {
  }

  predicate HasByte(cells: map<nat, Byte>, off: nat, b: Byte) {
    off in cells && cells[off] == b
  }

  /** List item and position in its table. */
  type Key = (nat, nat)

  function KeyOf(off: nat, quantum: int, qset: int): Key
    requires quantum > 0 && qset > 0
  {
    var p := PlaceOf(off, quantum, qset);
    (p.item, p.sPos)
  }

  /** The quanta that are there, with their bytes. */
  ghost predicate MemoryValid(mem: map<Key, seq<Byte>>, quantum: int, qset: int, len: nat) {
    && (len > 0 ==> quantum > 0 && qset > 0)
    && forall k :: k in mem ==> k.0 < len && k.1 < qset && |mem[k]| == quantum
  }

  /** The same bytes, by offset. */
  function CellsOf(mem: map<Key, seq<Byte>>, quantum: int, qset: int, len: nat): map<nat, Byte>
    requires MemoryValid(mem, quantum, qset, len)
  {
    if quantum <= 0 || qset <= 0 then map[]
    else
      map off: nat | off < Capacity(len, quantum, qset) && KeyOf(off, quantum, qset) in mem
        :: mem[KeyOf(off, quantum, qset)][QPos(off, quantum)]
  }

  lemma CellIs(mem: map<Key, seq<Byte>>, quantum: int, qset: int, len: nat, off: nat)
    requires quantum > 0 && qset > 0 && MemoryValid(mem, quantum, qset, len)
    ensures var cells, k := CellsOf(mem, quantum, qset, len), KeyOf(off, quantum, qset);
            && (off in cells <==> k in mem)
            && (off in cells ==> QPos(off, quantum) < |mem[k]| && cells[off] == mem[k][QPos(off, quantum)])
  {
    ItemInList(off, quantum, qset, len);
  }

  /** A longer list alone adds no bytes. */
  lemma CellsIgnoreLength(mem: map<Key, seq<Byte>>, quantum: int, qset: int, len: nat, len': nat)
    requires quantum > 0 && qset > 0 && MemoryValid(mem, quantum, qset, len) && MemoryValid(mem, quantum, qset, len')
    ensures CellsOf(mem, quantum, qset, len) == CellsOf(mem, quantum, qset, len')
  {
    var cells, cells' := CellsOf(mem, quantum, qset, len), CellsOf(mem, quantum, qset, len');
    forall off: nat
      ensures off in cells <==> off in cells'
      ensures off in cells ==> cells[off] == cells'[off]
    {
      CellIs(mem, quantum, qset, len, off);
      CellIs(mem, quantum, qset, len', off);
    }
  }

  /** Offsets [pos, pos + n) inside one quantum are n bytes in a row under one key. */
  lemma RangeOfKey(pos: nat, n: nat, quantum: int, qset: int, off: nat)
    requires quantum > 0 && qset > 0 && QPos(pos, quantum) + n <= quantum
    ensures KeyOf(off, quantum, qset) == KeyOf(pos, quantum, qset) <==> Together(off, pos, quantum)
    ensures pos <= off < pos + n <==>
              && KeyOf(off, quantum, qset) == KeyOf(pos, quantum, qset)
              && QPos(pos, quantum) <= QPos(off, quantum) < QPos(pos, quantum) + n
    ensures pos <= off < pos + n ==> off - pos == QPos(off, quantum) - QPos(pos, quantum)
  {
    SameQuantum(pos, n, quantum, qset, off);
  }

  lemma CellsAreWhole(mem: map<Key, seq<Byte>>, quantum: int, qset: int, len: nat, size: nat)
    requires MemoryValid(mem, quantum, qset, len) && size <= Capacity(len, quantum, qset)
    ensures Store(quantum, qset, size, len, CellsOf(mem, quantum, qset, len)).Valid()
  {
    var cells := CellsOf(mem, quantum, qset, len);
    if quantum > 0 && qset > 0 {
      forall off: nat, off': nat | off in cells && Together(off', off, quantum) ensures off' in cells {
        RangeOfKey(off, 0, quantum, qset, off');
        CellIs(mem, quantum, qset, len, off);
        CellIs(mem, quantum, qset, len, off');
      }
    }
  }

  /** `after` is `held` with `bytes` written over it at q. */
  ghost predicate Patched(held: seq<Byte>, q: nat, bytes: seq<Byte>, after: seq<Byte>) {
    && |after| == |held|
    && q + |bytes| <= |held|
    && forall j :: 0 <= j < |held| ==> after[j] == if q <= j < q + |bytes| then bytes[j - q] else held[j]
  }

  lemma OffsetStored(mem: map<Key, seq<Byte>>, quantum: int, qset: int, len: nat,
                     pos: nat, held: seq<Byte>, bytes: seq<Byte>, after: seq<Byte>, len': nat, off: nat)
    requires quantum > 0 && qset > 0 && MemoryValid(mem, quantum, qset, len)
    requires MemoryValid(mem[KeyOf(pos, quantum, qset) := after], quantum, qset, len')
    requires KeyOf(pos, quantum, qset) in mem ==> held == mem[KeyOf(pos, quantum, qset)]
    requires quantum > 0 && |held| == quantum && Patched(held, QPos(pos, quantum), bytes, after)
    ensures var cells := CellsOf(mem, quantum, qset, len);
            var cells' := CellsOf(mem[KeyOf(pos, quantum, qset) := after], quantum, qset, len');
            && (off in cells' <==> off in cells || Together(off, pos, quantum))
            && (pos <= off < pos + |bytes| ==> off in cells' && cells'[off] == bytes[off - pos])
            && (off in cells && !(pos <= off < pos + |bytes|) ==> off in cells' && cells'[off] == cells[off])
  {
    var mem' := mem[KeyOf(pos, quantum, qset) := after];
    CellIs(mem, quantum, qset, len, off);
    CellIs(mem', quantum, qset, len', off);
    RangeOfKey(pos, |bytes|, quantum, qset, off);
    hide PlaceOf, KeyOf, CellsOf, MemoryValid;
  }

  /** Storing `bytes` inside one quantum of memory is storing them at their offsets. */
  lemma MemoryStored(s: Store, mem: map<Key, seq<Byte>>, pos: nat, held: seq<Byte>, bytes: seq<Byte>,
                     s': Store, after: seq<Byte>)
    requires s.Usable() && MemoryValid(mem, s.quantum, s.qset, s.len)
    requires s.cells == CellsOf(mem, s.quantum, s.qset, s.len)
    requires s'.quantum == s.quantum && s'.qset == s.qset
    requires MemoryValid(mem[KeyOf(pos, s.quantum, s.qset) := after], s.quantum, s.qset, s'.len)
    requires s'.cells == CellsOf(mem[KeyOf(pos, s.quantum, s.qset) := after], s.quantum, s.qset, s'.len)
    requires KeyOf(pos, s.quantum, s.qset) in mem ==> held == mem[KeyOf(pos, s.quantum, s.qset)]
    requires |held| == s.quantum && Patched(held, QPos(pos, s.quantum), bytes, after)
    ensures Stored(s, pos, bytes, s')
  {
    hide PlaceOf, KeyOf, CellsOf, MemoryValid, Patched, Together, QPos;
    forall off: nat
      ensures off in s'.cells <==> off in s.cells || Together(off, pos, s.quantum)
      ensures pos <= off < pos + |bytes| ==> off in s'.cells && s'.cells[off] == bytes[off - pos]
      ensures off in s.cells && !(pos <= off < pos + |bytes|) ==> off in s'.cells && s'.cells[off] == s.cells[off]
    {
      OffsetStored(mem, s.quantum, s.qset, s.len, pos, held, bytes, after, s'.len, off);
    }
  }

  lemma ByteRead(mem: map<Key, seq<Byte>>, quantum: int, qset: int, len: nat, pos: nat, n: nat, i: nat)
    requires quantum > 0 && qset > 0 && MemoryValid(mem, quantum, qset, len) && KeyOf(pos, quantum, qset) in mem
    requires QPos(pos, quantum) + n <= quantum && i < n
    ensures var cells, bytes := CellsOf(mem, quantum, qset, len), mem[KeyOf(pos, quantum, qset)];
            && QPos(pos, quantum) + i < |bytes|
            && HasByte(cells, pos + i, bytes[QPos(pos, quantum) + i])
  {
    RangeOfKey(pos, n, quantum, qset, pos + i);
    CellIs(mem, quantum, qset, len, pos + i);
  }

  /** Bytes in a row in one quantum are the bytes at their offsets. */
  lemma BytesRead(mem: map<Key, seq<Byte>>, quantum: int, qset: int, len: nat, pos: nat,
                  k: Key, q: nat, cells: map<nat, Byte>, out: seq<Byte>)
    requires quantum > 0 && qset > 0 && MemoryValid(mem, quantum, qset, len)
    requires cells == CellsOf(mem, quantum, qset, len)
    requires k == KeyOf(pos, quantum, qset) && k in mem
    requires q == QPos(pos, quantum) && q + |out| <= quantum == |mem[k]|
    requires forall i :: 0 <= i < |out| ==> out[i] == mem[k][q + i]
    ensures forall i :: 0 <= i < |out| ==> HasByte(cells, pos + i, out[i])
  {
    hide *;
    forall i | 0 <= i < |out|
      ensures HasByte(cells, pos + i, out[i])
    {
      ByteRead(mem, quantum, qset, len, pos, |out|, i);
    }
  }

  /** At most `count` bytes of quantum k from q on, if it is there, to memory with room for `room`. */
  ghost predicate CopiedOut(mem: map<Key, seq<Byte>>, quantum: int, k: Key, q: nat, count: int, room: nat,
                            r: Outcome, out: seq<Byte>) {
    && (k !in mem ==> r == Done(0) && out == [])
    && (k in mem ==>
          var c := Min(count, quantum - q);
          && |mem[k]| == quantum && 0 <= q && 0 <= c <= quantum - q
          && r == (if room < c then Failed(EFAULT) else Done(c))
          && out == if r.Done? then mem[k][q..q + c] else [])
  }

  /** What a read copies out of one quantum of memory is the read that is specified. */
  lemma ReadOutcome(s: Store, mem: map<Key, seq<Byte>>, pos: nat, count: nat, room: nat,
                    k: Key, q: nat, r: Outcome, out: seq<Byte>)
    requires s.Usable() && MemoryValid(mem, s.quantum, s.qset, s.len)
    requires s.cells == CellsOf(mem, s.quantum, s.qset, s.len)
    requires k == KeyOf(pos, s.quantum, s.qset) && q == QPos(pos, s.quantum) && pos < s.size
    requires CopiedOut(mem, s.quantum, k, q, Min(count, s.size - pos), room, r, out)
    ensures ReadStep(s, pos, count, room, r, out)
  {
    hide KeyOf, CellsOf, QPos, PlaceOf, Capacity, HasByte;
    CellIs(mem, s.quantum, s.qset, s.len, pos);
    if k in mem {
      BytesRead(mem, s.quantum, s.qset, s.len, pos, k, q, s.cells, out);
    }
  }
}
