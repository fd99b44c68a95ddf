/** Where an offset of a scull device lives: which list item, which pointer of its table, which
    byte of the quantum.  Computed as the driver does, in C's 32-bit `int`. */
module Geometry {

  const INT_MAX := 0x7fff_ffff
  const LONG_MAX := 0x7fff_ffff_ffff_ffff

  /** Conversion to a 32-bit `int`. */
  function AsInt(x: int): int {
    (x + 0x8000_0000) % 0x1_0000_0000 - 0x8000_0000
  }

  lemma AsIntExact(x: int)
    ensures AsInt(x) == x <==> -0x8000_0000 <= x <= INT_MAX
  {
  }

  lemma AsIntBounded(x: int)
    ensures -0x8000_0000 <= AsInt(x) <= INT_MAX
    ensures (AsInt(x) - x) % 0x1_0000_0000 == 0
  {
  }

  function Magnitude(x: int): nat {
    if x < 0 then -x else x
  }

  /** A location inside the device: list item, position in its table, position in the quantum. */
  datatype Place = Place(item: nat, sPos: nat, qPos: nat)

  /** The position of an offset in its quantum. */
  function QPos(off: nat, quantum: int): (q: nat)
    requires quantum > 0
    ensures q < quantum
  {
    off % quantum
  }

  /** The place of an offset in unbounded arithmetic. */
  function PlaceOf(off: nat, quantum: int, qset: int): (p: Place)
    requires quantum > 0 && qset > 0
    ensures p.sPos < qset && p.qPos == QPos(off, quantum)
  {
    var k := off / quantum;
    Place(k / qset, k % qset, QPos(off, quantum))
  }

  lemma MulKeepsOrder(a: int, b: int, d: int)
    requires a <= b && d >= 0
    ensures a * d <= b * d
  {
    assert (b - a) * d >= 0;
  }

  lemma QuotientUnique(d: int, q: int, r: int, q': int, r': int)
    requires 0 <= r < d && 0 <= r' < d && q * d + r == q' * d + r'
    ensures q == q' && r == r'
  {
    if q < q' {
      MulKeepsOrder(q + 1, q', d);
    } else if q' < q {
      MulKeepsOrder(q' + 1, q, d);
    }
  }

  lemma DivUnique(a: int, d: int, quot: int, rem: int)
    requires 0 <= rem < d && a == quot * d + rem
    ensures a / d == quot && a % d == rem
  {
    QuotientUnique(d, a / d, a % d, quot, rem);
  }

  /** Two offsets have the same place only if they are the same, and every place within the
      geometry is the place of an offset. */
  lemma PlacesAreOffsets(p: Place, quantum: int, qset: int)
    requires p.sPos < qset && p.qPos < quantum
    ensures PlaceOf((p.item * qset + p.sPos) * quantum + p.qPos, quantum, qset) == p
    ensures forall off: nat :: PlaceOf(off, quantum, qset) == p ==>
              off == (p.item * qset + p.sPos) * quantum + p.qPos
  {
    var k := p.item * qset + p.sPos;
    DivUnique(k * quantum + p.qPos, quantum, k, p.qPos);
    DivUnique(k, qset, p.item, p.sPos);
    forall off: nat | PlaceOf(off, quantum, qset) == p
      ensures off == k * quantum + p.qPos
    {
      var k' := off / quantum;
      assert k' == qset * (k' / qset) + k' % qset;
      assert off == quantum * k' + off % quantum;
    }
  }

  /** The driver's own computation finds the place. */
  lemma DriverFindsPlace(off: nat, quantum: int, qset: int)
    requires quantum > 0 && qset > 0 && quantum * qset > 0
    ensures var rest := off % (quantum * qset);
            PlaceOf(off, quantum, qset) == Place(off / (quantum * qset), rest / quantum, rest % quantum)
  {
    var itemsize := quantum * qset;
    var item, rest := off / itemsize, off % itemsize;
    var s, q := rest / quantum, rest % quantum;
    assert off == itemsize * item + rest;
    assert rest == quantum * s + q;
    assert s < qset by {
      if s >= qset {
        MulKeepsOrder(qset, s, quantum);
      }
    }
    assert off == (item * qset + s) * quantum + q by {
      assert itemsize * item == (item * qset) * quantum;
      assert (item * qset + s) * quantum == (item * qset) * quantum + s * quantum;
    }
    PlacesAreOffsets(Place(item, s, q), quantum, qset);
  }

  /** Two offsets in the same quantum. */
  predicate Together(off: nat, off': nat, quantum: int)
    requires quantum > 0
  {
    off / quantum == off' / quantum
  }

  /** A run of offsets that stays inside one quantum. */
  lemma SameQuantum(pos: nat, n: nat, quantum: int, qset: int, off: nat)
    requires quantum > 0 && qset > 0 && QPos(pos, quantum) + n <= quantum
    ensures var p, o := PlaceOf(pos, quantum, qset), PlaceOf(off, quantum, qset);
            && (o.item == p.item && o.sPos == p.sPos <==> Together(off, pos, quantum))
            && (pos <= off < pos + n <==>
                  Together(off, pos, quantum) && p.qPos <= o.qPos < p.qPos + n)
            && (pos <= off < pos + n ==> off - pos == o.qPos - p.qPos)
  {
    var k, k' := pos / quantum, off / quantum;
    assert k == qset * (k / qset) + k % qset;
    assert k' == qset * (k' / qset) + k' % qset;
    assert pos == quantum * k + pos % quantum;
    assert off == quantum * k' + off % quantum;
    if pos <= off < pos + n {
      DivUnique(off, quantum, k, off - quantum * k);
    }
  }

  /** How many offsets n items have. */
  function Capacity(n: nat, quantum: int, qset: int): int {
    n * (quantum * qset)
  }

  lemma CapacityGrows(n: nat, m: nat, quantum: int, qset: int)
    requires n <= m && quantum > 0 && qset > 0
    ensures Capacity(n, quantum, qset) <= Capacity(m, quantum, qset)
  {
    MulKeepsOrder(n, m, quantum * qset);
  }

  /** Offsets below the size of the list are in its items. */
  lemma ItemInList(off: nat, quantum: int, qset: int, len: nat)
    requires quantum > 0 && qset > 0
    ensures off < Capacity(len, quantum, qset) <==> PlaceOf(off, quantum, qset).item < len
  {
    var itemsize := quantum * qset;
    assert itemsize > 0;
    DriverFindsPlace(off, quantum, qset);
    DivBelow(off, itemsize, len);
  }

  lemma DivBelow(a: nat, d: int, n: nat)
    requires d > 0
    ensures a < n * d <==> a / d < n
  {
    var q := a / d;
    assert a == d * q + a % d;
    if q < n {
      MulKeepsOrder(q + 1, n, d);
    } else {
      MulKeepsOrder(n, q, d);
    }
  }

  lemma DivMonotone(a: nat, b: nat, d: int)
    requires a <= b && d > 0
    ensures a / d <= b / d
  {
    DivBelow(a, d, b / d + 1);
    DivBelow(b, d, b / d + 1);
  }

  /** A run of offsets inside one quantum ends inside its item. */
  lemma EndInItem(pos: nat, n: nat, quantum: int, qset: int)
    requires quantum > 0 && qset > 0 && QPos(pos, quantum) + n <= quantum
    ensures pos + n <= Capacity(PlaceOf(pos, quantum, qset).item + 1, quantum, qset)
  {
    var last := if n == 0 then pos else pos + n - 1;
    SameQuantum(pos, n, quantum, qset, last);
    ItemInList(last, quantum, qset, PlaceOf(pos, quantum, qset).item + 1);
  }

  // ----- the driver's own computation -----

  /** What lines 310-312 and 350-352 come to: three `int`s, or a division by zero. */
  datatype Computed = DividesByZero | Computed(item: int, sPos: int, qPos: int)

  /** The driver's `itemsize`. */
  function ItemSize(quantum: int, qset: int): int {
    AsInt(quantum * qset)
  }

  /** The computation in C.  Dividends are not negative, so that `/` and `%` round as C's do. */
  function Compute(pos: nat, quantum: int, qset: int): Computed {
    var itemsize := ItemSize(quantum, qset);
    if itemsize == 0 || quantum == 0 then DividesByZero
    else
      var item, rest := AsInt(pos / itemsize), AsInt(pos % itemsize);
      Computed(item, rest / quantum, rest % quantum)
  }

  /** The computation finds the place of the offset. */
  predicate FindsPlace(pos: nat, quantum: int, qset: int)
    requires quantum > 0 && qset > 0
  {
    var p := PlaceOf(pos, quantum, qset);
    Compute(pos, quantum, qset) == Computed(p.item, p.sPos, p.qPos)
  }

  /** What the driver needs of a geometry and of an offset, and never checks itself: an item size
      that is an `int`, and then an item number that is; or else an offset in the first item, as
      far as the wrapped item size reaches. */
  predicate Fits(quantum: int, qset: int, pos: int) {
    && 0 < quantum <= INT_MAX && 0 < qset <= INT_MAX && 0 <= pos <= LONG_MAX
    && if quantum * qset <= INT_MAX then pos / (quantum * qset) <= INT_MAX
       else pos < Magnitude(ItemSize(quantum, qset))
  }

  lemma ItemSizeExact(quantum: int, qset: int)
    requires 0 < quantum && 0 < qset
    ensures 0 < quantum * qset
    ensures ItemSize(quantum, qset) == quantum * qset <==> quantum * qset <= INT_MAX
    ensures Magnitude(ItemSize(quantum, qset)) <= 0x8000_0000
  {
    MulKeepsOrder(1, qset, quantum);
    AsIntExact(quantum * qset);
  }

  /** With an item size that is an `int`, the computation is right up to the largest item number. */
  lemma FindsPlaceUnwrapped(quantum: int, qset: int, pos: nat)
    requires 0 < quantum <= INT_MAX && 0 < qset <= INT_MAX && quantum * qset <= INT_MAX
    ensures FindsPlace(pos, quantum, qset) <==> pos / (quantum * qset) <= INT_MAX
  {
    ItemSizeExact(quantum, qset);
    DriverFindsPlace(pos, quantum, qset);
    AsIntExact(pos / (quantum * qset));
    AsIntExact(pos % (quantum * qset));
  }

  lemma SmallQuotient(a: nat, d: int)
    requires a < Magnitude(d)
    ensures a / d == 0 && a % d == a
  {
    assert a == d * (a / d) + a % d;
    if d < 0 {
      DivUnique(a, -d, -(a / d), a % d);
      DivUnique(a, -d, 0, a);
    } else {
      DivUnique(a, d, 0, a);
    }
  }

  /** Dividing by a negative number of smaller magnitude. */
  lemma SignOfQuotient(a: nat, d: int)
    requires d < 0 && a >= -d
    ensures a / d == -(a / -d) < 0
    ensures a % d == a % -d
  {
    assert a == d * (a / d) + a % d;
    DivUnique(a, -d, -(a / d), a % d);
    DivBelow(a, -d, 1);
  }

  /** Only the first item begins at the same offset for two item sizes. */
  lemma SplitsAlike(pos: nat, quantum: int, product: int, w: int, item: int, rest: nat)
    requires quantum > 0 && product > w && product > 0
    requires pos == w * item + rest && item == pos / product
    requires rest / quantum == pos % product / quantum && rest % quantum == pos % product % quantum
    ensures item == 0
  {
    assert rest == quantum * (rest / quantum) + rest % quantum;
    assert pos % product == quantum * (pos % product / quantum) + pos % product % quantum;
    assert pos == product * item + rest;
    assert (product - w) * item == product * item - w * item == 0;
  }

  /** What the computation and the place are made of, in an item size w. */
  lemma Unfolded(pos: nat, quantum: int, qset: int, w: int)
    requires quantum > 0 && qset > 0 && w == ItemSize(quantum, qset) != 0
    ensures quantum * qset > 0
    ensures FindsPlace(pos, quantum, qset) <==>
              && AsInt(pos / w) == pos / (quantum * qset)
              && AsInt(pos % w) / quantum == pos % (quantum * qset) / quantum
              && AsInt(pos % w) % quantum == pos % (quantum * qset) % quantum
  {
    ItemSizeExact(quantum, qset);
    DriverFindsPlace(pos, quantum, qset);
  }

  /** With an item size that has wrapped, offsets below it are found in the first item. */
  lemma FindsPlaceBelow(quantum: int, qset: int, pos: nat)
    requires 0 < quantum <= INT_MAX && 0 < qset <= INT_MAX && quantum * qset > INT_MAX
    requires pos < Magnitude(ItemSize(quantum, qset))
    ensures FindsPlace(pos, quantum, qset)
  {
    var w, product := ItemSize(quantum, qset), quantum * qset;
    ItemSizeExact(quantum, qset);
    Unfolded(pos, quantum, qset, w);
    hide ItemSize, FindsPlace, PlaceOf, Compute;
    SmallQuotient(pos, w);
    SmallQuotient(pos, product);
    AsIntExact(pos);
    AsIntExact(0);
  }

  /** Offsets above it are not: a negative item size makes the item number negative, ... */
  lemma MissesPlaceNegative(pos: nat, product: int, w: int)
    requires 0 < product && -0x8000_0000 <= w < 0 && -w <= pos && pos / -w <= INT_MAX
    ensures AsInt(pos / w) != pos / product
  {
    hide AsInt;
    SignOfQuotient(pos, w);
    QuotientNotNegative(pos, product);
    AsIntExact(pos / w);
  }

  /** ... and a positive one finds a later item than the first. */
  lemma MissesPlacePositive(pos: nat, quantum: int, product: int, w: int)
    requires 0 < quantum && 0 < w <= INT_MAX < product && w <= pos && pos / w <= INT_MAX
    ensures !(&& AsInt(pos / w) == pos / product
              && AsInt(pos % w) / quantum == pos % product / quantum
              && AsInt(pos % w) % quantum == pos % product % quantum)
  {
    hide AsInt;
    var item, rest := pos / w, pos % w;
    assert pos == w * item + rest;
    QuotientNotNegative(pos, w);
    AsIntExact(item);
    AsIntExact(rest);
    DivBelow(pos, w, 1);
    if item == pos / product && rest / quantum == pos % product / quantum && rest % quantum == pos % product % quantum {
      SplitsAlike(pos, quantum, product, w, item, rest);
    }
  }

  lemma MissesPlaceAbove(quantum: int, qset: int, pos: nat)
    requires 0 < quantum <= INT_MAX && 0 < qset <= INT_MAX && quantum * qset > INT_MAX
    requires 0 < Magnitude(ItemSize(quantum, qset)) <= pos
    requires pos / Magnitude(ItemSize(quantum, qset)) <= INT_MAX
    ensures !FindsPlace(pos, quantum, qset)
  {
    var w, product := ItemSize(quantum, qset), quantum * qset;
    ItemSizeExact(quantum, qset);
    AsIntBounded(product);
    Unfolded(pos, quantum, qset, w);
    hide ItemSize, FindsPlace, PlaceOf, Compute, AsInt;
    if w < 0 {
      MissesPlaceNegative(pos, product, w);
    } else {
      MissesPlacePositive(pos, quantum, product, w);
    }
  }

  lemma QuotientNotNegative(a: nat, d: int)
    requires d > 0
    ensures a / d >= 0
  {
  }

  /** The driver's computation, for every geometry and every offset: it divides by zero exactly when
      the item size wraps to zero; and as long as quotients are `int`s, or the item size has not
      wrapped, it finds the place of the offset exactly when geometry and offset fit. */
  lemma FindsPlaceIff(quantum: int, qset: int, pos: nat)
    requires 0 < quantum <= INT_MAX && 0 < qset <= INT_MAX && pos <= LONG_MAX
    ensures var w := ItemSize(quantum, qset);
            && (Compute(pos, quantum, qset) == DividesByZero <==> w == 0)
            && (w == 0 ==> !Fits(quantum, qset, pos))
            && (w != 0 && (quantum * qset <= INT_MAX || pos / Magnitude(w) <= INT_MAX) ==>
                  (FindsPlace(pos, quantum, qset) <==> Fits(quantum, qset, pos)))
    ensures Fits(quantum, qset, pos) ==> FindsPlace(pos, quantum, qset)
  {
    var w := ItemSize(quantum, qset);
    ItemSizeExact(quantum, qset);
    hide Compute, FindsPlace, PlaceOf, ItemSize;
    if quantum * qset <= INT_MAX {
      FindsPlaceUnwrapped(quantum, qset, pos);
    } else if pos < Magnitude(w) {
      FindsPlaceBelow(quantum, qset, pos);
    } else if w != 0 && pos / Magnitude(w) <= INT_MAX {
      MissesPlaceAbove(quantum, qset, pos);
    }
    assert Compute(pos, quantum, qset) == DividesByZero <==> w == 0 by { DividesByZeroIff(quantum, qset, pos); }
  }

  lemma DividesByZeroIff(quantum: int, qset: int, pos: nat)
    requires quantum > 0
    ensures Compute(pos, quantum, qset) == DividesByZero <==> ItemSize(quantum, qset) == 0
  {
  }

  /** Both errors can cancel out: with an item size that wraps to 1 and an item number that wraps
      to 1, the place is right although neither fits. */
  lemma TwoWrapsCancel()
    ensures var quantum, qset := 641, 6700417;
            && ItemSize(quantum, qset) == 1
            && !Fits(quantum, qset, quantum * qset)
            && FindsPlace(quantum * qset, quantum, qset)
  {
  }

  /** A file position and a count as the kernel hands them to a driver. */
  predicate InFile(pos: int, count: int) {
    0 <= pos && 0 <= count && pos + count <= LONG_MAX
  }

  /** All offsets of a range fit. */
  predicate FitsRange(quantum: int, qset: int, pos: int, n: int) {
    InFile(pos, n) && (n > 0 ==> Fits(quantum, qset, pos + n - 1))
  }

  lemma FitsIsUsable(quantum: int, qset: int, pos: int)
    requires Fits(quantum, qset, pos)
    ensures quantum > 0 && qset > 0 && pos >= 0
  {
  }

  lemma FitsBelow(quantum: int, qset: int, pos: nat, last: nat)
    requires Fits(quantum, qset, last) && pos <= last
    ensures Fits(quantum, qset, pos)
  {
    if quantum * qset <= INT_MAX {
      ItemSizeExact(quantum, qset);
      DivMonotone(pos, last, quantum * qset);
    }
  }

  /** What is left of a range, and its first offset. */
  lemma FitsPart(quantum: int, qset: int, pos: nat, n: nat, from: nat)
    requires FitsRange(quantum, qset, pos, n) && from < n
    ensures FitsRange(quantum, qset, pos + from, n - from)
    ensures Fits(quantum, qset, pos + from) && InFile(pos + from, n - from)
  {
    FitsBelow(quantum, qset, pos + from, pos + n - 1);
  }

  /** The place of an offset, as the driver computes it. */
  function Locate(pos: nat, quantum: int, qset: int): (p: Place)
    requires Fits(quantum, qset, pos)
    ensures p == PlaceOf(pos, quantum, qset)
  {
    FindsPlaceIff(quantum, qset, pos);
    var c := Compute(pos, quantum, qset);
    Place(c.item, c.sPos, c.qPos)
  }
}
