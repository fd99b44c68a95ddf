/** The circular buffer of a scull pipe as a value, and its meaning as a bounded FIFO.

    Pointers are offsets from `dev->buffer`.  The queue is what lies between the read and the
    write pointer, wrapping at the end of the buffer; one slot always stays free, so that
    `rp == wp` can only mean "empty". */
module RingBuffer {
  import opened Common

  datatype Ring = Ring(buf: seq<Byte>, rp: nat, wp: nat) {

    /** Both pointers lie in [buffer, end); the driver needs room for at least one byte. */
    predicate Valid() {
      |buf| >= 2 && rp < |buf| && wp < |buf|
    }

    /** The bytes that are waiting, oldest first. */
    function Queue(): seq<Byte>
      requires Valid()
    {
      if rp <= wp then buf[rp..wp] else buf[rp..] + buf[..wp]
    }

    /** The most the buffer can ever hold. */
    function Capacity(): int {
      |buf| - 1
    }

    /** `spacefree`, as the driver computes it. */
    function SpaceFree(): int
      requires Valid()
    {
      if rp == wp then |buf| - 1 else (rp + |buf| - wp) % |buf| - 1
    }

    predicate Empty() {
      rp == wp
    }

    /** The write pointer is right behind the read pointer. */
    predicate Full()
      requires Valid()
    {
      Advance(wp, 1) == rp
    }

    /** How much one read takes: never past the physical end of the buffer. */
    function ReadCount(count: nat): nat
      requires Valid()
    {
      Min(count, Min(|Queue()|, |buf| - rp))
    }

    /** How much one write accepts: never past the physical end of the buffer. */
    function WriteCount(count: nat): nat
      requires Valid()
    {
      Min(count, Min(Capacity() - |Queue()|, |buf| - wp))
    }

    /** A pointer moved on by n, wrapped when it reaches the end. */
    function Advance(at: nat, n: nat): nat
      requires at + n <= |buf|
    {
      if at + n == |buf| then 0 else at + n
    }

    function AfterRead(count: nat): Ring
      requires Valid()
    {
      this.(rp := Advance(rp, ReadCount(count)))
    }

    /** Memory after `data` has been copied to the write pointer, which has not moved yet. */
    function AfterCopy(data: seq<Byte>): Ring
      requires Valid() && wp + |data| <= |buf|
    {
      this.(buf := buf[..wp] + data + buf[wp + |data|..])
    }

    function AfterWrite(data: seq<Byte>): Ring
      requires Valid()
    {
      var n := WriteCount(|data|);
      AfterCopy(data[..n]).(wp := Advance(wp, n))
    }
  }

  lemma RemainderOnce(x: int, n: int)
    requires 0 < n <= x < 2 * n
    ensures x % n == x - n
  {
  }

  lemma RemainderNone(x: int, n: int)
    requires 0 <= x < n
    ensures x % n == x
  {
  }

  /** Queue length and free space always add up to one less than the buffer size, wrapped or not. */
  lemma SpaceIsCapacityMinusQueue(r: Ring)
    requires r.Valid()
    ensures |r.Queue()| + r.SpaceFree() == |r.buf| - 1
    ensures r.SpaceFree() >= 0
    ensures r.Empty() <==> r.Queue() == []
    ensures r.Full() <==> r.SpaceFree() == 0
  {
    var n := |r.buf|;
    if r.rp < r.wp {
      RemainderNone(r.rp + n - r.wp, n);
    } else if r.wp < r.rp {
      RemainderOnce(r.rp + n - r.wp, n);
    }
  }

  /** A read takes no more than it is asked for, and less only when nothing more is queued or the end of
      the buffer is reached. */
  lemma ReadTakesAllItCan(r: Ring, count: nat)
    requires r.Valid()
    ensures var n := r.ReadCount(count);
            && n <= count && n <= |r.Queue()| && r.rp + n <= |r.buf|
            && (n == count || n == |r.Queue()| || r.rp + n == |r.buf|)
  {
  }

  /** A write accepts no more than it is offered, and less only when the buffer is full then or the end
      of the buffer is reached. */
  lemma WriteAcceptsAllItCan(r: Ring, count: nat)
    requires r.Valid()
    ensures var n := r.WriteCount(count);
            && n <= count && |r.Queue()| + n <= |r.buf| - 1 && r.wp + n <= |r.buf|
            && (n == count || |r.Queue()| + n == |r.buf| - 1 || r.wp + n == |r.buf|)
  {
    SpaceIsCapacityMinusQueue(r);
  }

  /** A read takes a prefix of the queue and leaves the rest. */
  lemma ReadTakesPrefix(r: Ring, count: nat)
    requires r.Valid()
    ensures var n := r.ReadCount(count);
            && n <= |r.Queue()| && n <= count
            && (n == count || n == |r.Queue()| || r.rp + n == |r.buf|)
            && r.AfterRead(count).Valid()
            && r.buf[r.rp..r.rp + n] == r.Queue()[..n]
            && r.AfterRead(count).Queue() == r.Queue()[n..]
    ensures r.ReadCount(count) == 0 <==> count == 0 || r.Empty()
  {
    var n := r.ReadCount(count);
    var a := r.AfterRead(count);
    assert n <= |r.Queue()|;
    if r.rp + n == |r.buf| {
      assert a.rp == 0;
      assert a.Queue() == r.buf[..r.wp] == r.Queue()[n..];
    } else {
      if r.rp <= r.wp {
        assert a.Queue() == r.buf[r.rp + n..r.wp] == r.Queue()[n..];
      } else {
        assert a.Queue() == r.buf[r.rp + n..] + r.buf[..r.wp] == r.Queue()[n..];
      }
    }
    assert r.buf[r.rp..r.rp + n] == r.Queue()[..n];
  }

  lemma AcceptsLess(r: Ring, count: nat, n: nat)
    requires r.Valid() && n <= r.WriteCount(count)
    ensures r.WriteCount(n) == n <= count
  {
  }

  /** Copying into the free space behind the write pointer disturbs nothing that is queued. */
  lemma CopyKeepsQueue(r: Ring, data: seq<Byte>)
    requires r.Valid() && |data| <= r.WriteCount(|data|)
    ensures r.wp + |data| <= |r.buf|
    ensures r.AfterCopy(data).Valid()
    ensures r.AfterCopy(data).Queue() == r.Queue()
    ensures r.AfterCopy(data).SpaceFree() == r.SpaceFree()
  {
    var a := r.AfterCopy(data);
    assert |a.buf| == |r.buf|;
    if r.rp <= r.wp {
      assert a.Queue() == r.Queue();
    } else {
      assert r.wp + |data| < r.rp;
      assert a.buf[r.rp..] == r.buf[r.rp..];
      assert a.buf[..r.wp] == r.buf[..r.wp];
    }
  }

  lemma AdvanceAppendsAhead(m: Ring, n: nat)
    requires m.Valid() && m.rp <= m.wp && n <= m.WriteCount(n)
    ensures m.wp + n <= |m.buf|
    ensures m.(wp := m.Advance(m.wp, n)).Queue() == m.Queue() + m.buf[m.wp..m.wp + n]
  {
    var b, a := m.buf, m.(wp := m.Advance(m.wp, n));
    Adjoin(b, m.rp, m.wp, m.wp + n);
    if m.wp + n == |b| {
      assert m.rp != 0;
      assert b[m.rp..] == b[m.rp..m.wp + n] && b[..0] == [];
    }
  }

  lemma AdvanceAppendsBehind(m: Ring, n: nat)
    requires m.Valid() && m.wp < m.rp && n <= m.WriteCount(n)
    ensures m.wp + n < m.rp
    ensures m.(wp := m.Advance(m.wp, n)).Queue() == m.Queue() + m.buf[m.wp..m.wp + n]
  {
    var front, more, tail := m.buf[..m.wp], m.buf[m.wp..m.wp + n], m.buf[m.rp..];
    assert m.buf[..m.wp + n] == front + more;
    assert tail + (front + more) == (tail + front) + more;
    assert m.Queue() == tail + front;
    assert m.(wp := m.Advance(m.wp, n)).Queue() == tail + (front + more);
  }

  /** What the queue is once the write pointer has moved over n freshly copied bytes. */
  lemma AdvanceAppends(m: Ring, n: nat)
    requires m.Valid() && n <= m.WriteCount(n)
    ensures m.wp + n <= |m.buf|
    ensures var a := m.(wp := m.Advance(m.wp, n));
            a.Valid() && a.Queue() == m.Queue() + m.buf[m.wp..m.wp + n]
  {
    hide Ring.Queue, Ring.WriteCount;
    if m.rp <= m.wp {
      AdvanceAppendsAhead(m, n);
    } else {
      AdvanceAppendsBehind(m, n);
    }
  }

  lemma Adjoin(b: seq<Byte>, i: nat, j: nat, k: nat)
    requires i <= j <= k <= |b|
    ensures b[i..k] == b[i..j] + b[j..k]
  {
  }

  /** A write appends a prefix of what it is given: it never overtakes the read pointer, so a queue
      with bytes in it never comes to look empty. */
  lemma WriteAppends(r: Ring, data: seq<Byte>)
    requires r.Valid()
    ensures var n := r.WriteCount(|data|);
            && n <= |data|
            && (n == |data| || |r.Queue()| + n == |r.buf| - 1 || r.wp + n == |r.buf|)
            && r.AfterWrite(data).Valid()
            && |r.AfterWrite(data).buf| == |r.buf|
            && r.AfterWrite(data).Queue() == r.Queue() + data[..n]
    ensures r.WriteCount(|data|) == 0 <==> |data| == 0 || |r.Queue()| == r.Capacity()
    ensures r.WriteCount(|data|) > 0 || !r.Empty() ==> !r.AfterWrite(data).Empty()
  {
    var n := r.WriteCount(|data|);
    CopyKeepsQueue(r, data[..n]);
    var m := r.AfterCopy(data[..n]);
    AdvanceAppends(m, n);
    assert m.buf[r.wp..r.wp + n] == data[..n];
    assert |r.AfterWrite(data).Queue()| == |r.Queue()| + n;
  }

  /** From every position of the pointers two unlimited reads drain the queue, in order. */
  lemma TwoReadsDrain(r: Ring, count: nat)
    requires r.Valid() && count >= |r.buf|
    ensures var first := r.AfterRead(count);
            && first.Valid()
            && first.AfterRead(count).Valid()
            && first.AfterRead(count).Queue() == []
            && r.buf[r.rp..r.rp + r.ReadCount(count)]
               + first.buf[first.rp..first.rp + first.ReadCount(count)] == r.Queue()
  {
    ReadTakesPrefix(r, count);
    var first := r.AfterRead(count);
    ReadTakesPrefix(first, count);
    var n := r.ReadCount(count);
    assert first.ReadCount(count) == |first.Queue()|;
    assert first.Queue()[..|first.Queue()|] == first.Queue();
    assert r.Queue() == r.Queue()[..n] + r.Queue()[n..];
  }

  /** From every position of the pointers two unlimited writes fill the buffer to its capacity,
      and what is accepted is an unbroken prefix of what was offered. */
  lemma TwoWritesFill(r: Ring, data: seq<Byte>)
    requires r.Valid() && |data| >= r.Capacity() - |r.Queue()|
    ensures var n := r.WriteCount(|data|);
            && n <= |data|
            && r.AfterWrite(data).Valid()
            && r.AfterWrite(data).AfterWrite(data[n..]).Valid()
            && r.AfterWrite(data).AfterWrite(data[n..]).Queue()
               == r.Queue() + data[..r.Capacity() - |r.Queue()|]
  {
    hide Ring.Queue, Ring.WriteCount, Ring.AfterWrite, Ring.Valid, Ring.Empty;
    WriteAppends(r, data);
    var n := r.WriteCount(|data|);
    var first, rest := r.AfterWrite(data), data[n..];
    WriteAppends(first, rest);
    SecondWriteFills(r, data);
    assert |rest| == |data| - n;
    var m := first.WriteCount(|rest|);
    Prefixes(data, n, m);
    assert (r.Queue() + data[..n]) + rest[..m] == r.Queue() + (data[..n] + rest[..m]);
  }

  lemma Prefixes(data: seq<Byte>, n: nat, m: nat)
    requires n + m <= |data|
    ensures data[..n] + data[n..][..m] == data[..n + m]
  {
  }

  /** What the first of two unlimited writes leaves free, the second can take in one piece. */
  lemma SecondWriteFills(r: Ring, data: seq<Byte>)
    requires r.Valid() && |data| >= r.Capacity() - |r.Queue()|
    ensures var n := r.WriteCount(|data|);
            && r.AfterWrite(data).Valid()
            && n + r.AfterWrite(data).WriteCount(|data| - n) == r.Capacity() - |r.Queue()|
  {
    WriteAppends(r, data);
  }
}
