/** `struct scull_pipe` and its file operations, run one call at a time.

    What the calls do to the circular buffer is stated by the value in RingBuffer; how calls of
    many processes interleave around the semaphore is the subject of PipeProtocol. */
module Pipe {
  import opened Common
  import opened RingBuffer

  class ScullPipe {
    var buffer: array?<Byte>
    var buffersize: int
    var end: int            // offset of the end of the buffer from its beginning
    var rp: int             // where to read
    var wp: int             // where to write
    var nreaders: int
    var nwriters: int

    /** A buffer is there and every pointer is inside it. */
    ghost predicate Live()
      reads this
    {
      && buffer != null
      && 2 <= buffersize <= buffer.Length
      && end == buffersize
      && 0 <= rp < buffersize
      && 0 <= wp < buffersize
    }

    ghost function Abs(): (r: Ring)
      requires Live()
      reads this, buffer
      ensures r.Valid()
    {
      Ring(buffer[..buffersize], rp, wp)
    }

    /** The bytes waiting in the pipe. */
    ghost function Queue(): seq<Byte>
      requires Live()
      reads this, buffer
    {
      Abs().Queue()
    }

    /** A device as `scull_p_init` leaves it: zeroed memory. */
    constructor ()
      ensures buffer == null && nreaders == nwriters == 0
    {
      buffer := null;
      buffersize, end, rp, wp, nreaders, nwriters := 0, 0, 0, 0, 0, 0;
    }

    /** `scull_p_open`.  Every open empties the queue.  A buffer that is already there is kept at
        its old length but is believed to have the size configured now, so the pipe is sound
        afterwards exactly when that size does not exceed the buffer. */
    method Open(reading: bool, writing: bool, configured: int, allocOk: bool) returns (r: Outcome)
      requires configured >= 2
      modifies this
      ensures r == if old(buffer) == null && !allocOk then Failed(ENOMEM) else Done(0)
      ensures r.Failed? ==> unchanged(this)
      ensures r.Done? ==>
                && buffer != null
                && (if old(buffer) == null then fresh(buffer) && buffer.Length == configured
                    else buffer == old(buffer))
                && buffersize == configured
                && nreaders == old(nreaders) + (if reading then 1 else 0)
                && nwriters == old(nwriters) + (if writing then 1 else 0)
      ensures r.Done? ==>
                (Live() <==> old(buffer) == null || configured <= old(buffer).Length)
      ensures r.Done? && Live() ==> Queue() == []
    {
      if buffer == null {
        if !allocOk {
          return Failed(ENOMEM);
        }
        buffer := new Byte[configured];
      }
      buffersize := configured;
      end := buffersize;
      rp, wp := 0, 0;
      if reading {
        nreaders := nreaders + 1;
      }
      if writing {
        nwriters := nwriters + 1;
      }
      return Done(0);
    }

    /** `scull_p_release`: the last file to go takes the buffer with it. */
    method Release(reading: bool, writing: bool)
      modifies this
      ensures nreaders == old(nreaders) - (if reading then 1 else 0)
      ensures nwriters == old(nwriters) - (if writing then 1 else 0)
      ensures nreaders + nwriters == 0 ==> buffer == null
      ensures nreaders + nwriters != 0 ==>
                buffer == old(buffer) && (old(Live()) ==> Live() && Abs() == old(Abs()))
    {
      if reading {
        nreaders := nreaders - 1;
      }
      if writing {
        nwriters := nwriters - 1;
      }
      if nreaders + nwriters == 0 {
        buffer := null;
      }
    }

    /** `spacefree`: what the capacity leaves beyond the bytes that are queued. */
    function SpaceFree(): (n: int)
      requires Live()
      reads this, buffer
      ensures n == buffersize - 1 - |Queue()|
      ensures n >= 0
    {
      SpaceIsCapacityMinusQueue(Abs());
      if rp == wp then buffersize - 1 else (rp + buffersize - wp) % buffersize - 1
    }

    /** How many of `count` bytes the next read takes, branch by branch as the driver decides. */
    function TakeCount(count: nat): (n: nat)
      requires Live() && rp != wp
      reads this, buffer
      ensures n == Abs().ReadCount(count)
    {
      if wp > rp then Min(count, wp - rp) else Min(count, end - rp)
    }

    /** `scull_p_read` on a file opened with O_NONBLOCK: the oldest bytes, up to the physical end
        of the buffer.  Whatever fails, nothing leaves the queue. */
    method Read(count: nat, copyOk: bool) returns (r: Outcome, out: seq<Byte>)
      requires Live()
      modifies this
      ensures Live() && buffer == old(buffer) && buffersize == old(buffersize)
      ensures nreaders == old(nreaders) && nwriters == old(nwriters)
      ensures old(Queue()) == [] ==> r == Failed(EAGAIN)
      ensures old(Queue()) != [] && !copyOk ==> r == Failed(EFAULT)
      ensures r.Failed? ==> out == [] && Abs() == old(Abs())
      ensures old(Queue()) != [] && copyOk ==>
                && r == Done(old(Abs()).ReadCount(count))
                && |out| == r.count <= count
                && (r.count == count || r.count == |old(Queue())| || old(rp) + r.count == buffersize)
                && r.count <= |old(Queue())|
                && out == old(Queue())[..r.count]
                && Queue() == old(Queue())[r.count..]
                && Abs() == old(Abs()).AfterRead(count)
    {
      hide Ring.Queue, Ring.ReadCount;
      ghost var ring := Abs();
      ReadTakesPrefix(ring, count);
      SpaceIsCapacityMinusQueue(ring);
      if rp == wp {
        return Failed(EAGAIN), [];
      }
      var n := TakeCount(count);
      if !copyOk {
        return Failed(EFAULT), [];
      }
      out := buffer[rp..rp + n];
      assert out == ring.buf[ring.rp..ring.rp + n];
      rp := rp + n;
      if rp == end {
        rp := 0;
      }
      assert Abs() == ring.AfterRead(count);
      return Done(n), out;
    }

    /** `scull_getwritespace` on a file opened with O_NONBLOCK. */
    method GetWriteSpace() returns (r: Outcome)
      requires Live()
      ensures r == if |Queue()| == buffersize - 1 then Failed(EAGAIN) else Done(0)
    {
      if SpaceFree() == 0 {
        return Failed(EAGAIN);
      }
      return Done(0);
    }

    /** How many of `count` bytes the next write accepts, branch by branch as the driver decides. */
    method AcceptCount(count: nat) returns (n: nat)
      requires Live()
      ensures n == Abs().WriteCount(count)
      ensures n <= count && (n == count || |Queue()| + n == buffersize - 1 || wp + n == buffersize)
    {
      WriteAcceptsAllItCan(Abs(), count);
      n := Min(count, SpaceFree());
      if wp >= rp {
        n := Min(n, end - wp);
      } else {
        n := Min(n, rp - wp - 1);
      }
    }

    /** `copy_from_user` to the write pointer. */
    method CopyIn(data: seq<Byte>)
      requires Live() && wp + |data| <= buffersize
      modifies buffer
      ensures Abs() == old(Abs()).AfterCopy(data)
    {
      ghost var before := buffer[..buffersize];
      forall i | 0 <= i < |data| {
        buffer[wp + i] := data[i];
      }
      assert buffer[..buffersize] == before[..wp] + data + before[wp + |data|..];
    }

    /** `scull_p_write` on a file opened with O_NONBLOCK.  `copied` is how many bytes of user memory
        can be read before a fault; a faulting copy may leave anything in the free slots it was to
        fill, but never touches queued bytes. */
    method Write(data: seq<Byte>, copied: nat) returns (r: Outcome)
      requires Live()
      modifies this, buffer
      ensures Live() && buffer == old(buffer) && buffersize == old(buffersize)
      ensures nreaders == old(nreaders) && nwriters == old(nwriters)
      ensures rp == old(rp)
      ensures r == if |old(Queue())| == buffersize - 1 then Failed(EAGAIN)
                   else if copied < old(Abs()).WriteCount(|data|) then Failed(EFAULT)
                   else Done(old(Abs()).WriteCount(|data|))
      ensures r.Failed? ==> Queue() == old(Queue()) && wp == old(wp)
      ensures r.Done? ==>
                && r.count <= |data|
                && (r.count == |data| || |Queue()| == buffersize - 1 || old(wp) + r.count == buffersize)
                && Queue() == old(Queue()) + data[..r.count]
                && Abs() == old(Abs()).AfterWrite(data)
    {
      hide Ring.Queue, Ring.WriteCount;
      ghost var ring := Abs();
      r := GetWriteSpace();
      if r.Failed? {
        return;
      }
      WriteAppends(ring, data);
      var n := AcceptCount(|data|);
      AcceptsLess(ring, |data|, n);
      var bytes := data[..n];
      if copied < n {
        bytes := *;
        if |bytes| > n {
          bytes := data[..copied];
        }
      }
      AcceptsLess(ring, |data|, |bytes|);
      CopyKeepsQueue(ring, bytes);
      CopyIn(bytes);
      if copied < n {
        return Failed(EFAULT);
      }
      wp := wp + n;
      if wp == end {
        wp := 0;
      }
      assert Abs() == ring.AfterWrite(data);
      return Done(n);
    }

    /** `scull_p_poll`: readable exactly when bytes wait, writable exactly when there is room. */
    method Poll() returns (readable: bool, writable: bool)
      requires Live()
      ensures readable <==> Queue() != []
      ensures writable <==> |Queue()| < buffersize - 1
      ensures readable || writable
    {
      SpaceIsCapacityMinusQueue(Abs());
      readable := rp != wp;
      writable := SpaceFree() != 0;
    }

    /** Two reads of unlimited size with nobody else running return the whole queue, in order. */
    method ReadTwice(count: nat) returns (out: seq<Byte>)
      requires Live() && count >= buffersize
      modifies this
      ensures Live() && Queue() == []
      ensures out == old(Queue())
    {
      ghost var ring := Abs();
      SpaceIsCapacityMinusQueue(ring);
      TwoReadsDrain(ring, count);
      var r, first := Read(count, true);
      var r', second := Read(count, true);
      out := first + second;
    }
  }

  /** A pipe of size 2, a larger size told, and one more open: the pipe believes in a buffer that is
      not there. */
  method ReopenLarger(size: int) returns (p: ScullPipe)
    requires size > 2
    ensures fresh(p) && p.buffer != null && p.buffer.Length == 2 && p.buffersize == size && !p.Live()
  {
    p := new ScullPipe();
    var _ := p.Open(true, false, 2, true);
    var _ := p.Open(true, false, size, true);
  }
}
