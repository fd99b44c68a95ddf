/** What a call of the pipe protocol does when no other process moves: from its first step to its last,
    or until it sleeps, it does what the sequential call does. */
module PipeAlone {
  import opened Common
  import opened RingBuffer
  import opened PipeProtocol

  /** Steps of process p alone, one for every choice, with the wake-ups they make. */
  ghost predicate Goes(d: Device, p: Pid, r: Proc, cs: seq<Choice>, d': Device, r': Proc, wakes: seq<Wake>)
    decreases |cs|
  {
    if cs == [] then d' == d && r' == r && wakes == []
    else
      && CanStep(d, r, cs[0])
      && var f := Step(d, p, r, cs[0]);
         if f.wake.NoWake? then Goes(f.dev, p, f.proc, cs[1..], d', r', wakes)
         else wakes != [] && wakes[0] == f.wake && Goes(f.dev, p, f.proc, cs[1..], d', r', wakes[1..])
  }

  /** One step, and then the others. */
  lemma Before(d: Device, p: Pid, r: Proc, c: Choice, f: Effect,
               cs: seq<Choice>, d': Device, r': Proc, wakes: seq<Wake>)
    returns (cs': seq<Choice>)
    requires CanStep(d, r, c) && f == Step(d, p, r, c) && f.wake.NoWake?
    requires Goes(f.dev, p, f.proc, cs, d', r', wakes)
    ensures Goes(d, p, r, cs', d', r', wakes)
  {
    cs' := [c] + cs;
    assert cs'[1..] == cs;
  }

  /** The last step of a call that has moved bytes. */
  lemma WakesLast(d: Device, p: Pid, r: Proc, c: Choice, f: Effect) returns (cs: seq<Choice>)
    requires CanStep(d, r, c) && f == Step(d, p, r, c) && !f.wake.NoWake?
    ensures Goes(d, p, r, cs, f.dev, f.proc, [f.wake])
  {
    cs := [c];
    assert cs[1..] == [];
  }

  lemma Stay(d: Device, p: Pid, r: Proc) returns (cs: seq<Choice>)
    ensures Goes(d, p, r, cs, d, r, [])
  {
    cs := [];
  }

  const GO := Choice(false, 0, [])

  /** A process at the start of a read or a write, with the device to itself. */
  ghost predicate Alone(d: Device, p: Pid, r: Proc) {
    && d.Live() && d.sem == None && r.fid in d.files && r.runnable
    && p !in d.inq && p !in d.outq
  }

  // ----- read -----

  /** Over bytes it takes the oldest, as many as are asked for and lie in one piece; what fails to be
      copied stays; and writers are woken only when bytes have left. */
  lemma ReadAlone(d: Device, p: Pid, r: Proc, faulty: bool)
    returns (cs: seq<Choice>, d': Device, r': Proc, wakes: seq<Wake>)
    requires Alone(d, p, r) && r.pc == Reading(RDown)
    ensures Goes(d, p, r, cs, d', r', wakes)
    ensures var ring, q := d.ring.value, d.ring.value.Queue();
            if q != [] then
              if faulty then r' == r.Return(Failed(EFAULT)) && d' == d && wakes == []
              else
                var n := Min(r.count, Min(|q|, |ring.buf| - ring.rp));
                && r' == r.Return(Done(n)) && wakes == [WakeWriters]
                && d'.Live() && d'.ring.value.Queue() == q[n..] && d'.stream == d.stream + q[..n]
                && d' == d.(ring := d'.ring, stream := d'.stream, epoch := d'.epoch)
            else if d.files[r.fid].nonblock then r' == r.Return(Failed(EAGAIN)) && d' == d && wakes == []
            else if r.signalled then r' == r.Return(Failed(ERESTARTSYS)) && d' == d && wakes == []
            else r' == r.(pc := Reading(RSleep), runnable := false) && d' == d.(inq := d.inq + {p}) && wakes == []
  {
    SpaceIsCapacityMinusQueue(d.ring.value);
    var inside := d.(sem := Some(p));
    if d.ring.value.Queue() != [] {
      cs, d', r', wakes := CopiesOut(inside, p, r.At(Reading(RCopy)), faulty);
      cs := Before(inside, p, r.At(Reading(RTest)), GO, Local(inside, r.At(Reading(RCopy))), cs, d', r', wakes);
      ReadTakesPrefix(d.ring.value, r.count);
    } else {
      if d.files[r.fid].nonblock {
        d', r', wakes := d, r.Return(Failed(EAGAIN)), [];
        cs := Stay(d', p, r');
        cs := Before(inside, p, r.At(Reading(RUpEmpty)), GO, Effect(d, r', NoWake), cs, d', r', wakes);
      } else {
        cs, d', r', wakes := WaitsForBytes(d, p, r.At(Reading(RPrepare)));
        cs := Before(d, p, r.At(Reading(RCheck)), GO, Local(d, r.At(Reading(RPrepare))), cs, d', r', wakes);
        cs := Before(inside, p, r.At(Reading(RUpEmpty)), GO, Effect(d, r.At(Reading(RCheck)), NoWake),
                     cs, d', r', wakes);
      }
      cs := Before(inside, p, r.At(Reading(RTest)), GO, Local(inside, r.At(Reading(RUpEmpty))), cs, d', r', wakes);
    }
    cs := Before(d, p, r, GO, Effect(inside, r.At(Reading(RTest)), NoWake), cs, d', r', wakes);
  }

  lemma CopiesOut(d: Device, p: Pid, r: Proc, faulty: bool)
    returns (cs: seq<Choice>, d': Device, r': Proc, wakes: seq<Wake>)
    requires d.Live() && d.sem == Some(p) && r.pc == Reading(RCopy)
    ensures Goes(d, p, r, cs, d', r', wakes)
    ensures if faulty then r' == r.Return(Failed(EFAULT)) && d' == d.(sem := None) && wakes == []
            else
              var n := d.ring.value.ReadCount(r.count);
              && r' == r.Return(Done(n)) && wakes == [WakeWriters]
              && d' == ReadBody(d, r, GO).dev.(sem := None)
  {
    hide Ring.Queue, Ring.ReadCount;
    if faulty {
      var c := GO.(fail := true);
      var o: Outcome := Failed(EFAULT);
      d', r', wakes := d.(sem := None), r.Return(o), [];
      cs := Stay(d', p, r');
      cs := Before(d, p, r.At(Reading(RUp(o))), GO, Effect(d', r', NoWake), cs, d', r', wakes);
      cs := Before(d, p, r, c, Local(d, r.At(Reading(RUp(o)))), cs, d', r', wakes);
    } else {
      var n := d.ring.value.ReadCount(r.count);
      var f := ReadBody(d, r, GO);
      d', r', wakes := f.dev.(sem := None), r.Return(Done(n)), [WakeWriters];
      cs := WakesLast(d', p, r.At(Reading(RWake(n))), GO, Effect(d', r', WakeWriters));
      cs := Before(f.dev, p, f.proc, GO, Effect(d', r.At(Reading(RWake(n))), NoWake), cs, d', r', wakes);
      cs := Before(d, p, r, GO, f, cs, d', r', wakes);
    }
  }

  /** Over an empty queue a reader that waits gives up on a signal and sleeps without one. */
  lemma WaitsForBytes(d: Device, p: Pid, r: Proc)
    returns (cs: seq<Choice>, d': Device, r': Proc, wakes: seq<Wake>)
    requires d.Live() && d.ring.value.Empty() && r.pc == Reading(RPrepare)
    ensures Goes(d, p, r, cs, d', r', wakes) && wakes == []
    ensures if r.signalled then r' == r.(runnable := true).Return(Failed(ERESTARTSYS)) && d' == d.(inq := d.inq - {p})
            else r' == r.(pc := Reading(RSleep), runnable := false) && d' == d.(inq := d.inq + {p})
  {
    hide Ring.Queue;
    var queued, waiting := d.(inq := d.inq + {p}), r.(runnable := false);
    wakes := [];
    if r.signalled {
      d', r' := d.(inq := d.inq - {p}), r.(runnable := true).Return(Failed(ERESTARTSYS));
      assert queued.inq - {p} == d.inq - {p};
      cs := Stay(d', p, r');
      cs := Before(queued, p, waiting.At(Reading(RFinish(true))), GO, Effect(d', r', NoWake), cs, d', r', wakes);
      cs := Before(queued, p, waiting.At(Reading(RSignal)), GO, Local(queued, waiting.At(Reading(RFinish(true)))),
                   cs, d', r', wakes);
    } else {
      d', r' := queued, waiting.At(Reading(RSleep));
      cs := Stay(d', p, r');
      cs := Before(queued, p, waiting.At(Reading(RSignal)), GO, Local(queued, r'), cs, d', r', wakes);
    }
    cs := Before(queued, p, waiting.At(Reading(RRetest)), GO, Local(queued, waiting.At(Reading(RSignal))),
                 cs, d', r', wakes);
    cs := Before(d, p, r, GO, Effect(queued, waiting.At(Reading(RRetest)), NoWake), cs, d', r', wakes);
  }

  /** A sleeping reader that is woken starts over when there are bytes; it goes back to sleep when there
      are none, and gives up when it was woken by a signal. */
  lemma WokenReader(d: Device, p: Pid, r: Proc)
    returns (cs: seq<Choice>, d': Device, r': Proc, wakes: seq<Wake>)
    requires d.Live() && r.pc == Reading(RSleep) && (r.runnable || r.signalled)
    ensures Goes(d, p, r, cs, d', r', wakes) && wakes == []
    ensures if d.ring.value.Queue() != [] then
              r' == r.(pc := Reading(RDown), runnable := true) && d' == d.(inq := d.inq - {p})
            else if r.signalled then
              r' == r.(runnable := true).Return(Failed(ERESTARTSYS)) && d' == d.(inq := d.inq - {p})
            else r' == r.(runnable := false) && d' == d.(inq := d.inq + {p})
  {
    SpaceIsCapacityMinusQueue(d.ring.value);
    var up := r.(pc := Reading(RPrepare), runnable := true);
    if d.ring.value.Empty() {
      cs, d', r', wakes := WaitsForBytes(d, p, up);
    } else {
      var queued, waiting := d.(inq := d.inq + {p}), up.(runnable := false);
      wakes := [];
      d', r' := d.(inq := d.inq - {p}), up.At(Reading(RDown));
      assert queued.inq - {p} == d.inq - {p};
      cs := Stay(d', p, r');
      cs := Before(queued, p, waiting.At(Reading(RFinish(false))), GO, Effect(d', r', NoWake), cs, d', r', wakes);
      cs := Before(queued, p, waiting.At(Reading(RRetest)), GO, Local(queued, waiting.At(Reading(RFinish(false)))),
                   cs, d', r', wakes);
      cs := Before(d, p, up, GO, Effect(queued, waiting.At(Reading(RRetest)), NoWake), cs, d', r', wakes);
    }
    cs := Before(d, p, r, GO, Local(d, up), cs, d', r', wakes);
  }

  // ----- write -----

  /** Where there is room it accepts a prefix, as much as fits in one piece; what fails to be copied is
      not queued; and readers are woken only when bytes have come. */
  lemma WriteAlone(d: Device, p: Pid, r: Proc, faulty: bool)
    returns (cs: seq<Choice>, d': Device, r': Proc, wakes: seq<Wake>)
    requires Alone(d, p, r) && r.pc == Writing(WDown)
    requires faulty ==> r.data != []
    ensures Goes(d, p, r, cs, d', r', wakes)
    ensures var ring, q := d.ring.value, d.ring.value.Queue();
            if |q| < ring.Capacity() then
              if faulty then
                && r' == r.Return(Failed(EFAULT)) && wakes == [] && d'.Live()
                && d'.ring.value.Queue() == q && d' == d.(ring := d'.ring)
              else
                var n := Min(|r.data|, Min(ring.Capacity() - |q|, |ring.buf| - ring.wp));
                && r' == r.Return(Done(n)) && wakes == [WakeReaders]
                && d'.Live() && d'.ring.value.Queue() == q + r.data[..n]
                && d'.epoch.accepted == d.epoch.accepted + r.data[..n]
                && d' == d.(ring := d'.ring, epoch := d'.epoch)
            else if d.files[r.fid].nonblock then r' == r.Return(Failed(EAGAIN)) && d' == d && wakes == []
            else if r.signalled then r' == r.Return(Failed(ERESTARTSYS)) && d' == d && wakes == []
            else r' == r.(pc := Writing(WSleep), runnable := false) && d' == d.(outq := d.outq + {p}) && wakes == []
  {
    SpaceIsCapacityMinusQueue(d.ring.value);
    var inside := d.(sem := Some(p));
    if |d.ring.value.Queue()| < d.ring.value.Capacity() {
      cs, d', r', wakes := CopiesIn(inside, p, r.At(Writing(WCopy)), faulty);
      cs := Before(inside, p, r.At(Writing(WTest)), GO, Local(inside, r.At(Writing(WCopy))), cs, d', r', wakes);
    } else {
      if d.files[r.fid].nonblock {
        d', r', wakes := d, r.Return(Failed(EAGAIN)), [];
        cs := Stay(d', p, r');
        cs := Before(inside, p, r.At(Writing(WUpFull)), GO, Effect(d, r', NoWake), cs, d', r', wakes);
      } else {
        cs, d', r', wakes := WaitsForRoom(d, p, r.At(Writing(WPrepare)));
        cs := Before(inside, p, r.At(Writing(WUpFull)), GO, Effect(d, r.At(Writing(WPrepare)), NoWake),
                     cs, d', r', wakes);
      }
      cs := Before(inside, p, r.At(Writing(WTest)), GO, Local(inside, r.At(Writing(WUpFull))), cs, d', r', wakes);
    }
    cs := Before(d, p, r, GO, Effect(inside, r.At(Writing(WTest)), NoWake), cs, d', r', wakes);
  }

  lemma CopiesIn(d: Device, p: Pid, r: Proc, faulty: bool)
    returns (cs: seq<Choice>, d': Device, r': Proc, wakes: seq<Wake>)
    requires d.Live() && d.sem == Some(p) && r.pc == Writing(WCopy) && |d.ring.value.Queue()| < d.ring.value.Capacity()
    requires faulty ==> r.data != []
    ensures Goes(d, p, r, cs, d', r', wakes)
    ensures d'.Live()
    ensures if faulty then
              && r' == r.Return(Failed(EFAULT)) && wakes == []
              && d'.ring.value.Queue() == d.ring.value.Queue() && d' == d.(sem := None, ring := d'.ring)
            else
              var n := d.ring.value.WriteCount(|r.data|);
              && r' == r.Return(Done(n)) && wakes == [WakeReaders]
              && d'.ring.value.Queue() == d.ring.value.Queue() + r.data[..n]
              && d' == d.(sem := None, ring := d'.ring, epoch := d'.epoch)
              && d'.epoch.accepted == d.epoch.accepted + r.data[..n]
  {
    WriteAppends(d.ring.value, r.data);
    if faulty {
      var c, o := GO.(fail := true), Failed(EFAULT);
      CopyKeepsQueue(d.ring.value, []);
      var f := WriteBody(d, r, c);
      d', r', wakes := f.dev.(sem := None), r.Return(o), [];
      cs := Stay(d', p, r');
      cs := Before(f.dev, p, f.proc, GO, Effect(d', r', NoWake), cs, d', r', wakes);
      cs := Before(d, p, r, c, f, cs, d', r', wakes);
    } else {
      var n := d.ring.value.WriteCount(|r.data|);
      var f := WriteBody(d, r, GO);
      d', r', wakes := f.dev.(sem := None), r.Return(Done(n)), [WakeReaders];
      cs := WakesLast(d', p, r.At(Writing(WWake(n))), GO, Effect(d', r', WakeReaders));
      cs := Before(f.dev, p, f.proc, GO, Effect(d', r.At(Writing(WWake(n))), NoWake), cs, d', r', wakes);
      cs := Before(d, p, r, GO, f, cs, d', r', wakes);
    }
  }

  /** Over a full buffer a writer that waits gives up on a signal and sleeps without one. */
  lemma WaitsForRoom(d: Device, p: Pid, r: Proc)
    returns (cs: seq<Choice>, d': Device, r': Proc, wakes: seq<Wake>)
    requires d.Live() && d.ring.value.Full() && r.pc == Writing(WPrepare)
    ensures Goes(d, p, r, cs, d', r', wakes) && wakes == []
    ensures if r.signalled then r' == r.(runnable := true).Return(Failed(ERESTARTSYS)) && d' == d.(outq := d.outq - {p})
            else r' == r.(pc := Writing(WSleep), runnable := false) && d' == d.(outq := d.outq + {p})
  {
    hide Ring.Queue;
    var queued, waiting := d.(outq := d.outq + {p}), r.(runnable := false);
    wakes := [];
    if r.signalled {
      d', r' := d.(outq := d.outq - {p}), r.(runnable := true).Return(Failed(ERESTARTSYS));
      assert queued.outq - {p} == d.outq - {p};
      cs := Stay(d', p, r');
      cs := Before(queued, p, r.At(Writing(WFinish)).(runnable := true), GO, Effect(d', r', NoWake), cs, d', r', wakes);
      cs := Before(queued, p, waiting.At(Writing(WSleep)), GO, Local(queued, r.At(Writing(WFinish)).(runnable := true)),
                   cs, d', r', wakes);
    } else {
      d', r' := queued, waiting.At(Writing(WSleep));
      cs := Stay(d', p, r');
    }
    cs := Before(queued, p, waiting.At(Writing(WRetest)), GO, Local(queued, waiting.At(Writing(WSleep))),
                 cs, d', r', wakes);
    cs := Before(d, p, r, GO, Effect(queued, waiting.At(Writing(WRetest)), NoWake), cs, d', r', wakes);
  }

  /** A sleeping writer that is woken starts over, and gives up when it was woken by a signal. */
  lemma WokenWriter(d: Device, p: Pid, r: Proc)
    returns (cs: seq<Choice>, d': Device, r': Proc, wakes: seq<Wake>)
    requires r.pc == Writing(WSleep) && (r.runnable || r.signalled)
    ensures Goes(d, p, r, cs, d', r', wakes) && wakes == [] && d' == d.(outq := d.outq - {p})
    ensures if r.signalled then r' == r.(runnable := true).Return(Failed(ERESTARTSYS))
            else r' == r.(pc := Writing(WDown), runnable := true)
  {
    var up := r.(pc := Writing(WFinish), runnable := true);
    wakes := [];
    d', r' := d.(outq := d.outq - {p}), if r.signalled then up.Return(Failed(ERESTARTSYS)) else up.At(Writing(WDown));
    cs := Stay(d', p, r');
    cs := Before(d, p, up, GO, Effect(d', r', NoWake), cs, d', r', wakes);
    cs := Before(d, p, r, GO, Local(d, up), cs, d', r', wakes);
  }

  // ----- open and release -----

  /** An open counts its file in its mode and empties the queue; without a buffer it may fail instead,
      and then changes nothing. */
  lemma OpenAlone(d: Device, p: Pid, r: Proc, c: Choice)
    returns (cs: seq<Choice>, d': Device, r': Proc)
    requires d.sem == None && d.cfg >= 2 && r.pc == Opening(ODown) && CanOpen(d, c)
    ensures Goes(d, p, r, cs, d', r', [])
    ensures if c.fail then r' == r.Return(Failed(ENOMEM)) && d' == d
            else
              && r' == r.Return(Done(0)) && d'.Live() && d'.ring.value.Queue() == []
              && |d'.ring.value.buf| == d.cfg && d'.files == d.files[c.fid := r.file]
              && d'.nreaders == d.nreaders + (if r.file.mode.Reads() then 1 else 0)
              && d'.nwriters == d.nwriters + (if r.file.mode.Writes() then 1 else 0)
              && (d'.sem, d'.inq, d'.outq, d'.stream) == (d.sem, d.inq, d.outq, d.stream)
  {
    var inside, body := d.(sem := Some(p)), r.At(Opening(OBody));
    var f := OpenBody(inside, body, c);
    d', r' := f.dev.(sem := None), if c.fail then r.Return(Failed(ENOMEM)) else r.Return(Done(0));
    cs := Stay(d', p, r');
    cs := Before(f.dev, p, f.proc, GO, Effect(d', r', NoWake), cs, d', r', []);
    cs := Before(inside, p, body, c, f, cs, d', r', []);
    cs := Before(d, p, r, GO, Effect(inside, body, NoWake), cs, d', r', []);
  }

  /** A release takes its file back, and the buffer with the last. */
  lemma ReleaseAlone(d: Device, p: Pid, r: Proc) returns (cs: seq<Choice>, d': Device, r': Proc)
    requires d.sem == None && r.pc == Releasing(LDown) && r.fid in d.files
    ensures Goes(d, p, r, cs, d', r', []) && r' == r.Return(Done(0))
    ensures var mode := d.files[r.fid].mode;
            && d'.nreaders == d.nreaders - (if mode.Reads() then 1 else 0)
            && d'.nwriters == d.nwriters - (if mode.Writes() then 1 else 0)
            && d'.ring == (if d'.nreaders + d'.nwriters == 0 then None else d.ring)
            && d' == d.(nreaders := d'.nreaders, nwriters := d'.nwriters, ring := d'.ring, files := d.files - {r.fid})
  {
    var inside, body := d.(sem := Some(p)), r.At(Releasing(LBody));
    var f := ReleaseBody(inside, body);
    d', r' := f.dev.(sem := None), r.Return(Done(0));
    cs := Stay(d', p, r');
    cs := Before(f.dev, p, f.proc, GO, Effect(d', r', NoWake), cs, d', r', []);
    cs := Before(inside, p, body, GO, f, cs, d', r', []);
    cs := Before(d, p, r, GO, Effect(inside, body, NoWake), cs, d', r', []);
  }
}
