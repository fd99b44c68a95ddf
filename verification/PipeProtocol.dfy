/** The scull pipe under interleaving: any number of processes, each with its own program counter,
    share one device through its semaphore and its two wait queues.

    One event moves one process past one point at which others can run.  Everything between
    `down` and `up` happens under the semaphore, but taking it, testing, updating the pointers,
    releasing it, queueing, retesting, sleeping and waking are all separate events. */
module PipeProtocol {
  import opened Common
  import opened RingBuffer

  type Pid = nat
  type Fid = nat

  /** Every open file can be read, or written, or both. */
  datatype Mode = ReadOnly | WriteOnly | ReadWrite {
    predicate Reads() { ReadOnly? || ReadWrite? }
    predicate Writes() { WriteOnly? || ReadWrite? }
  }

  datatype File = File(mode: Mode, nonblock: bool)

  /** Where a process is inside `scull_p_open`. */
  datatype OpenPc = ODown | OBody | OUp(result: Outcome)

  /** Where a process is inside `scull_p_release`. */
  datatype ReleasePc = LDown | LBody | LUp

  /** Where a process is inside `scull_p_read`; RCheck to RFinish are the steps of
      `wait_event_interruptible`. */
  datatype ReadPc =
    | RDown | RTest | RUpEmpty
    | RCheck | RPrepare | RRetest | RSignal | RSleep | RFinish(interrupted: bool)
    | RCopy | RUp(result: Outcome) | RWake(count: nat)

  /** Where a process is inside `scull_p_write` and `scull_getwritespace`. */
  datatype WritePc =
    | WDown | WTest | WUpFull
    | WPrepare | WRetest | WSleep | WFinish
    | WCopy | WUp(result: Outcome) | WWake(count: nat)

  datatype Pc =
    | Idle
    | Opening(o: OpenPc)
    | Releasing(l: ReleasePc)
    | Reading(r: ReadPc)
    | Writing(w: WritePc)
  {
    /** Inside the critical section. */
    predicate Holds() {
      match this
      case Idle => false
      case Opening(o) => !o.ODown?
      case Releasing(l) => !l.LDown?
      case Reading(r) => r.RTest? || r.RUpEmpty? || r.RCopy? || r.RUp?
      case Writing(w) => w.WTest? || w.WUpFull? || w.WCopy? || w.WUp?
    }

    /** The close of a file that is still counted as open. */
    predicate Closes() { Releasing? && !l.LUp? }

    predicate UsesFile() { Reading? || Writing? || Closes() }

    /** From putting itself on `inq` to taking itself off. */
    predicate WaitsToRead() {
      Reading? && (r.RPrepare? || r.RRetest? || r.RSignal? || r.RSleep? || r.RFinish?)
    }

    /** From putting itself on `outq` to taking itself off. */
    predicate WaitsToWrite() {
      Writing? && (w.WRetest? || w.WSleep? || w.WFinish?)
    }

    /** A reader that moved `rp` and has not yet woken `outq`. */
    predicate OwesWriters() { Reading? && ((r.RUp? && r.result.Done?) || r.RWake?) }

    /** A writer that moved `wp` and has not yet woken `inq`. */
    predicate OwesReaders() { Writing? && ((w.WUp? && w.result.Done?) || w.WWake?) }
  }

  datatype Proc = Proc(
    pc: Pc,
    fid: Fid,            // the file of a read, write or release
    file: File,          // what an open asks for
    count: nat,          // what a read asks for
    data: seq<Byte>,     // what a write offers
    runnable: bool,      // false is TASK_INTERRUPTIBLE
    signalled: bool,     // signal_pending
    result: Outcome      // what the last finished call returned
  ) {
    function At(pc: Pc): Proc {
      this.(pc := pc)
    }

    /** The call ends and returns r. */
    function Return(r: Outcome): Proc {
      this.(pc := Idle, result := r)
    }
  }

  /** What was written and what was read between two opens. */
  datatype Epoch = Epoch(accepted: seq<Byte>, returned: seq<Byte>)

  /** `struct scull_pipe`, with the open files, and with a history that no step looks at. */
  datatype Device = Device(
    cfg: nat,                   // scull_p_buffer
    ring: Option<Ring>,         // None while dev->buffer is NULL
    nreaders: int,
    nwriters: int,
    sem: Option<Pid>,           // who is inside
    inq: set<Pid>,
    outq: set<Pid>,
    files: map<Fid, File>,
    epoch: Epoch,               // history: since the last open
    past: seq<Epoch>,           // history: before it
    stream: seq<Byte>,          // history: everything any read ever returned
    room: nat                   // history: how much was allocated for the buffer
  ) {
    ghost predicate Live() {
      ring.Some? && ring.value.Valid()
    }

    /** The pointers stay inside what was allocated. */
    ghost predicate InBounds() {
      ring.Some? ==> |ring.value.buf| <= room
    }
  }

  datatype State = State(dev: Device, procs: map<Pid, Proc>)

  /** What is left open about a step: whether it fails, and what the environment supplies. */
  datatype Choice = Choice(fail: bool, fid: Fid, memory: seq<Byte>)

  /** Which wait queue a step wakes. */
  datatype Wake = NoWake | WakeReaders | WakeWriters

  /** What one step of a process does to the device and to itself, and whom it wakes. */
  datatype Effect = Effect(dev: Device, proc: Proc, wake: Wake)

  // ----- when a step can be taken -----

  predicate CanOpen(d: Device, c: Choice) {
    if c.fail then d.ring.None?
    else c.fid !in d.files && |c.memory| == d.cfg
  }

  predicate CanCopyIn(r: Ring, data: seq<Byte>, c: Choice)
    requires r.Valid()
  {
    c.fail ==> 0 < r.WriteCount(|data|) && |c.memory| <= r.WriteCount(|data|)
  }

  /** `down_interruptible` gives up only on a signal, and succeeds only when nobody is inside. */
  predicate CanDown(d: Device, r: Proc, c: Choice) {
    if c.fail then r.signalled else d.sem.None?
  }

  /** A sleeping process goes on when it is woken or signalled. */
  predicate CanGoOn(r: Proc) {
    r.runnable || r.signalled
  }

  ghost predicate CanRead(d: Device, r: Proc, c: Choice)
    requires r.pc.Reading?
  {
    match r.pc.r
    case RDown => CanDown(d, r, c)
    case RUpEmpty => r.fid in d.files
    case RTest | RCheck | RRetest | RCopy => d.Live()
    case RSleep => CanGoOn(r)
    case RPrepare | RSignal | RFinish(_) | RUp(_) | RWake(_) => true
  }

  ghost predicate CanWrite(d: Device, r: Proc, c: Choice)
    requires r.pc.Writing?
  {
    match r.pc.w
    case WDown => CanDown(d, r, c)
    case WUpFull => r.fid in d.files
    case WTest | WRetest => d.Live()
    case WCopy => d.Live() && CanCopyIn(d.ring.value, r.data, c)
    case WSleep => CanGoOn(r)
    case WPrepare | WFinish | WUp(_) | WWake(_) => true
  }

  ghost predicate CanStep(d: Device, r: Proc, c: Choice) {
    match r.pc
    case Idle => false
    case Opening(o) => (o.ODown? ==> CanDown(d, r, c)) && (o.OBody? ==> CanOpen(d, c))
    case Releasing(l) => (l.LDown? ==> d.sem.None?) && (l.LBody? ==> r.fid in d.files)
    case Reading(_) => CanRead(d, r, c)
    case Writing(_) => CanWrite(d, r, c)
  }

  // ----- what it does -----

  /** Only the process moves. */
  function Local(d: Device, r: Proc): Effect {
    Effect(d, r, NoWake)
  }

  /** `down_interruptible`; the process enters the critical section at `inside`. */
  function Down(d: Device, p: Pid, r: Proc, c: Choice, inside: Pc): Effect {
    if c.fail then Local(d, r.Return(Failed(ERESTARTSYS)))
    else Effect(d.(sem := Some(p)), r.At(inside), NoWake)
  }

  /** `up`. */
  function Up(d: Device, r: Proc): Effect {
    Effect(d.(sem := None), r, NoWake)
  }

  /** Lines 71-87: every open begins a new epoch with an empty queue, in a buffer that is taken to
      have the size configured now, whatever was allocated. */
  function OpenBody(d: Device, r: Proc, c: Choice): Effect
    requires CanOpen(d, c)
  {
    if c.fail then Local(d, r.At(Opening(OUp(Failed(ENOMEM)))))
    else
      Effect(
        d.(ring := Some(Ring(c.memory, 0, 0)),
           room := if d.ring.Some? then d.room else d.cfg,
           nreaders := d.nreaders + (if r.file.mode.Reads() then 1 else 0),
           nwriters := d.nwriters + (if r.file.mode.Writes() then 1 else 0),
           files := d.files[c.fid := r.file],
           epoch := Epoch([], []),
           past := d.past + [d.epoch]),
        r.At(Opening(OUp(Done(0)))),
        NoWake)
  }

  /** Lines 102-109: the last file to close frees the buffer. */
  function ReleaseBody(d: Device, r: Proc): Effect
    requires r.fid in d.files
  {
    var mode := d.files[r.fid].mode;
    var nr := d.nreaders - (if mode.Reads() then 1 else 0);
    var nw := d.nwriters - (if mode.Writes() then 1 else 0);
    Effect(
      d.(nreaders := nr,
         nwriters := nw,
         ring := if nr + nw == 0 then None else d.ring,
         files := d.files - {r.fid}),
      r.At(Releasing(LUp)),
      NoWake)
  }

  /** Lines 138-149. */
  function ReadBody(d: Device, r: Proc, c: Choice): Effect
    requires d.ring.Some? && d.ring.value.Valid()
  {
    var ring := d.ring.value;
    var n := ring.ReadCount(r.count);
    if c.fail then Local(d, r.At(Reading(RUp(Failed(EFAULT)))))
    else
      var bytes := ring.buf[ring.rp..ring.rp + n];
      Effect(
        d.(ring := Some(ring.AfterRead(r.count)),
           epoch := d.epoch.(returned := d.epoch.returned + bytes),
           stream := d.stream + bytes),
        r.At(Reading(RUp(Done(n)))),
        NoWake)
  }

  /** Lines 203-216.  A copy that faults may leave anything in the range it was to fill. */
  function WriteBody(d: Device, r: Proc, c: Choice): Effect
    requires d.ring.Some? && d.ring.value.Valid() && CanCopyIn(d.ring.value, r.data, c)
  {
    var ring := d.ring.value;
    var n := ring.WriteCount(|r.data|);
    if c.fail then
      Effect(d.(ring := Some(ring.AfterCopy(c.memory))),
             r.At(Writing(WUp(Failed(EFAULT)))), NoWake)
    else
      Effect(
        d.(ring := Some(ring.AfterWrite(r.data)),
           epoch := d.epoch.(accepted := d.epoch.accepted + r.data[..n])),
        r.At(Writing(WUp(Done(n)))),
        NoWake)
  }

  function StepRead(d: Device, p: Pid, r: Proc, c: Choice): Effect
    requires r.pc.Reading? && CanRead(d, r, c)
  {
    match r.pc.r
    case RDown => Down(d, p, r, c, Reading(RTest))
    case RTest => Local(d, r.At(Reading(if d.ring.value.Empty() then RUpEmpty else RCopy)))
    case RUpEmpty => Up(d, if d.files[r.fid].nonblock then r.Return(Failed(EAGAIN)) else r.At(Reading(RCheck)))
    case RCheck => Local(d, r.At(Reading(if d.ring.value.Empty() then RPrepare else RDown)))
    case RPrepare => Local(d.(inq := d.inq + {p}), r.(pc := Reading(RRetest), runnable := false))
    case RRetest => Local(d, r.At(Reading(if d.ring.value.Empty() then RSignal else RFinish(false))))
    case RSignal => Local(d, r.At(Reading(if r.signalled then RFinish(true) else RSleep)))
    case RSleep => Local(d, r.(pc := Reading(RPrepare), runnable := true))
    case RFinish(interrupted) =>
      var r' := r.(runnable := true);
      Local(d.(inq := d.inq - {p}),
            if interrupted then r'.Return(Failed(ERESTARTSYS)) else r'.At(Reading(RDown)))
    case RCopy => ReadBody(d, r, c)
    case RUp(o) => Up(d, if o.Done? then r.At(Reading(RWake(o.count))) else r.Return(o))
    case RWake(n) => Effect(d, r.Return(Done(n)), WakeWriters)
  }

  function StepWrite(d: Device, p: Pid, r: Proc, c: Choice): Effect
    requires r.pc.Writing? && CanWrite(d, r, c)
  {
    match r.pc.w
    case WDown => Down(d, p, r, c, Writing(WTest))
    case WTest => Local(d, r.At(Writing(if d.ring.value.Full() then WUpFull else WCopy)))
    case WUpFull => Up(d, if d.files[r.fid].nonblock then r.Return(Failed(EAGAIN)) else r.At(Writing(WPrepare)))
    case WPrepare => Local(d.(outq := d.outq + {p}), r.(pc := Writing(WRetest), runnable := false))
    case WRetest => Local(d, r.At(Writing(if d.ring.value.Full() then WSleep else WFinish)))
    case WSleep => Local(d, r.(pc := Writing(WFinish), runnable := true))
    case WFinish =>
      var r' := r.(runnable := true);
      Local(d.(outq := d.outq - {p}),
            if r.signalled then r'.Return(Failed(ERESTARTSYS)) else r'.At(Writing(WDown)))
    case WCopy => WriteBody(d, r, c)
    case WUp(o) => Up(d, if o.Done? then r.At(Writing(WWake(o.count))) else r.Return(o))
    case WWake(n) => Effect(d, r.Return(Done(n)), WakeReaders)
  }

  function StepOpen(d: Device, p: Pid, r: Proc, c: Choice): Effect
    requires r.pc.Opening? && CanStep(d, r, c)
  {
    match r.pc.o
    case ODown => Down(d, p, r, c, Opening(OBody))
    case OBody => OpenBody(d, r, c)
    case OUp(o) => Up(d, r.Return(o))
  }

  function StepRelease(d: Device, p: Pid, r: Proc): Effect
    requires r.pc.Releasing? && (r.pc.l.LBody? ==> r.fid in d.files)
  {
    match r.pc.l
    case LDown => Effect(d.(sem := Some(p)), r.At(Releasing(LBody)), NoWake)
    case LBody => ReleaseBody(d, r)
    case LUp => Up(d, r.Return(Done(0)))
  }

  /** One step of process p, wherever it is. */
  function Step(d: Device, p: Pid, r: Proc, c: Choice): Effect
    requires CanStep(d, r, c)
  {
    match r.pc
    case Opening(_) => StepOpen(d, p, r, c)
    case Releasing(_) => StepRelease(d, p, r)
    case Reading(_) => StepRead(d, p, r, c)
    case Writing(_) => StepWrite(d, p, r, c)
  }

  // ----- events -----

  datatype Event =
    | StartOpen(p: Pid, file: File)
    | StartRelease(p: Pid, fid: Fid)
    | StartRead(p: Pid, fid: Fid, count: nat)
    | StartWrite(p: Pid, fid: Fid, data: seq<Byte>)
    | Signal(p: Pid)
    | HandleSignal(p: Pid)
    | Configure(size: nat)
    | Advance(p: Pid, c: Choice)

  /** No call that is under way uses file f. */
  ghost predicate Unused(s: State, f: Fid) {
    forall q :: q in s.procs && s.procs[q].pc.UsesFile() ==> s.procs[q].fid != f
  }

  /** No release of file f is under way. */
  ghost predicate StaysOpen(s: State, f: Fid) {
    forall q :: q in s.procs && s.procs[q].pc.Closes() ==> s.procs[q].fid != f
  }

  ghost predicate Enabled(s: State, e: Event) {
    match e
    case StartOpen(p, _) => p in s.procs && s.procs[p].pc.Idle?
    case StartRelease(p, f) => p in s.procs && s.procs[p].pc.Idle? && f in s.dev.files && Unused(s, f)
    case StartRead(p, f, _) =>
      && p in s.procs && s.procs[p].pc.Idle?
      && f in s.dev.files && s.dev.files[f].mode.Reads() && StaysOpen(s, f)
    case StartWrite(p, f, _) =>
      && p in s.procs && s.procs[p].pc.Idle?
      && f in s.dev.files && s.dev.files[f].mode.Writes() && StaysOpen(s, f)
    case Signal(p) => p in s.procs
    case HandleSignal(p) => p in s.procs && s.procs[p].pc.Idle?
    case Configure(size) => size >= 2
    case Advance(p, c) => p in s.procs && CanStep(s.dev, s.procs[p], c)
  }

  /** What an event does to the process it is about, and through it to the device. */
  function EventEffect(d: Device, e: Event, r: Proc): Effect
    requires !e.Configure? && (e.Advance? ==> CanStep(d, r, e.c))
  {
    match e
    case StartOpen(_, file) => Local(d, r.(pc := Opening(ODown), file := file))
    case StartRelease(_, f) => Local(d, r.(pc := Releasing(LDown), fid := f))
    case StartRead(_, f, n) => Local(d, r.(pc := Reading(RDown), fid := f, count := n))
    case StartWrite(_, f, data) => Local(d, r.(pc := Writing(WDown), fid := f, data := data))
    case Signal(_) => Local(d, r.(signalled := true, runnable := true))
    case HandleSignal(_) => Local(d, r.(signalled := false))
    case Advance(p, c) => Step(d, p, r, c)
  }

  /** The sleepers of queue q become runnable, whether or not they are already inside `schedule`. */
  function Woken(procs: map<Pid, Proc>, q: set<Pid>): map<Pid, Proc> {
    map x | x in procs :: if x in q then procs[x].(runnable := true) else procs[x]
  }

  /** Who stays queued: a wake-up takes those it woke off the queue. */
  function StillQueued(procs: map<Pid, Proc>, q: set<Pid>): set<Pid> {
    set x | x in q && x in procs && procs[x].runnable
  }

  /** Before any wake-up takes effect: only process p and the device have changed. */
  function Between(s: State, p: Pid, f: Effect): State {
    State(f.dev, s.procs[p := f.proc])
  }

  function AfterWakeReaders(t: State): State {
    State(t.dev.(inq := StillQueued(t.procs, t.dev.inq)), Woken(t.procs, t.dev.inq))
  }

  function AfterWakeWriters(t: State): State {
    State(t.dev.(outq := StillQueued(t.procs, t.dev.outq)), Woken(t.procs, t.dev.outq))
  }

  /** The state after process p has had effect f. */
  function Apply(s: State, p: Pid, f: Effect): State {
    match f.wake
    case NoWake => Between(s, p, f)
    case WakeReaders => AfterWakeReaders(Between(s, p, f))
    case WakeWriters => AfterWakeWriters(Between(s, p, f))
  }

  ghost function Exec(s: State, e: Event): State
    requires Enabled(s, e)
  {
    if e.Configure? then s.(dev := s.dev.(cfg := e.size))
    else Apply(s, e.p, EventEffect(s.dev, e, s.procs[e.p]))
  }

  /** A freshly initialised device and any number of processes that have not called it yet. */
  ghost predicate Init(s: State) {
    && s.dev.cfg >= 2
    && s.dev == Device(s.dev.cfg, None, 0, 0, None, {}, {}, map[], Epoch([], []), [], [], 0)
    && forall p :: p in s.procs ==> s.procs[p].pc.Idle? && s.procs[p].runnable && !s.procs[p].signalled
  }

  /** Every event of the sequence is possible when its turn comes. */
  ghost predicate Legal(s: State, evs: seq<Event>)
    decreases |evs|
  {
    evs == [] || (Enabled(s, evs[0]) && Legal(Exec(s, evs[0]), evs[1..]))
  }

  ghost function Run(s: State, evs: seq<Event>): State
    requires Legal(s, evs)
    decreases |evs|
  {
    if evs == [] then s else Run(Exec(s, evs[0]), evs[1..])
  }
}
