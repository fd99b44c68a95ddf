/** Which bytes of a read the calls determine: new quanta are not cleared, and a copy that faults may
    leave anything in the range it was to fill. */
module Determinacy {
  import opened Common
  import opened Geometry
  import opened StoreSpec
  import opened DriverSpec

  // ----- what is known of a device -----

  /** What a write has copied from user memory. */
  function Copied(e: Event): seq<Byte>
    requires e.Write?
  {
    match e.wr
    case Done(n) => if n <= |e.data| then e.data[..n] else []
    case Failed(EFAULT) => if e.copied <= |e.data| then e.data[..e.copied] else []
    case Failed(_) => []
  }

  /** The event is a write that copies a byte to offset off of device i. */
  predicate Copies(e: Event, i: nat, off: nat) {
    e.Write? && e.dev == i && Within(off, e.pos, |Copied(e)|)
  }

  /** The event is a write in state s that faults before it reaches offset off of device i. */
  predicate Spoils(s: DriverState, e: Event, i: nat, off: nat) {
    && e.Write? && e.dev == i && e.wr == Failed(EFAULT)
    && i < |s.stores| && s.stores[i].quantum > 0
    && e.pos + e.copied <= off < e.pos + s.stores[i].WriteCount(e.pos, |e.data|)
  }

  function KnownAfter(m: map<nat, Byte>, s: DriverState, e: Event, i: nat): map<nat, Byte> {
    if Trims(e, i) then map[]
    else if e.Write? && e.dev == i then
      Overlay(map off | off in m && !Spoils(s, e, i, off) :: m[off], e.pos, Copied(e))
    else m
  }

  /** The bytes of device i that have been copied from user memory and not been lost since. */
  function Known(states: seq<DriverState>, events: seq<Event>, i: nat): map<nat, Byte>
    requires |events| <= |states|
    decreases |events|
  {
    if events == [] then map[]
    else
      var n := |events| - 1;
      KnownAfter(Known(states, events[..n], i), states[n], events[n], i)
  }

  /** Event k copies a byte to the offset; since then the device has not been emptied, and no write
      has faulted before it reached the offset. */
  predicate CopiedForGood(states: seq<DriverState>, events: seq<Event>, k: nat, i: nat, off: nat)
    requires |events| <= |states|
  {
    && k < |events| && Copies(events[k], i, off)
    && forall l :: k < l < |events| ==> !Trims(events[l], i) && !Spoils(states[l], events[l], i, off)
  }

  ghost predicate IsCopied(states: seq<DriverState>, events: seq<Event>, i: nat, off: nat)
    requires |events| <= |states|
  {
    exists k: nat :: CopiedForGood(states, events, k, i, off)
  }

  lemma KnownLast(states: seq<DriverState>, events: seq<Event>, i: nat, off: nat)
    requires events != [] && |events| <= |states|
    ensures var n := |events| - 1;
            off in Known(states, events, i)
            <==> && !Trims(events[n], i)
                 && (|| Copies(events[n], i, off)
                     || (off in Known(states, events[..n], i) && !Spoils(states[n], events[n], i, off)))
  {
    hide Copied, Spoils, Overlay;
    var n := |events| - 1;
    var e, known := events[n], Known(states, events[..n], i);
    if e.Write? && e.dev == i {
      OverlayAt(map x | x in known && !Spoils(states[n], e, i, x) :: known[x], e.pos, Copied(e), off);
    } else {
      assert !Spoils(states[n], e, i, off) by { SpoilsIsWrite(states[n], e, i, off); }
    }
  }

  lemma SpoilsIsWrite(s: DriverState, e: Event, i: nat, off: nat)
    ensures Spoils(s, e, i, off) ==> e.Write? && e.dev == i
  {
  }

  lemma CopiedLast(states: seq<DriverState>, events: seq<Event>, i: nat, off: nat)
    requires events != [] && |events| <= |states|
    ensures var n := |events| - 1;
            IsCopied(states, events, i, off)
            <==> && !Trims(events[n], i)
                 && (|| Copies(events[n], i, off)
                     || (IsCopied(states, events[..n], i, off) && !Spoils(states[n], events[n], i, off)))
  {
    hide Copies, Spoils;
    var n := |events| - 1;
    if k: nat :| CopiedForGood(states, events, k, i, off) {
      if k < n {
        assert CopiedForGood(states, events[..n], k, i, off);
      } else {
        CopiesNoTrim(events[n], i, off);
      }
    }
    if !Trims(events[n], i) {
      if Copies(events[n], i, off) {
        assert CopiedForGood(states, events, n, i, off);
      } else if k: nat :| CopiedForGood(states, events[..n], k, i, off) {
        assert !Spoils(states[n], events[n], i, off) ==> CopiedForGood(states, events, k, i, off);
      }
    }
  }

  lemma CopiesNoTrim(e: Event, i: nat, off: nat)
    requires Copies(e, i, off)
    ensures !Trims(e, i)
  {
  }

  /** A byte is known exactly when some write has copied it, the device has not been emptied since,
      and no write that faulted since was to reach it. */
  lemma {:induction false} KnownIff(states: seq<DriverState>, events: seq<Event>, i: nat, off: nat)
    requires |events| <= |states|
    ensures off in Known(states, events, i) <==> IsCopied(states, events, i, off)
    decreases |events|
  {
    if events != [] {
      KnownLast(states, events, i, off);
      CopiedLast(states, events, i, off);
      KnownIff(states, events[..|events| - 1], i, off);
    }
  }

  /** What is known is in the byte map. */
  ghost predicate Agrees(known: map<nat, Byte>, m: map<nat, Byte>) {
    forall off :: off in known ==> HasByte(m, off, known[off])
  }

  lemma EventAgrees(known: map<nat, Byte>, m: map<nat, Byte>, s: DriverState, e: Event, s': DriverState, i: nat)
    requires Next(s, e, s') && Agrees(known, m) && e.Write? && e.dev == i
    ensures Agrees(KnownAfter(known, s, e, i), Overlay(m, e.pos, Accepted(e.data, e.copied, e.pad, e.wr)))
  {
    hide Stored, Overlay;
    var kept := map off | off in known && !Spoils(s, e, i, off) :: known[off];
    var now, bytes := KnownAfter(known, s, e, i), Accepted(e.data, e.copied, e.pad, e.wr);
    assert Copied(e) <= bytes;
    forall off | off in now
      ensures HasByte(Overlay(m, e.pos, bytes), off, now[off])
    {
      OverlayAt(kept, e.pos, Copied(e), off);
      OverlayAt(m, e.pos, bytes, off);
      if !Copies(e, i, off) {
        assert HasByte(m, off, known[off]);
        assert !Spoils(s, e, i, off);
      }
    }
  }

  lemma {:induction false} KnownAgrees(states: seq<DriverState>, events: seq<Event>, i: nat)
    requires IsRun(states, events)
    ensures Agrees(Known(states, events, i), Written(map[], events, i))
    decreases |events|
  {
    hide Next, Accepted, Overlay, Agrees;
    if events == [] {
      NothingAgrees(map[]);
    } else {
      var n := |events| - 1;
      RunPrefix(states, events);
      KnownAgrees(states[..n + 1], events[..n], i);
      KnownIgnores(states, states[..n + 1], events[..n], i);
      if Trims(events[n], i) {
        NothingAgrees(map[]);
      } else if events[n].Write? && events[n].dev == i {
        EventAgrees(Known(states, events[..n], i), Written(map[], events[..n], i), states[n], events[n],
                    states[n + 1], i);
      }
    }
  }

  lemma NothingAgrees(m: map<nat, Byte>)
    ensures Agrees(map[], m)
  {
  }

  /** Later states do not matter. */
  lemma {:induction false} KnownIgnores(states: seq<DriverState>, prefix: seq<DriverState>, events: seq<Event>, i: nat)
    requires |events| <= |prefix| && prefix <= states
    ensures Known(states, events, i) == Known(prefix, events, i)
    decreases |events|
  {
    if events != [] {
      KnownIgnores(states, prefix, events[..|events| - 1], i);
    }
  }

  /** What is known is stored. */
  lemma KnownIsStored(states: seq<DriverState>, events: seq<Event>, i: nat, off: nat)
    requires IsRun(states, events) && i < |states[0].stores| && off in Known(states, events, i)
    ensures i < |states[|events|].stores|
    ensures HasByte(states[|events|].stores[i].cells, off, Known(states, events, i)[off])
  {
    hide Known, Written;
    StoreRefinesMap(states, events, map[], i);
    KnownAgrees(states, events, i);
    assert HasByte(Written(map[], events, i), off, Known(states, events, i)[off]);
  }

  // ----- the same calls with other bytes -----

  /** The same call with the same answer, except for the bytes of a read and what a fault leaves. */
  predicate SameCall(e: Event, e': Event) {
    if e.Read? then e'.Read? && e' == e.(out := e'.out)
    else if e.Write? && e.wr == Failed(EFAULT) then e'.Write? && e' == e.(pad := e'.pad)
    else e' == e
  }

  /** Another run of the same calls from the same state. */
  ghost predicate Rival(states: seq<DriverState>, events: seq<Event>, states': seq<DriverState>, events': seq<Event>) {
    && IsRun(states', events') && |events'| == |events|
    && states != [] && states'[0] == states[0]
    && forall k :: 0 <= k < |events| ==> SameCall(events[k], events'[k])
  }

  predicate SameGeometry(s: DriverState, s': DriverState) {
    && s'.g == s.g && |s'.stores| == |s.stores|
    && forall i :: 0 <= i < |s.stores| ==>
         s'.stores[i].quantum == s.stores[i].quantum && s'.stores[i].qset == s.stores[i].qset
  }

  lemma EventKeepsGeometry(s: DriverState, e: Event, t: DriverState, s': DriverState, e': Event, t': DriverState)
    requires Next(s, e, t) && Next(s', e', t') && SameCall(e, e') && SameGeometry(s, s')
    ensures SameGeometry(t, t')
  {
  }

  lemma {:induction false} RivalsKnowTheSame(states: seq<DriverState>, events: seq<Event>,
                                             states': seq<DriverState>, events': seq<Event>, i: nat)
    requires IsRun(states, events) && Rival(states, events, states', events')
    ensures SameGeometry(states[|events|], states'[|events|])
    ensures Known(states', events', i) == Known(states, events, i)
    decreases |events|
  {
    hide Next, Overlay;
    if events != [] {
      var n := |events| - 1;
      RunPrefix(states, events);
      RunPrefix(states', events');
      RivalsKnowTheSame(states[..n + 1], events[..n], states'[..n + 1], events'[..n], i);
      KnownIgnores(states, states[..n + 1], events[..n], i);
      KnownIgnores(states', states'[..n + 1], events'[..n], i);
      assert SameCall(events[n], events'[n]);
      EventKeepsGeometry(states[n], events[n], states[n + 1], states'[n], events'[n], states'[n + 1]);
      SameKnownAfter(Known(states, events[..n], i), states[n], events[n], states'[n], events'[n], i);
    }
  }

  lemma SameKnownAfter(m: map<nat, Byte>, s: DriverState, e: Event, s': DriverState, e': Event, i: nat)
    requires SameCall(e, e') && SameGeometry(s, s')
    ensures KnownAfter(m, s', e', i) == KnownAfter(m, s, e, i)
  {
    hide Overlay;
    if e.Write? && e.dev == i {
      assert Copied(e') == Copied(e);
      assert forall off: nat :: Spoils(s', e', i, off) == Spoils(s, e, i, off);
      assert (map off | off in m && !Spoils(s', e', i, off) :: m[off])
             == (map off | off in m && !Spoils(s, e, i, off) :: m[off]);
    }
  }

  /** The same states and events, with byte b at offset off of device i where there is one. */
  function Altered(s: DriverState, i: nat, off: nat, b: Byte): DriverState {
    if i < |s.stores| && off in s.stores[i].cells
    then s.(stores := s.stores[i := AlteredStore(s.stores[i], off, b)])
    else s
  }

  function AlteredStore(s: Store, off: nat, b: Byte): Store {
    if off in s.cells then s.(cells := s.cells[off := b]) else s
  }

  function AlteredEvent(e: Event, i: nat, off: nat, b: Byte): Event {
    if e.Read? && e.dev == i && Within(off, e.pos, |e.out|) then e.(out := e.out[off - e.pos := b]) else e
  }

  lemma AlteredStored(s: Store, pos: nat, bytes: seq<Byte>, s': Store, off: nat, b: Byte)
    requires s.quantum > 0 && Stored(s, pos, bytes, s') && !Within(off, pos, |bytes|)
    ensures Stored(AlteredStore(s, off, b), pos, bytes, AlteredStore(s', off, b))
  {
    hide Together;
  }

  lemma AlteredWrite(s: Store, e: Event, s': Store, off: nat, b: Byte)
    requires e.Write? && !Within(off, e.pos, |Accepted(e.data, e.copied, e.pad, e.wr)|)
    requires s.quantum > 0 && WriteStep(s, e.pos, e.data, e.copied, e.pad, e.wr, s')
    ensures WriteStep(AlteredStore(s, off, b), e.pos, e.data, e.copied, e.pad, e.wr, AlteredStore(s', off, b))
  {
    hide Stored;
    if e.wr != Failed(ENOMEM) {
      AlteredStored(s, e.pos, Accepted(e.data, e.copied, e.pad, e.wr), s', off, b);
    }
  }

  lemma AlteredRead(s: Store, e: Event, off: nat, b: Byte)
    requires e.Read? && (e.pos < s.size ==> s.quantum > 0)
    requires ReadStep(s, e.pos, e.count, e.room, e.rr, e.out)
    ensures ReadStep(AlteredStore(s, off, b), e.pos, e.count, e.room, e.rr, AlteredEvent(e, e.dev, off, b).out)
  {
    var out := AlteredEvent(e, e.dev, off, b).out;
    forall j | 0 <= j < |out|
      ensures HasByte(AlteredStore(s, off, b).cells, e.pos + j, out[j])
    {
      assert HasByte(s.cells, e.pos + j, e.out[j]);
    }
  }

  /** What a call does not reach can be another byte before and after it. */
  lemma AlteredNext(s: DriverState, e: Event, s': DriverState, i: nat, off: nat, b: Byte)
    requires Next(s, e, s') && i < |s.stores| && !Trims(e, i)
    requires !Copies(e, i, off) && !Spoils(s, e, i, off)
    ensures Next(Altered(s, i, off, b), AlteredEvent(e, i, off, b), Altered(s', i, off, b))
  {
    hide Stored, ReadStep;
    if e.Write? && e.dev == i {
      AlteredWrite(s.stores[i], e, s'.stores[i], off, b);
    } else if e.Read? && e.dev == i {
      AlteredRead(s.stores[i], e, off, b);
    }
  }

  /** The n bytes of a map from an offset on. */
  function BytesFrom(m: map<nat, Byte>, from: nat, n: nat): (bytes: seq<Byte>)
    requires forall x :: from <= x < from + n ==> x in m
    ensures |bytes| == n && forall j :: 0 <= j < n ==> HasByte(m, from + j, bytes[j])
  {
    seq(n, j requires 0 <= j < n => assert from <= from + j < from + n; m[from + j])
  }

  /** The rest of the range a write was to fill lies in its quantum. */
  lemma RestIsThere(s: Store, e: Event, s': Store, off: nat)
    requires e.Write? && s.quantum > 0
    requires e.copied <= |e.data| && Stored(s, e.pos, e.data[..e.copied] + e.pad, s')
    requires e.pos <= off < e.pos + s.WriteCount(e.pos, |e.data|)
    ensures off in s'.cells
  {
    var k := e.pos / s.quantum;
    assert e.pos == k * s.quantum + e.pos % s.quantum;
    DivUnique(off, s.quantum, k, off - k * s.quantum);
  }

  /** A fault can leave any byte where it did not reach. */
  lemma SpoiledStored(s: Store, e: Event, s': Store, off: nat, b: Byte) returns (pad: seq<Byte>)
    requires e.Write? && e.wr == Failed(EFAULT) && s.quantum > 0
    requires WriteStep(s, e.pos, e.data, e.copied, e.pad, e.wr, s')
    requires e.pos + e.copied <= off < e.pos + s.WriteCount(e.pos, |e.data|)
    ensures WriteStep(s, e.pos, e.data, e.copied, pad, e.wr, AlteredStore(s', off, b))
    ensures off in s'.cells
  {
    hide Stored;
    var from, t := e.pos + e.copied, AlteredStore(s', off, b);
    var m := Max(|e.pad|, off - from + 1);
    forall x | from <= x < from + m
      ensures x in s'.cells
    {
      RestIsThere(s, e, s', x);
    }
    pad := BytesFrom(t.cells, from, m);
    SpoiledStoredBy(s, e, s', off, b, pad);
  }

  lemma SpoiledStoredBy(s: Store, e: Event, s': Store, off: nat, b: Byte, pad: seq<Byte>)
    requires e.Write? && s.quantum > 0 && e.copied <= |e.data|
    requires Stored(s, e.pos, e.data[..e.copied] + e.pad, s') && off in s'.cells
    requires e.pos + e.copied <= off < e.pos + e.copied + |pad| && |e.pad| <= |pad|
    requires forall j :: 0 <= j < |pad| ==> HasByte(AlteredStore(s', off, b).cells, e.pos + e.copied + j, pad[j])
    ensures Stored(s, e.pos, e.data[..e.copied] + pad, AlteredStore(s', off, b))
  {
    hide Together, AlteredStore, HasByte;
    OnlyAltered(s', off, b);
    var t, was, bytes := AlteredStore(s', off, b), e.data[..e.copied] + e.pad, e.data[..e.copied] + pad;
    assert |was| <= |bytes|;
    forall x | e.pos <= x < e.pos + |bytes|
      ensures x in t.cells && t.cells[x] == bytes[x - e.pos]
    {
      SpoiledByte(s, e, s', off, b, pad, x);
    }
    forall x | x in s.cells && !(e.pos <= x < e.pos + |bytes|)
      ensures x in t.cells && t.cells[x] == s.cells[x]
    {
      assert !(e.pos <= x < e.pos + |was|);
    }
  }

  lemma SpoiledByte(s: Store, e: Event, s': Store, off: nat, b: Byte, pad: seq<Byte>, x: nat)
    requires e.Write? && s.quantum > 0 && e.copied <= |e.data|
    requires Stored(s, e.pos, e.data[..e.copied] + e.pad, s') && e.pos + e.copied <= off
    requires forall j :: 0 <= j < |pad| ==> HasByte(AlteredStore(s', off, b).cells, e.pos + e.copied + j, pad[j])
    requires e.pos <= x < e.pos + e.copied + |pad|
    ensures var t := AlteredStore(s', off, b); x in t.cells && t.cells[x] == (e.data[..e.copied] + pad)[x - e.pos]
  {
    hide Together, AlteredStore;
    OnlyAltered(s', off, b);
    var k := x - e.pos;
    if k >= e.copied {
      assert HasByte(AlteredStore(s', off, b).cells, e.pos + e.copied + (k - e.copied), pad[k - e.copied]);
    } else {
      assert (e.data[..e.copied] + e.pad)[k] == (e.data[..e.copied] + pad)[k];
    }
  }

  lemma OnlyAltered(s: Store, off: nat, b: Byte)
    ensures var t := AlteredStore(s, off, b);
            && t == s.(cells := t.cells)
            && t.cells.Keys == s.cells.Keys
            && forall x :: x in s.cells && x != off ==> t.cells[x] == s.cells[x]
  {
  }

  /** A rival run goes on with the same call. */
  lemma OneMore(states: seq<DriverState>, events: seq<Event>, before: seq<DriverState>, done: seq<Event>,
                e: Event, s: DriverState)
    returns (states': seq<DriverState>, events': seq<Event>)
    requires |states| == |events| + 1 >= 2
    requires Rival(states[..|events|], events[..|events| - 1], before, done)
    requires SameCall(events[|events| - 1], e) && Next(before[|events| - 1], e, s)
    ensures Rival(states, events, states', events') && states'[|events|] == s && events'[|events| - 1] == e
  {
    states', events' := before + [s], done + [e];
  }

  /** A byte that is not known may as well be any other: the same calls have a run in which it is. */
  lemma {:induction false} UnknownIsAnything(states: seq<DriverState>, events: seq<Event>, i: nat, off: nat, b: Byte)
    returns (states': seq<DriverState>, events': seq<Event>)
    requires IsRun(states, events) && i < |states[0].stores| && states[0].stores[i].cells == map[]
    requires off !in Known(states, events, i)
    ensures Rival(states, events, states', events')
    ensures i < |states[|events|].stores| && states'[|events|] == Altered(states[|events|], i, off, b)
    decreases |events|
  {
    hide Known, Spoils, Copies;
    states', events' := states, events;
    if events != [] {
      var n := |events| - 1;
      var e := events[n];
      RunPrefix(states, events);
      StoreRefinesMap(states[..n + 1], events[..n], map[], i);
      KnownLast(states, events, i, off);
      KnownIgnores(states, states[..n + 1], events[..n], i);
      if Spoils(states[n], e, i, off) {
        var e' := SpoiledNext(states[n], e, states[n + 1], i, off, b);
        states', events' :=
          OneMore(states, events, states[..n + 1], events[..n], e', Altered(states[n + 1], i, off, b));
      } else if !Trims(e, i) {
        states', events' := UnknownIsAnything(states[..n + 1], events[..n], i, off, b);
        AlteredNext(states[n], e, states[n + 1], i, off, b);
        states', events' :=
          OneMore(states, events, states', events', AlteredEvent(e, i, off, b), Altered(states[n + 1], i, off, b));
      }
    }
  }

  lemma SpoiledNext(s: DriverState, e: Event, s': DriverState, i: nat, off: nat, b: Byte) returns (e': Event)
    requires Next(s, e, s') && i < |s.stores| && Spoils(s, e, i, off)
    ensures SameCall(e, e') && Next(s, e', Altered(s', i, off, b))
  {
    hide WriteStep;
    var pad := SpoiledStored(s.stores[i], e, s'.stores[i], off, b);
    e' := e.(pad := pad);
  }

  // ----- reads -----

  /** The calls, and their answers so far, determine byte j of the last one, a read. */
  ghost predicate Determined(states: seq<DriverState>, events: seq<Event>, j: nat)
    requires events != [] && events[|events| - 1].Read? && j < |events[|events| - 1].out|
  {
    var n := |events| - 1;
    forall states': seq<DriverState>, events': seq<Event> :: Rival(states, events, states', events') ==>
      && SameCall(events[n], events'[n])
      && j < |events'[n].out| && events'[n].out[j] == events[n].out[j]
  }

  lemma KnownIsDetermined(states: seq<DriverState>, events: seq<Event>, j: nat,
                          states': seq<DriverState>, events': seq<Event>)
    requires events != [] && IsRun(states, events) && Rival(states, events, states', events')
    requires events[|events| - 1].Read? && j < |events[|events| - 1].out|
    requires var e := events[|events| - 1];
             e.dev < |states[0].stores| && e.pos + j in Known(states, events[..|events| - 1], e.dev)
    ensures var n := |events| - 1;
            && |events'| == |events| && SameCall(events[n], events'[n])
            && events'[n].Read? && j < |events'[n].out| && events'[n].out[j] == events[n].out[j]
  {
    hide Known;
    var n := |events| - 1;
    var e, e', i := events[n], events'[n], events[n].dev;
    assert SameCall(e, e');
    RunPrefix(states, events);
    RunPrefix(states', events');
    KnownIgnores(states, states[..n + 1], events[..n], i);
    RivalsKnowTheSame(states[..n + 1], events[..n], states'[..n + 1], events'[..n], i);
    KnownIsStored(states[..n + 1], events[..n], i, e.pos + j);
    KnownIsStored(states'[..n + 1], events'[..n], i, e.pos + j);
    assert HasByte(states[n].stores[i].cells, e.pos + j, e.out[j]);
    assert HasByte(states'[n].stores[i].cells, e.pos + j, e'.out[j]);
  }

  lemma UnknownIsOpen(states: seq<DriverState>, events: seq<Event>, i: nat, j: nat)
    returns (states': seq<DriverState>, events': seq<Event>)
    requires events != [] && IsRun(states, events) && i < |states[0].stores| && states[0].stores[i].cells == map[]
    requires events[|events| - 1].Read? && events[|events| - 1].dev == i && j < |events[|events| - 1].out|
    requires events[|events| - 1].pos + j !in Known(states, events[..|events| - 1], i)
    ensures Rival(states, events, states', events')
    ensures var n := |events| - 1;
            |events'| == |events| && events'[n].Read? && j < |events'[n].out| && events'[n].out[j] != events[n].out[j]
  {
    hide Known, Next, Altered, IsRun;
    var n := |events| - 1;
    var e := events[n];
    var b: Byte := if e.out[j] == 0 then 1 else 0;
    RunPrefix(states, events);
    KnownIgnores(states, states[..n + 1], events[..n], i);
    var before, done := UnknownIsAnything(states[..n + 1], events[..n], i, e.pos + j, b);
    AlteredNext(states[n], e, states[n + 1], i, e.pos + j, b);
    states', events' :=
      OneMore(states, events, before, done, AlteredEvent(e, i, e.pos + j, b), Altered(states[n + 1], i, e.pos + j, b));
  }

  /** The calls determine a byte that a read returns exactly when some write has copied it, the
      device has not been emptied since, and no write that faulted since was to reach it. */
  lemma ReadIsDeterminedIff(states: seq<DriverState>, events: seq<Event>, i: nat, j: nat)
    requires events != [] && IsRun(states, events) && i < |states[0].stores| && states[0].stores[i].cells == map[]
    requires events[|events| - 1].Read? && events[|events| - 1].dev == i && j < |events[|events| - 1].out|
    ensures Determined(states, events, j)
            <==> IsCopied(states, events[..|events| - 1], i, events[|events| - 1].pos + j)
  {
    hide Rival, SameCall, Known, IsRun, IsCopied;
    RunPrefix(states, events);
    var n := |events| - 1;
    var off := events[n].pos + j;
    KnownIff(states, events[..n], i, off);
    if off in Known(states, events[..n], i) {
      forall states': seq<DriverState>, events': seq<Event> | Rival(states, events, states', events')
        ensures |events'| == |events| && SameCall(events[n], events'[n])
        ensures events'[n].Read? && j < |events'[n].out| && events'[n].out[j] == events[n].out[j]
      {
        KnownIsDetermined(states, events, j, states', events');
      }
    } else {
      var states', events' := UnknownIsOpen(states, events, i, j);
    }
  }

  /** A byte that was written can be lost: two bytes are stored, a write over them faults at once, and
      the next read returns whatever that has left. */
  lemma FaultLosesByte(b: Byte) returns (states: seq<DriverState>, events: seq<Event>)
    ensures IsRun(states, events) && |events| == 3
    ensures |states[0].stores| == 1 && states[0].stores[0].cells == map[]
    ensures events[0] == Event.Write(0, 0, [1, 2], 2, [], Done(2))
    ensures events[1].Write? && events[1].data == [3, 4] && events[1].copied == 0 && events[1].wr == Failed(EFAULT)
    ensures events[2] == Event.Read(0, 0, 2, 2, Done(2), [b, 2])
    ensures !IsCopied(states, events[..2], 0, 0) && !IsCopied(states, events[..2], 0, 1)
  {
    var g := Globals(2, 1, 0);
    var s0, s1 := Store(2, 1, 0, 0, map[]), Store(2, 1, 2, 1, map[0 := 1, 1 := 2]);
    var s2 := Store(2, 1, 2, 1, map[0 := b, 1 := 2]);
    states := [DriverState(g, [s0]), DriverState(g, [s1]), DriverState(g, [s2]), DriverState(g, [s2])];
    events := [Event.Write(0, 0, [1, 2], 2, [], Done(2)),
               Event.Write(0, 0, [3, 4], 0, [b], Failed(EFAULT)),
               Event.Read(0, 0, 2, 2, Done(2), [b, 2])];
    assert Next(states[0], events[0], states[1]);
    assert Next(states[1], events[1], states[2]);
    assert Next(states[2], events[2], states[3]);
    CopiedLast(states, events[..2], 0, 0);
    CopiedLast(states, events[..2], 0, 1);
    assert Spoils(states[1], events[1], 0, 0) && Spoils(states[1], events[1], 0, 1);
  }
}
