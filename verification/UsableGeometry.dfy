/** With which geometries the driver can store anything, and which runs keep a device to them. */
module UsableGeometry {
  import opened Common
  import opened Geometry
  import opened StoreSpec
  import opened DriverSpec

  // ----- a write to a device that has just been emptied -----

  /** A size in bytes as `kmalloc` takes it, a 64-bit `size_t`. */
  function AsSize(x: int): nat {
    x % 0x1_0000_0000_0000_0000
  }

  /** No memory is ever as large as half of what a `size_t` can say. */
  predicate Allocatable(size: nat) {
    size < 0x8000_0000_0000_0000
  }

  /** What becomes of a write at the latest before its copy, if memory lasts. */
  datatype Fate = Crash | NoTable | OutsideTable | NoQuantum | Stores

  /** Lines 341-368 of `scull_write`, on a device without tables and quanta. */
  function FateOf(pos: nat, quantum: int, qset: int): Fate {
    match Compute(pos, quantum, qset)
    case DividesByZero => Crash
    case Computed(_, s, _) =>
      if !Allocatable(AsSize(qset * 8)) then NoTable
      else if !(0 <= s < qset) then OutsideTable
      else if !Allocatable(AsSize(quantum)) then NoQuantum
      else Stores
  }

  predicate IsInt(x: int) {
    -0x8000_0000 <= x <= INT_MAX
  }

  predicate CanStore(quantum: int, qset: int) {
    quantum > 0 && qset > 0 && ItemSize(quantum, qset) != 0
  }

  /** Something can be stored exactly when the quantum and the qset are positive and their product does
      not wrap to zero. */
  lemma StoresIff(quantum: int, qset: int)
    requires IsInt(quantum) && IsInt(qset)
    ensures (exists pos: nat :: FateOf(pos, quantum, qset) == Stores) <==> CanStore(quantum, qset)
  {
    if CanStore(quantum, qset) {
      FirstIsStored(quantum, qset);
    } else {
      forall pos: nat
        ensures FateOf(pos, quantum, qset) != Stores
      {
        NothingIsStored(pos, quantum, qset);
      }
    }
  }

  lemma FirstIsStored(quantum: int, qset: int)
    requires IsInt(quantum) && IsInt(qset) && CanStore(quantum, qset)
    ensures FateOf(0, quantum, qset) == Stores
  {
    hide ItemSize, AsInt, AsSize;
    var w := ItemSize(quantum, qset);
    SmallQuotient(0, w);
    SmallQuotient(0, quantum);
    AsIntExact(0);
    SizeExact(qset * 8);
    SizeExact(quantum);
  }

  lemma SizeExact(x: nat)
    requires x < 0x8000_0000_0000_0000
    ensures AsSize(x) == x
  {
  }

  /** Under any other geometry a write divides by zero, or asks for a table or a quantum of a size
      that no memory has, or looks for its pointer outside the table, at every offset. */
  lemma NothingIsStored(pos: nat, quantum: int, qset: int)
    requires IsInt(quantum) && IsInt(qset) && !CanStore(quantum, qset)
    ensures FateOf(pos, quantum, qset) != Stores
  {
    if quantum == 0 || qset == 0 {
      assert ItemSize(quantum, qset) == 0;
    } else if qset < 0 {
      assert AsSize(qset * 8) == 0x1_0000_0000_0000_0000 + qset * 8;
    } else if quantum < 0 {
      assert AsSize(quantum) == 0x1_0000_0000_0000_0000 + quantum;
    }
  }

  // ----- over every run -----

  predicate StoreWorks(s: Store) {
    CanStore(s.quantum, s.qset)
  }

  /** In every state of the run something can be stored in device i. */
  ghost predicate WorksThroughout(states: seq<DriverState>, i: nat) {
    forall k :: 0 <= k < |states| ==> i < |states[k].stores| && StoreWorks(states[k].stores[i])
  }

  /** Every write-only open of device i finds a geometry configured with which something can be stored. */
  predicate TrimsFindGood(states: seq<DriverState>, events: seq<Event>, i: nat)
    requires |events| <= |states|
  {
    forall k :: 0 <= k < |events| && Trims(events[k], i) ==> CanStore(states[k].g.quantum, states[k].g.qset)
  }

  /** Only a trim can break a device, and it does exactly when it finds a bad geometry. */
  lemma StepWorksIff(s: DriverState, e: Event, s': DriverState, i: nat)
    requires Next(s, e, s') && i < |s.stores| && StoreWorks(s.stores[i])
    ensures i < |s'.stores|
    ensures StoreWorks(s'.stores[i]) <==> (Trims(e, i) ==> CanStore(s.g.quantum, s.g.qset))
  {
    hide CanStore;
  }

  /** Over every run, with any number of devices, callers and commands: something can be stored in a
      device in every state exactly when every write-only open of it finds a good geometry. */
  lemma {:induction false} WorksThroughoutIff(states: seq<DriverState>, events: seq<Event>, i: nat)
    requires IsRun(states, events) && i < |states[0].stores| && StoreWorks(states[0].stores[i])
    ensures WorksThroughout(states, i) <==> TrimsFindGood(states, events, i)
    decreases |events|
  {
    hide Next, StoreWorks, CanStore, Trims;
    if events != [] {
      var n := |events| - 1;
      RunPrefix(states, events);
      WorksThroughoutIff(states[..n + 1], events[..n], i);
      assert TrimsFindGood(states, events, i) ==> TrimsFindGood(states[..n + 1], events[..n], i);
      assert WorksThroughout(states, i) ==> WorksThroughout(states[..n + 1], i);
      if WorksThroughout(states[..n + 1], i) {
        assert states[..n + 1][n] == states[n];
        StepWorksIff(states[n], events[n], states[n + 1], i);
        assert forall k :: 0 <= k < n + 1 ==> states[..n + 1][k] == states[k];
      }
    }
  }

  predicate ByAdmin(e: Event) {
    e.Ioctl? && e.admin
  }

  ghost predicate AllWork(s: DriverState) {
    CanStore(s.g.quantum, s.g.qset) && forall i :: 0 <= i < |s.stores| ==> StoreWorks(s.stores[i])
  }

  lemma EventKeepsWorking(s: DriverState, e: Event, s': DriverState)
    requires Next(s, e, s') && AllWork(s) && !ByAdmin(e)
    ensures AllWork(s')
    ensures (s'.g.quantum, s'.g.qset) in {(s.g.quantum, s.g.qset), (SCULL_QUANTUM, SCULL_QSET)}
  {
    hide CanStore;
    DefaultWorks();
  }

  lemma DefaultWorks()
    ensures CanStore(SCULL_QUANTUM, SCULL_QSET)
  {
  }

  /** Without the administrator, the configured geometry is the first one or the default one, and
      something can be stored in every device in every state. */
  lemma {:induction false} OnlyAdminsSpoilGeometry(states: seq<DriverState>, events: seq<Event>)
    requires IsRun(states, events) && AllWork(states[0])
    requires forall e <- events :: !ByAdmin(e)
    ensures AllWork(states[|events|])
    ensures var g, g' := states[0].g, states[|events|].g;
            (g'.quantum, g'.qset) in {(g.quantum, g.qset), (SCULL_QUANTUM, SCULL_QSET)}
    decreases |events|
  {
    if events != [] {
      var n := |events| - 1;
      OnlyAdminsSpoilGeometry(states[..n + 1], events[..n]);
      assert events[n] in events;
      EventKeepsWorking(states[n], events[n], states[n + 1]);
    }
  }

  /** From every state the administrator's tell of a value that is not positive, for either parameter,
      and a write-only open leave a device in which nothing can be stored. */
  lemma AdminSpoilsGeometry(s: DriverState, i: nat, p: Param, v: int)
    returns (configured: DriverState, emptied: DriverState)
    requires i < |s.stores| && IsInt(s.g.quantum) && IsInt(s.g.qset) && AsInt(v) <= 0
    ensures Next(s, Event.Ioctl(Tell(p, v), true, Value(0)), configured)
    ensures Next(configured, Event.Open(i, true), emptied) && i < |emptied.stores|
    ensures forall pos: nat :: FateOf(pos, emptied.stores[i].quantum, emptied.stores[i].qset) != Stores
  {
    configured := s.(g := GlobalsAfter(s.g, Tell(p, v), true));
    var store := Store(configured.g.quantum, configured.g.qset, 0, 0, map[]);
    emptied := configured.(stores := configured.stores[i := store]);
    AsIntBounded(v);
    forall pos: nat
      ensures FateOf(pos, store.quantum, store.qset) != Stores
    {
      NothingIsStored(pos, store.quantum, store.qset);
    }
  }
}
