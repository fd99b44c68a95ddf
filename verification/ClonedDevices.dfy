/** The private devices: one for every controlling terminal, created on first use and never freed. */
module ClonedDevices {
  import opened Common

  type Key = nat

  /** `struct scull_listitem`. */
  class ListItem {
    const key: Key

    constructor (key: Key)
      ensures this.key == key
    {
      this.key := key;
    }
  }

  /** The device of a key in a list: the first that has it. */
  function Lookup(items: seq<ListItem>, key: Key): (r: Option<ListItem>)
    ensures r.Some? <==> exists i :: 0 <= i < |items| && items[i].key == key
    ensures r.Some? ==> r.value in items && r.value.key == key
  {
    if items == [] then None
    else if items[0].key == key then Some(items[0])
    else
      assert forall i :: 0 <= i < |items[1..]| ==> items[1..][i] == items[i + 1];
      Lookup(items[1..], key)
  }

  class DeviceList {
    var items: seq<ListItem>

    /** No terminal has two devices. */
    ghost predicate Valid()
      reads this
    {
      forall i, j :: 0 <= i < j < |items| ==> items[i].key != items[j].key
    }

    constructor ()
      ensures Valid() && items == []
    {
      items := [];
    }

    /** `scull_c_lookfor_device`: the device of the terminal, created at the head of the list if it
        has none yet.  Every terminal that has a device keeps it. */
    method LookFor(key: Key, allocOk: bool) returns (r: Option<ListItem>)
      requires Valid()
      modifies this
      ensures Valid()
      ensures r.None? <==> Lookup(old(items), key).None? && !allocOk
      ensures Lookup(old(items), key).Some? ==> r == Lookup(old(items), key) && items == old(items)
      ensures Lookup(old(items), key).None? && r.Some? ==> fresh(r.value) && items == [r.value] + old(items)
      ensures r.None? ==> items == old(items)
      ensures r.Some? ==> r == Lookup(items, key)
      ensures forall k :: k != key ==> Lookup(items, k) == Lookup(old(items), k)
    {
      var i := 0;
      while i < |items|
        invariant 0 <= i <= |items|
        invariant forall j :: 0 <= j < i ==> items[j].key != key
        invariant Lookup(items, key) == Lookup(items[i..], key)
      {
        if items[i].key == key {
          return Some(items[i]);
        }
        assert items[i..][1..] == items[i + 1..];
        i := i + 1;
      }
      if !allocOk {
        return None;
      }
      var item := new ListItem(key);
      assert ([item] + items)[1..] == items;
      items := [item] + items;
      return Some(item);
    }
  }
}
