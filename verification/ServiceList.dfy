/** The broker's list of services: a fixed array, refilled from the table and walked with first and next. */
module ServiceList {
  import opened Bytes
  import opened Schema

  class Services {
    const entries: array<Option<Id>>
    var size: nat
    var current: nat

    ghost predicate Valid()
      reads this, entries
    {
      && entries.Length > 0
      && size <= entries.Length
      && (forall i :: 0 <= i < size ==> entries[i].Some?)
      && (forall i :: size <= i < entries.Length ==> entries[i].None?)
    }

    /** The services in the order in which the walk visits them. */
    ghost function Listed(): (ids: seq<Id>)
      requires Valid()
      reads this, entries
      ensures |ids| == size
    {
      seq(size, i requires 0 <= i < size reads this, entries requires Valid() => entries[i].value)
    }

    constructor (capacity: nat)
      requires capacity > 0
      ensures Valid() && fresh(entries) && entries.Length == capacity && size == 0 && current == 0
    {
      entries := new Option<Id>[capacity](_ => None);
      size, current := 0, 0;
    }

    method AddService(id: Id) returns (ok: bool)
      requires Valid()
      modifies this`size, entries
      ensures Valid() && ok == (old(size) < entries.Length)
      ensures Listed() == if ok then old(Listed()) + [id] else old(Listed())
    {
      if size >= entries.Length {
        return false;
      }
      entries[size] := Some(id);
      size := size + 1;
      return true;
    }

    method Forget()
      requires Valid()
      modifies this`size, entries
      ensures Valid() && size == 0
    {
      var n := size;
      for i := 0 to n
        invariant size == n && forall k :: 0 <= k < i || n <= k < entries.Length ==> entries[k].None?
      {
        entries[i] := None;
      }
      size := 0;
    }

    /** Re-reads the table; services beyond the capacity are dropped. */
    method Refresh(services: map<Id, ServiceRow>)
      requires Valid()
      modifies this`size, entries
      ensures Valid() && Complete(Listed(), services.Keys, entries.Length)
    {
      Forget();
      var rest := services.Keys;
      while rest != {}
        invariant Valid() && rest <= services.Keys
        invariant Complete(Listed(), services.Keys - rest, entries.Length)
        decreases rest
      {
        var id :| id in rest;
        CompleteOneMore(Listed(), services.Keys - rest, entries.Length, id);
        var _ := AddService(id);
        assert services.Keys - (rest - {id}) == services.Keys - rest + {id};
        rest := rest - {id};
      }
      assert services.Keys - rest == services.Keys;
    }

    method First() returns (r: Option<Id>)
      requires Valid()
      modifies this`current
      ensures Valid() && Listed() == old(Listed()) && r == (if size > 0 then Some(Listed()[0]) else None)
      ensures current == if size == 0 then 0 else 1
    {
      current := 0;
      r := entries[current];
      if size != 0 {
        current := current + 1;
      }
    }

    method Next() returns (r: Option<Id>)
      requires Valid()
      modifies this`current
      ensures Valid() && Listed() == old(Listed())
      ensures r == if old(current) < size then Some(Listed()[old(current)]) else None
      ensures current == if old(current) < size then old(current) + 1 else old(current)
    {
      r := None;
      if current < size {
        r := entries[current];
        current := current + 1;
      }
    }
  }

  /** `ids` holds the elements of `all`, each once and as many as fit. */
  ghost predicate Complete(ids: seq<Id>, all: set<Id>, capacity: nat)
  {
    && (forall i :: 0 <= i < |ids| ==> ids[i] in all)
    && (forall i, j :: 0 <= i < j < |ids| ==> ids[i] != ids[j])
    && |ids| == if |all| < capacity then |all| else capacity
  }

  lemma CompleteOneMore(ids: seq<Id>, all: set<Id>, capacity: nat, id: Id)
    requires Complete(ids, all, capacity) && id !in all
    ensures Complete(if |ids| < capacity then ids + [id] else ids, all + {id}, capacity)
  {
    assert |all + {id}| == |all| + 1;
  }

  function Elements(ids: seq<Id>): set<Id> { set x | x in ids }

  lemma {:induction false} SetOfDistinct(ids: seq<Id>)
    requires forall i, j :: 0 <= i < j < |ids| ==> ids[i] != ids[j]
    ensures |Elements(ids)| == |ids|
  {
    if ids != [] {
      var init, last := ids[..|ids| - 1], ids[|ids| - 1];
      SetOfDistinct(init);
      assert Elements(ids) == Elements(init) + {last};
    }
  }
}
