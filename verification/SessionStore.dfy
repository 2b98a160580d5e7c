/** The in-memory session store: a map of expiring entries with a bounded size,
    swept lazily. The sweep is skipped while `nextExpiry`, a cached lower bound,
    lies in the future. */
module SessionStore {
  import opened Sets
  import opened Items

  datatype Entry = Entry(value: string, expiresAt: int)

  const DEFAULT_CAPACITY: nat := 4096

  function EffectiveCapacity(capacity: int): (c: nat)
    ensures c > 0
  {
    if capacity <= 0 then DEFAULT_CAPACITY else capacity
  }

  predicate Live(entry: Entry, now: int) {
    entry.expiresAt > now
  }

  /** What a full sweep at `now` leaves. */
  function Swept(items: map<string, Entry>, now: int): map<string, Entry> {
    map key | key in items && Live(items[key], now) :: items[key]
  }

  ghost predicate LowerBound(items: map<string, Entry>, bound: Option<int>) {
    bound.Some? ==> forall key :: key in items ==> bound.value <= items[key].expiresAt
  }

  ghost predicate Earliest(items: map<string, Entry>, bound: Option<int>) {
    && LowerBound(items, bound)
    && (bound.Some? <==> items != map[])
    && (bound.Some? ==> exists key :: key in items && items[key].expiresAt == bound.value)
  }

  /** The sweep part way: `pending` keys have not been looked at yet. */
  ghost function Remaining(before: map<string, Entry>, pending: set<string>, now: int): map<string, Entry> {
    map key | key in before && (key in pending || Live(before[key], now)) :: before[key]
  }

  ghost function Visited(before: map<string, Entry>, pending: set<string>, now: int): map<string, Entry> {
    map key | key in before && key !in pending && Live(before[key], now) :: before[key]
  }

  ghost function Sooner(next: Option<int>, entry: Entry, now: int): Option<int> {
    if Live(entry, now) && (next == None || entry.expiresAt < next.value) then Some(entry.expiresAt) else next
  }

  /** A cached bound in the future says that a sweep would remove nothing. */
  lemma BoundInTheFutureLeavesAllLive(items: map<string, Entry>, bound: int, now: int)
    requires LowerBound(items, Some(bound)) && bound > now
    ensures Swept(items, now) == items
  {
    forall key | key in items ensures Live(items[key], now) {}
  }

  /** `put` refuses a new key when the swept map is full. */
  predicate Refuses(items: map<string, Entry>, capacity: nat, key: string, now: int) {
    key !in Swept(items, now) && |Swept(items, now)| >= capacity
  }

  function AfterPut(items: map<string, Entry>, capacity: nat, key: string, entry: Entry, now: int): map<string, Entry> {
    if Refuses(items, capacity, key, now) then Swept(items, now) else Swept(items, now)[key := entry]
  }

  /** The second half of `get`: drop the key if what it holds by now has expired. */
  function AfterEvict(items: map<string, Entry>, key: string, now: int): map<string, Entry> {
    if key in items && !Live(items[key], now) then items - {key} else items
  }

  function Answer(seen: Option<Entry>, now: int): Option<string> {
    if seen.Some? && Live(seen.value, now) then Some(seen.value.value) else None
  }

  class MemoryStore {
    var items: map<string, Entry>
    var nextExpiry: Option<int>
    const capacity: int

    ghost predicate Valid()
      reads this
    {
      && LowerBound(items, nextExpiry)
      && |items| <= EffectiveCapacity(capacity)
    }

    constructor (limit: int)
      ensures Valid() && items == map[] && nextExpiry == None
      ensures capacity == EffectiveCapacity(limit) == if limit <= 0 then 4096 else limit
    {
      items, nextExpiry := map[], None;
      capacity := EffectiveCapacity(limit);
    }

    /** Whether the sweep runs or is skipped, the entries left are those of a full sweep. */
    method RemoveExpired(now: int)
      requires Valid()
      modifies this
      ensures Valid()
      ensures items == Swept(old(items), now)
      ensures if old(items) != map[] && old(nextExpiry).Some? && old(nextExpiry).value > now
              then nextExpiry == old(nextExpiry)
              else Earliest(items, nextExpiry)
    {
      if |items| == 0 {
        nextExpiry := None;
        return;
      }
      if nextExpiry.Some? && nextExpiry.value > now {
        BoundInTheFutureLeavesAllLive(items, nextExpiry.value, now);
        return;
      }
      var before := items;
      var pending := items.Keys;
      nextExpiry := None;
      while pending != {}
        invariant pending <= before.Keys
        invariant items == Remaining(before, pending, now)
        invariant Earliest(Visited(before, pending, now), nextExpiry)
      {
        var key :| key in pending;
        var entry := items[key];
        VisitOne(before, pending, now, key, nextExpiry);
        if !Live(entry, now) {
          items := items - {key};
        } else if nextExpiry == None || entry.expiresAt < nextExpiry.value {
          nextExpiry := Some(entry.expiresAt);
        }
        pending := pending - {key};
      }
      assert Visited(before, pending, now) == Swept(before, now);
      assert items == Swept(before, now);
      SmallerMapHasFewerKeys(items, before);
    }

    method Put(key: string, value: string, ttl: int, now: int) returns (stored: bool)
      requires Valid()
      modifies this
      ensures Valid()
      ensures stored == !Refuses(old(items), EffectiveCapacity(capacity), key, now)
      ensures items == AfterPut(old(items), EffectiveCapacity(capacity), key, Entry(value, now + ttl), now)
    {
      RemoveExpired(now);
      if key !in items && |items| >= EffectiveCapacity(capacity) {
        return false;
      }
      var expiresAt := now + ttl;
      AddingGrows(items, key, Entry(value, expiresAt));
      items := items[key := Entry(value, expiresAt)];
      if nextExpiry == None || expiresAt < nextExpiry.value {
        nextExpiry := Some(expiresAt);
      }
      return true;
    }

    /** The first half of `get`, under the read lock. */
    method Snapshot(key: string) returns (seen: Option<Entry>)
      ensures seen == if key in items then Some(items[key]) else None
    {
      seen := if key in items then Some(items[key]) else None;
    }

    /** The second half, under the write lock. The map may have changed since the snapshot. */
    method Evict(key: string, now: int)
      requires Valid()
      modifies this
      ensures Valid()
      ensures items == AfterEvict(old(items), key, now)
    {
      if key in items {
        var current := items[key];
        if !Live(current, now) {
          RemovingShrinks(items, key);
          items := items - {key};
          if nextExpiry == Some(current.expiresAt) {
            nextExpiry := None;
          }
        }
      }
    }

    method Get(key: string, now: int) returns (value: Option<string>)
      requires Valid()
      modifies this
      ensures Valid()
      ensures value == Answer(if key in old(items) then Some(old(items)[key]) else None, now)
      ensures value ==
        if key in old(items) && now < old(items)[key].expiresAt then Some(old(items)[key].value) else None
      ensures items == if value.Some? then old(items) else old(items) - {key}
      ensures items == AfterEvict(old(items), key, now)
    {
      var seen := Snapshot(key);
      if seen == None {
        return None;
      }
      if !Live(seen.value, now) {
        Evict(key, now);
        return None;
      }
      return Some(seen.value.value);
    }

    method Delete(key: string)
      requires Valid()
      modifies this
      ensures Valid()
      ensures items == old(items) - {key}
    {
      var found := if key in items then Some(items[key]) else None;
      if key in items {
        RemovingShrinks(items, key);
      }
      items := items - {key};
      if found.Some? && nextExpiry == Some(found.value.expiresAt) {
        nextExpiry := None;
      }
    }
  }

  /** One round of the sweep, whichever key it takes. */
  lemma VisitOne(before: map<string, Entry>, pending: set<string>, now: int, key: string, next: Option<int>)
    requires key in pending && pending <= before.Keys
    requires Earliest(Visited(before, pending, now), next)
    ensures var entry := before[key];
      && Remaining(before, pending - {key}, now) ==
           (if Live(entry, now) then Remaining(before, pending, now) else Remaining(before, pending, now) - {key})
      && Earliest(Visited(before, pending - {key}, now), Sooner(next, entry, now))
  {
    var entry := before[key];
    var more := Visited(before, pending - {key}, now);
    var passed := Visited(before, pending, now);
    if Live(entry, now) {
      assert more == passed[key := entry];
      assert more[key] == entry;
      if next.Some? && next.value <= entry.expiresAt {
        var k :| k in passed && passed[k].expiresAt == next.value;
        assert more[k].expiresAt == next.value;
      }
    } else {
      assert more == passed;
    }
  }

  lemma SmallerMapHasFewerKeys(small: map<string, Entry>, large: map<string, Entry>)
    requires small.Keys <= large.Keys
    ensures |small| <= |large|
  {
    SubsetIsNoLarger(small.Keys, large.Keys);
    assert |small| == |small.Keys| && |large| == |large.Keys|;
  }

  lemma AddingGrows(items: map<string, Entry>, key: string, entry: Entry)
    ensures |items[key := entry]| == if key in items then |items| else |items| + 1
  {
    assert items[key := entry].Keys == items.Keys + {key};
    if key in items {
      assert items.Keys + {key} == items.Keys;
    }
  }

  lemma RemovingShrinks(items: map<string, Entry>, key: string)
    requires key in items
    ensures |items - {key}| == |items| - 1
  {
    assert (items - {key}).Keys == items.Keys - {key};
  }
}
