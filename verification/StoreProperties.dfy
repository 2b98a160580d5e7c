/** The session store, run by any number of concurrent callers, against a plain
    timed map that never forgets an expired entry. */
module StoreProperties {
  import opened Items
  import opened SessionStore

  /** Each event is one critical section. `Put` reads the clock before it takes
      the lock and `Get` reads it between its two halves, so the times carried by
      successive events need not increase. */
  datatype Event =
    | Put(key: string, entry: Entry, now: int)
    | Delete(key: string)
    | Look(caller: nat, key: string)
    | Conclude(caller: nat, now: int)

  /** A `get` between its two halves: what it saw, what the timed map held at that
      point, and the latest time any event had used by then. */
  datatype Reader = Reader(key: string, seen: Option<Entry>, held: Option<Entry>, since: int)

  datatype Joint = Joint(items: map<string, Entry>, timed: map<string, Entry>, latest: int, readers: map<nat, Reader>)

  function Max(a: int, b: int): int {
    if a < b then b else a
  }

  function Find(items: map<string, Entry>, key: string): Option<Entry> {
    if key in items then Some(items[key]) else None
  }

  function Step(s: Joint, capacity: nat, event: Event): Joint {
    match event
    case Put(key, entry, now) =>
      s.(items := AfterPut(s.items, capacity, key, entry, now),
         timed := if Refuses(s.items, capacity, key, now) then s.timed else s.timed[key := entry],
         latest := Max(s.latest, now))
    case Delete(key) =>
      s.(items := s.items - {key}, timed := s.timed - {key})
    case Look(caller, key) =>
      s.(readers := s.readers[caller := Reader(key, Find(s.items, key), Find(s.timed, key), s.latest)])
    case Conclude(caller, now) =>
      if caller !in s.readers then s
      else
        var reader := s.readers[caller];
        s.(items := if reader.seen.Some? && !Live(reader.seen.value, now)
                    then AfterEvict(s.items, reader.key, now) else s.items,
           latest := Max(s.latest, now),
           readers := s.readers - {caller})
  }

  function RunOf(capacity: nat, start: int, events: seq<Event>): Joint {
    if events == [] then Joint(map[], map[], start, map[])
    else Step(RunOf(capacity, start, events[..|events| - 1]), capacity, events[|events| - 1])
  }

  /** What is stored is in the timed map, and what the timed map still holds alive
      at `latest` is stored. */
  ghost predicate Agree(stored: Option<Entry>, timed: Option<Entry>, latest: int) {
    && (stored.Some? ==> timed == stored)
    && (timed.Some? && Live(timed.value, latest) ==> stored == timed)
  }

  ghost predicate Inv(s: Joint, capacity: nat) {
    && |s.items| <= capacity
    && (forall key :: Agree(Find(s.items, key), Find(s.timed, key), s.latest))
    && (forall caller :: caller in s.readers ==>
          Agree(s.readers[caller].seen, s.readers[caller].held, s.readers[caller].since))
  }

  lemma StepKeepsInv(s: Joint, capacity: nat, event: Event)
    requires Inv(s, capacity)
    ensures Inv(Step(s, capacity, event), capacity)
  {
    var next := Step(s, capacity, event);
    StepKeepsTheBound(s, capacity, event);
    forall key ensures Agree(Find(next.items, key), Find(next.timed, key), next.latest) {
      assert Agree(Find(s.items, key), Find(s.timed, key), s.latest);
      match event
      case Put(k, entry, now) => PutKeepsAgreement(s, capacity, k, entry, now, key);
      case Conclude(caller, now) => EvictKeepsAgreement(s, capacity, caller, now, key);
      case _ =>
    }
    StepKeepsReaders(s, capacity, event);
  }

  lemma PutKeepsAgreement(s: Joint, capacity: nat, put: string, entry: Entry, now: int, key: string)
    requires Agree(Find(s.items, key), Find(s.timed, key), s.latest)
    ensures var next := Step(s, capacity, Put(put, entry, now));
      Agree(Find(next.items, key), Find(next.timed, key), next.latest)
  {
    var swept := Swept(s.items, now);
    assert Find(swept, key) == if key in s.items && Live(s.items[key], now) then Some(s.items[key]) else None;
    assert Agree(Find(swept, key), Find(s.timed, key), Max(s.latest, now));
  }

  lemma EvictKeepsAgreement(s: Joint, capacity: nat, caller: nat, now: int, key: string)
    requires Agree(Find(s.items, key), Find(s.timed, key), s.latest)
    ensures var next := Step(s, capacity, Conclude(caller, now));
      Agree(Find(next.items, key), Find(next.timed, key), next.latest)
  {
    if caller in s.readers {
      var evicted := AfterEvict(s.items, s.readers[caller].key, now);
      assert Find(evicted, key) == Find(s.items, key)
        || (Find(evicted, key) == None && !Live(s.items[key], now));
      assert Agree(Find(evicted, key), Find(s.timed, key), Max(s.latest, now));
    }
  }

  lemma StepKeepsReaders(s: Joint, capacity: nat, event: Event)
    requires Inv(s, capacity)
    ensures var next := Step(s, capacity, event);
      forall caller :: caller in next.readers ==>
        Agree(next.readers[caller].seen, next.readers[caller].held, next.readers[caller].since)
  {
    if event.Look? {
      assert Agree(Find(s.items, event.key), Find(s.timed, event.key), s.latest);
    }
  }

  lemma StepKeepsTheBound(s: Joint, capacity: nat, event: Event)
    requires |s.items| <= capacity
    ensures |Step(s, capacity, event).items| <= capacity
  {
    var next := Step(s, capacity, event);
    if event.Put? {
      var swept := Swept(s.items, event.now);
      SmallerMapHasFewerKeys(swept, s.items);
      if !Refuses(s.items, capacity, event.key, event.now) {
        AddingGrows(swept, event.key, event.entry);
      }
    } else {
      SmallerMapHasFewerKeys(next.items, s.items);
    }
  }

  lemma {:induction false} EveryRunKeepsInv(capacity: nat, start: int, events: seq<Event>)
    ensures Inv(RunOf(capacity, start, events), capacity)
  {
    if events != [] {
      EveryRunKeepsInv(capacity, start, events[..|events| - 1]);
      StepKeepsInv(RunOf(capacity, start, events[..|events| - 1]), capacity, events[|events| - 1]);
    }
  }

  /** In every interleaving the store and the timed map hold the same live entries
      at every time no earlier than the clocks read so far, and the store never
      outgrows its capacity. */
  lemma EveryRunHoldsTheLiveEntries(capacity: nat, start: int, events: seq<Event>, now: int)
    requires RunOf(capacity, start, events).latest <= now
    ensures var s := RunOf(capacity, start, events);
      Swept(s.items, now) == Swept(s.timed, now) && |s.items| <= capacity
  {
    EveryRunKeepsInv(capacity, start, events);
    var s := RunOf(capacity, start, events);
    forall key ensures Find(Swept(s.items, now), key) == Find(Swept(s.timed, now), key) {
      assert Agree(Find(s.items, key), Find(s.timed, key), s.latest);
    }
    SameFindsSameMap(Swept(s.items, now), Swept(s.timed, now));
  }

  lemma SameFindsSameMap(a: map<string, Entry>, b: map<string, Entry>)
    requires forall key :: Find(a, key) == Find(b, key)
    ensures a == b
  {
    forall key ensures key in a <==> key in b {
      assert Find(a, key) == Find(b, key);
    }
    forall key | key in a ensures a[key] == b[key] {
      assert Find(a, key) == Find(b, key);
    }
  }

  /** A `get` answers what the timed map held when the key was looked up, judged
      by the time `get` read afterwards, whatever happened in between. */
  lemma GetAnswersFromTheTimedMap(capacity: nat, start: int, events: seq<Event>, caller: nat, now: int)
    requires caller in RunOf(capacity, start, events).readers
    requires RunOf(capacity, start, events).readers[caller].since <= now
    ensures var reader := RunOf(capacity, start, events).readers[caller];
      Answer(reader.seen, now) == Answer(reader.held, now)
  {
    EveryRunKeepsInv(capacity, start, events);
    var s := RunOf(capacity, start, events);
    assert Agree(s.readers[caller].seen, s.readers[caller].held, s.readers[caller].since);
  }

  /** The event does not write or delete the key, and happens while the entry is alive. */
  predicate Spares(event: Event, key: string, entry: Entry) {
    match event
    case Put(other, _, now) => other != key && Live(entry, now)
    case Delete(other) => other != key
    case Look(_, _) => true
    case Conclude(_, now) => Live(entry, now)
  }

  /** A stored entry stays until it is overwritten, deleted or expired, whatever sweeps and late evictions
      other callers still have under way; in particular an eviction begun for an expired entry spares
      the one that was written in its place. */
  lemma {:induction false} ALiveEntryStays(capacity: nat, start: int, events: seq<Event>, more: seq<Event>, key: string)
    requires key in RunOf(capacity, start, events).items
    requires forall event :: event in more ==> Spares(event, key, RunOf(capacity, start, events).items[key])
    ensures Find(RunOf(capacity, start, events + more).items, key) == Some(RunOf(capacity, start, events).items[key])
    decreases |more|
  {
    if more == [] {
      assert events + more == events;
    } else {
      var init, last := more[..|more| - 1], more[|more| - 1];
      ALiveEntryStays(capacity, start, events, init, key);
      assert (events + more)[..|events + more| - 1] == events + init && (events + more)[|events + more| - 1] == last;
      StepSparesTheEntry(RunOf(capacity, start, events + init), capacity, last, key);
    }
  }

  /** A value that was accepted is answered until its time is up, and not from then on, as long as nobody else writes
      or deletes its key. */
  lemma AStoredValueIsAnswered(capacity: nat, start: int, events: seq<Event>, more: seq<Event>, key: string,
                               entry: Entry, now: int, later: int)
    requires !Refuses(RunOf(capacity, start, events).items, capacity, key, now)
    requires forall event :: event in more ==>
      match event
      case Put(other, _, at) => other != key && at < entry.expiresAt
      case Delete(other) => other != key
      case Look(_, _) => true
      case Conclude(_, at) => at < entry.expiresAt
    ensures var s := RunOf(capacity, start, events + [Put(key, entry, now)] + more);
      Answer(Find(s.items, key), later) == if later < entry.expiresAt then Some(entry.value) else None
  {
    RunOfOneMore(capacity, start, events, Put(key, entry, now));
    ALiveEntryStays(capacity, start, events + [Put(key, entry, now)], more, key);
  }

  lemma StepSparesTheEntry(s: Joint, capacity: nat, event: Event, key: string)
    requires key in s.items && Spares(event, key, s.items[key])
    ensures Find(Step(s, capacity, event).items, key) == Some(s.items[key])
  {
    if event.Conclude? && event.caller in s.readers && key != s.readers[event.caller].key {
      assert key in s.items - {s.readers[event.caller].key};
    }
  }

  /** A refused `put` means that the timed map really holds that many entries alive
      at the caller's time and the key is not stored alive; and with a clock that is
      not behind, the store refuses exactly when the timed map would. */
  lemma CapacityErrorsAreReal(capacity: nat, start: int, events: seq<Event>, key: string, now: int)
    ensures var s := RunOf(capacity, start, events);
      && (Refuses(s.items, capacity, key, now) ==> |Swept(s.timed, now)| >= capacity)
      && (s.latest <= now ==> (Refuses(s.items, capacity, key, now) <==> Refuses(s.timed, capacity, key, now)))
  {
    EveryRunKeepsInv(capacity, start, events);
    var s := RunOf(capacity, start, events);
    forall k | k in Swept(s.items, now) ensures k in Swept(s.timed, now) {
      assert Agree(Find(s.items, k), Find(s.timed, k), s.latest);
    }
    SmallerMapHasFewerKeys(Swept(s.items, now), Swept(s.timed, now));
    if s.latest <= now {
      EveryRunHoldsTheLiveEntries(capacity, start, events, now);
    }
  }

  /** A key that is stored alive can always be overwritten; a new one is refused exactly when `capacity` keys are
      stored alive. */
  lemma RefusedExactly(s: Joint, capacity: nat, key: string, now: int)
    ensures Refuses(s.items, capacity, key, now) <==>
      && (key in s.items ==> s.items[key].expiresAt <= now)
      && |map k | k in s.items && now < s.items[k].expiresAt :: s.items[k]| >= capacity
  {
    assert Swept(s.items, now) == map k | k in s.items && now < s.items[k].expiresAt :: s.items[k];
  }

  /** The second half of a `get` drops the key exactly when what it holds by then has expired, and no other key. */
  lemma EvictedExactly(items: map<string, Entry>, key: string, other: string, now: int)
    ensures Find(AfterEvict(items, key, now), other) ==
      if other == key && key in items && items[key].expiresAt <= now then None else Find(items, other)
  {
  }

  /* ---- a clock that lags behind ---- */

  /** Keys told apart by their lengths. */
  function Name(i: nat): (name: string)
    ensures |name| == i
  {
    seq(i, _ => 'k')
  }

  function Filled(n: nat, expiresAt: int): (items: map<string, Entry>)
    ensures forall key :: key in items <==> |key| < n && key == Name(|key|)
    ensures forall key :: key in items ==> items[key] == Entry("", expiresAt)
    ensures |items| == n
  {
    if n == 0 then map[] else Filled(n - 1, expiresAt)[Name(n - 1) := Entry("", expiresAt)]
  }

  function Fill(n: nat, now: int, expiresAt: int): seq<Event> {
    if n == 0 then [] else Fill(n - 1, now, expiresAt) + [Put(Name(n - 1), Entry("", expiresAt), now)]
  }

  lemma RunOfOneMore(capacity: nat, start: int, events: seq<Event>, event: Event)
    ensures RunOf(capacity, start, events + [event]) == Step(RunOf(capacity, start, events), capacity, event)
  {
    assert (events + [event])[..|events|] == events;
  }

  lemma AllAreLive(items: map<string, Entry>, now: int)
    requires forall key :: key in items ==> Live(items[key], now)
    ensures Swept(items, now) == items
  {
  }

  lemma {:induction false} FillingFills(capacity: nat, start: int, n: nat, now: int, expiresAt: int)
    requires n <= capacity && now < expiresAt
    ensures RunOf(capacity, start, Fill(n, now, expiresAt)) ==
      Joint(Filled(n, expiresAt), Filled(n, expiresAt), if n == 0 then start else Max(start, now), map[])
  {
    if n > 0 {
      FillingFills(capacity, start, n - 1, now, expiresAt);
      RunOfOneMore(capacity, start, Fill(n - 1, now, expiresAt), Put(Name(n - 1), Entry("", expiresAt), now));
      AllAreLive(Filled(n - 1, expiresAt), now);
    }
  }

  /** The store is filled at `now`, swept at `latest`, and emptied again. */
  lemma LaggingRun(capacity: nat, start: int, latest: int, now: int) returns (events: seq<Event>)
    requires capacity > 0 && start <= latest && now < latest
    ensures RunOf(capacity, start, events) ==
      Joint(map[], Filled(capacity, latest), latest, map[])
  {
    var filled, key := Filled(capacity, latest), Name(capacity);
    var full := Fill(capacity, now, latest);
    var swept := full + [Put(key, Entry("", latest), latest)];
    FillingFills(capacity, start, capacity, now, latest);
    RunOfOneMore(capacity, start, full, Put(key, Entry("", latest), latest));
    assert Swept(filled, latest) == map[];
    events := swept + [Delete(key)];
    RunOfOneMore(capacity, start, swept, Delete(key));
    assert map[][key := Entry("", latest)] - {key} == map[];
    assert filled[key := Entry("", latest)] - {key} == filled;
  }

  ghost predicate Disagree(capacity: nat, start: int, events: seq<Event>, latest: int, key: string, now: int) {
    var s := RunOf(capacity, start, events);
    s.latest == latest && Refuses(s.items, capacity, key, now) != Refuses(s.timed, capacity, key, now)
  }

  /** A `put` can be let in where the timed map would refuse it exactly when the caller's clock lags behind
      another's: for every time before the latest one used there is a run in which it happens, for no later
      time is there any. */
  lemma LaggingClocksDisagreeExactly(capacity: nat, start: int, latest: int, now: int)
    requires capacity > 0 && start <= latest
    ensures now < latest <==> exists events, key :: Disagree(capacity, start, events, latest, key, now)
  {
    if now < latest {
      var events := LaggingRun(capacity, start, latest, now);
      var key := Name(capacity);
      AllAreLive(Filled(capacity, latest), now);
      assert Swept(map[], now) == map[];
      assert Disagree(capacity, start, events, latest, key, now);
    }
    if events, key :| Disagree(capacity, start, events, latest, key, now) {
      CapacityErrorsAreReal(capacity, start, events, key, now);
    }
  }
}
