/** What the repaired input array promises the upstream and the client. */
module InputItemProperties {
  import opened Items
  import opened Requests
  import opened Escaping
  import opened Identity
  import opened RoundTrip
  import opened InputItems

  /* ---- the id of one item ---- */

  lemma PrefixIsShort(kind: Kind)
    ensures |Prefix(kind)| <= 4
  {
  }

  lemma CanonicalHasPrefix(kind: Kind, id: string)
    requires id != ""
    ensures Prefix(kind) <= Canonical(kind, id) && Canonical(kind, id) != ""
  {
  }

  lemma ShortenedIsAcceptable(d: Digests, kind: Kind, id: string, attempt: nat)
    requires WellSized(d) && Prefix(kind) <= id
    ensures Acceptable(kind, Shorten(d, id, attempt))
  {
    PrefixIsShort(kind);
    var kept := if ID_LIMIT - SUFFIX_LENGTH > |id| then |id| else ID_LIMIT - SUFFIX_LENGTH;
    assert |d.hash(id, attempt)| == SUFFIX_LENGTH - 1;
    assert id[..kept][..|Prefix(kind)|] == id[..|Prefix(kind)|] == Prefix(kind);
    assert Prefix(kind) <= Shorten(d, id, attempt);
  }

  lemma FreeIdIsAcceptable(d: Digests, kind: Kind, id: string, taken: set<string>)
    requires WellSized(d) && Prefix(kind) <= id
    ensures Acceptable(kind, FreeId(d, id, taken)) && Prefix(kind) <= FreeId(d, id, taken)
  {
    var attempt := if SearchEnds(d, id, taken) then FirstFreeAttempt(d, id, taken) else 0;
    ShortenedIsAcceptable(d, kind, id, attempt);
    AcceptableHasPrefix(kind, Shorten(d, id, attempt));
  }

  lemma AcceptableHasPrefix(kind: Kind, id: string)
    requires Acceptable(kind, id) && id != ""
    ensures Prefix(kind) <= id
  {
    CanonicalHasPrefix(kind, id);
  }

  lemma PreferredHasPrefix(d: Digests, account: Option<Account>, kind: Kind, id: string)
    requires WellSized(d) && id != ""
    ensures var preferred := Preferred(d, account, kind, id);
      && Prefix(kind) <= preferred && preferred != ""
      && (Acceptable(kind, id) ==> preferred == id)
      && (|preferred| <= ID_LIMIT ==> Acceptable(kind, preferred))
  {
    CanonicalHasPrefix(kind, id);
    PrefixIsShort(kind);
    if account.Some? {
      assert Prefix(kind) <= Mapped(d, account.value, kind, id);
    }
  }

  /** The upstream accepts every id that is sent; an acceptable id is sent as it is, and a rewritten one
      is no id that some other item keeps, if the search made for it ends. */
  lemma AssignedId(d: Digests, account: Option<Account>, kind: Kind, id: string, reserved: set<string>,
                   used: set<string>)
    requires WellSized(d) && id != ""
    ensures var upstream := Assigned(d, account, kind, id, reserved, used);
      && Acceptable(kind, upstream)
      && (upstream == id <==> Acceptable(kind, id))
      && (upstream != id && Ends(d, account, kind, id, reserved, used) ==> upstream !in reserved)
  {
    PreferredHasPrefix(d, account, kind, id);
    FreeIdIsAcceptable(d, kind, Preferred(d, account, kind, id), reserved + used);
  }

  /* ---- every item of an array ---- */

  /** How one position of the repaired array relates to the item the client sent. */
  ghost predicate Placed(account: Option<Account>, original: Item, placed: Option<Item>, store: bool,
                         reserved: set<string>, mapping: Mapping)
  {
    placed.Some? ==>
      var sent, kept := placed.value, RepairReasoning(original, store);
      && kept.Some? && sent == kept.value.(id := sent.id)
      && (sent.id == "" <==> kept.value.id == "")
      && (sent.id != "" ==>
            && kept.value.id == original.id
            && Acceptable(sent.kind, sent.id)
            && (sent.id == original.id ==> sent.id in reserved)
            && (sent.id != original.id && account.Some? && mapping.failure.None? ==>
                  sent.id in mapping.reverse && mapping.reverse[sent.id] == original.id))
  }

  lemma PlacedLater(account: Option<Account>, original: Item, placed: Option<Item>, store: bool,
                    reserved: set<string>, earlier: Mapping, later: Mapping)
    requires Placed(account, original, placed, store, reserved, earlier) && Extends(later, earlier)
    ensures Placed(account, original, placed, store, reserved, later)
  {
  }

  lemma RepairKeepsTheId(item: Item, store: bool)
    requires RepairReasoning(item, store).Some?
    ensures var kept := RepairReasoning(item, store).value;
      kept.kind == item.kind && kept.callId == item.callId && (kept.id == "" || kept.id == item.id)
  {
  }

  lemma AdvanceExtends(d: Digests, account: Option<Account>, item: Item, store: bool, reserved: set<string>,
                       p: Progress)
    requires WellFormed(p.mapping)
    ensures var next := Advance(d, account, item, store, reserved, p);
      && |next.out| == |p.out| + 1 && next.out[..|p.out|] == p.out
      && WellFormed(next.mapping) && Extends(next.mapping, p.mapping)
  {
    RememberExtends(p.mapping, IdOf(SentItem(d, account, item, store, reserved, p.used)), item.id);
  }

  lemma AdvancePlaces(d: Digests, account: Option<Account>, items: seq<Item>, n: nat, store: bool, p: Progress)
    requires n < |items| && WellSized(d) && WellFormed(p.mapping)
    ensures var next := Advance(d, account, items[n], store, Reserved(items), p);
      Placed(account, items[n], next.out[|p.out|], store, Reserved(items), next.mapping)
  {
    var item, reserved := items[n], Reserved(items);
    var sent := SentItem(d, account, item, store, reserved, p.used);
    if IdOf(sent) != "" {
      RepairKeepsTheId(item, store);
      AssignedId(d, account, item.kind, item.id, reserved, p.used);
      RememberExtends(p.mapping, sent.value.id, item.id);
      assert item in items;
    }
  }

  lemma {:induction false} ThroughPlaces(d: Digests, account: Option<Account>, items: seq<Item>, store: bool,
                                         mapping: Mapping, n: nat)
    requires n <= |items| && WellSized(d) && WellFormed(mapping)
    ensures var p := Through(d, account, items, store, mapping, n);
      && WellFormed(p.mapping) && Extends(p.mapping, mapping)
      && forall i :: 0 <= i < n ==> Placed(account, items[i], p.out[i], store, Reserved(items), p.mapping)
  {
    if n > 0 {
      ThroughPlaces(d, account, items, store, mapping, n - 1);
      var p := Through(d, account, items, store, mapping, n - 1);
      AdvancePlaces(d, account, items, n - 1, store, p);
      AdvanceExtends(d, account, items[n - 1], store, Reserved(items), p);
      var next := Through(d, account, items, store, mapping, n);
      ExtendsTransitive(mapping, p.mapping, next.mapping);
      forall i | 0 <= i < n - 1
        ensures Placed(account, items[i], next.out[i], store, Reserved(items), next.mapping)
      {
        assert next.out[i] == p.out[i];
        PlacedLater(account, items[i], p.out[i], store, Reserved(items), p.mapping, next.mapping);
      }
    }
  }

  ghost predicate Appends(before: Progress, after: Progress, sent: Option<Item>) {
    && after.out == before.out + [sent]
    && before.used <= after.used
    && (IdOf(sent) != "" ==> IdOf(sent) in after.used)
  }

  lemma {:induction false} AppendedStay(steps: seq<Progress>, sent: seq<Option<Item>>, n: nat, i: nat)
    requires |steps| == |sent| + 1 && steps[0].out == [] && i < n <= |sent|
    requires forall k :: 0 <= k < |sent| ==> Appends(steps[k], steps[k + 1], sent[k])
    ensures |steps[n].out| == n && steps[n].out[i] == sent[i]
    ensures IdOf(sent[i]) != "" ==> IdOf(sent[i]) in steps[n].used
  {
    assert Appends(steps[n - 1], steps[n], sent[n - 1]);
    if i < n - 1 {
      AppendedStay(steps, sent, n - 1, i);
    } else if n > 1 {
      AppendedStay(steps, sent, n - 1, 0);
    }
  }

  /** What each position was sent as, and that every id sent is in use from then on. */
  lemma SentAt(d: Digests, account: Option<Account>, items: seq<Item>, store: bool, mapping: Mapping, n: nat, i: nat)
    requires i < n <= |items|
    ensures var p := Through(d, account, items, store, mapping, n);
      && p.out[i] ==
         SentItem(d, account, items[i], store, Reserved(items), Through(d, account, items, store, mapping, i).used)
      && (IdOf(p.out[i]) != "" ==> IdOf(p.out[i]) in p.used)
  {
    var steps := Steps(d, account, items, store, mapping);
    StepsStart(d, account, items, store, mapping);
    var sent := seq(|items|, k requires 0 <= k < |items| =>
      SentItem(d, account, items[k], store, Reserved(items), steps[k].used));
    forall k | 0 <= k < |items|
      ensures Appends(steps[k], steps[k + 1], sent[k])
    {
    }
    AppendedStay(steps, sent, n, i);
  }

  /** How an id that is sent came about. */
  lemma SentIdAt(d: Digests, account: Option<Account>, items: seq<Item>, store: bool, mapping: Mapping, n: nat, i: nat)
    requires i < n <= |items| && WellSized(d)
    ensures var sent := Through(d, account, items, store, mapping, n).out[i];
      var used := Through(d, account, items, store, mapping, i).used;
      IdOf(sent) != "" ==>
        && items[i].id != ""
        && IdOf(sent) == Assigned(d, account, items[i].kind, items[i].id, Reserved(items), used)
        && (IdOf(sent) == items[i].id <==> Acceptable(items[i].kind, items[i].id))
        && (Terminates(d, account, items, store, mapping) ==>
              && Ends(d, account, items[i].kind, items[i].id, Reserved(items), used)
              && (IdOf(sent) != items[i].id ==> IdOf(sent) !in Reserved(items)))
  {
    SentAt(d, account, items, store, mapping, n, i);
    var used := Through(d, account, items, store, mapping, i).used;
    if IdOf(Through(d, account, items, store, mapping, n).out[i]) != "" {
      RepairKeepsTheId(items[i], store);
      AssignedId(d, account, items[i].kind, items[i].id, Reserved(items), used);
      if Terminates(d, account, items, store, mapping) {
        assert EndsFor(d, account, items[i], store, Reserved(items), used);
      }
    }
  }

  /** With an identity and no mapping failure: every id sent has at most 64 characters and its kind's
      prefix, a rewritten id is recorded for exactly its client id, and items with different client ids
      are sent with different ids. Nothing is assumed about the digests beyond their length, except
      that the searches made for this array end. */
  lemma SanitizedIdsAreFaithful(d: Digests, account: Account, items: seq<Item>, store: bool, mapping: Mapping)
    requires WellSized(d) && WellFormed(mapping) && Terminates(d, Some(account), items, store, mapping)
    requires Through(d, Some(account), items, store, mapping, |items|).mapping.failure.None?
    ensures var p := Through(d, Some(account), items, store, mapping, |items|);
      && (forall i :: 0 <= i < |items| && IdOf(p.out[i]) != "" ==>
            var sent := p.out[i].value;
            && |sent.id| <= ID_LIMIT && Prefix(sent.kind) <= sent.id
            && (sent.id != items[i].id ==>
                  sent.id in p.mapping.reverse && p.mapping.reverse[sent.id] == items[i].id))
      && (forall i, j ::
            (0 <= i < j < |items| && IdOf(p.out[i]) != "" && items[i].id != items[j].id)
            ==> IdOf(p.out[i]) != IdOf(p.out[j]))
  {
    ThroughPlaces(d, Some(account), items, store, mapping, |items|);
    var p := Through(d, Some(account), items, store, mapping, |items|);
    forall i | 0 <= i < |items| && IdOf(p.out[i]) != ""
      ensures var sent := p.out[i].value;
        && |sent.id| <= ID_LIMIT && Prefix(sent.kind) <= sent.id
        && (sent.id != items[i].id ==> sent.id in p.mapping.reverse && p.mapping.reverse[sent.id] == items[i].id)
    {
      PlacedFits(account, items[i], p.out[i], store, Reserved(items), p.mapping);
    }
    forall i, j | 0 <= i < j < |items| && IdOf(p.out[i]) != "" && items[i].id != items[j].id
      ensures IdOf(p.out[i]) != IdOf(p.out[j])
    {
      RewrittenAvoidsKept(d, Some(account), items, store, mapping, i);
      RewrittenAvoidsKept(d, Some(account), items, store, mapping, j);
      PlacedApart(account, items[i], p.out[i], items[j], p.out[j], store, Reserved(items), p.mapping);
    }
  }

  lemma PlacedFits(account: Account, original: Item, placed: Option<Item>, store: bool, reserved: set<string>,
                   mapping: Mapping)
    requires Placed(Some(account), original, placed, store, reserved, mapping) && mapping.failure.None?
    requires IdOf(placed) != ""
    ensures |placed.value.id| <= ID_LIMIT && Prefix(placed.value.kind) <= placed.value.id
    ensures placed.value.id != original.id ==>
      placed.value.id in mapping.reverse && mapping.reverse[placed.value.id] == original.id
  {
    AcceptableHasPrefix(placed.value.kind, placed.value.id);
  }

  lemma RewrittenAvoidsKept(d: Digests, account: Option<Account>, items: seq<Item>, store: bool, mapping: Mapping,
                            i: nat)
    requires WellSized(d) && Terminates(d, account, items, store, mapping) && i < |items|
    ensures var sent := Through(d, account, items, store, mapping, |items|).out[i];
      IdOf(sent) != "" && IdOf(sent) != items[i].id ==> IdOf(sent) !in Reserved(items)
  {
    SentIdAt(d, account, items, store, mapping, |items|, i);
  }

  lemma PlacedApart(account: Account, a: Item, x: Option<Item>, b: Item, y: Option<Item>, store: bool,
                    reserved: set<string>, mapping: Mapping)
    requires Placed(Some(account), a, x, store, reserved, mapping)
    requires Placed(Some(account), b, y, store, reserved, mapping)
    requires IdOf(x) != "" && IdOf(x) != a.id ==> IdOf(x) !in reserved
    requires IdOf(y) != "" && IdOf(y) != b.id ==> IdOf(y) !in reserved
    requires a.id != b.id && IdOf(x) != "" && mapping.failure.None?
    ensures IdOf(x) != IdOf(y)
  {
  }

  /** A rewritten item id that the upstream repeats as a JSON string reaches the client as its own id. */
  lemma RewrittenIdComesBack(d: Digests, account: Account, items: seq<Item>, store: bool, mapping: Mapping,
                             i: nat, a: string, b: string)
    requires WellSized(d) && WellFormed(mapping) && i < |items|
    requires var p := Through(d, Some(account), items, store, mapping, |items|);
      p.mapping.failure.None? && IdOf(p.out[i]) != "" && IdOf(p.out[i]) != items[i].id
    requires MayPrecedeLiteral(a)
    ensures var p := Through(d, Some(account), items, store, mapping, |items|);
      Expose(p.mapping.reverse, a + (QUOTE + (Escape(p.out[i].value.id) + QUOTE + b))) ==
      Expose(p.mapping.reverse, a) + (QUOTE + (Escape(items[i].id) + Expose(p.mapping.reverse, QUOTE + b)))
  {
    ThroughPlaces(d, Some(account), items, store, mapping, |items|);
    var p := Through(d, Some(account), items, store, mapping, |items|);
    assert Placed(Some(account), items[i], p.out[i], store, Reserved(items), p.mapping);
    RecordedIdIsRestored(p.mapping.reverse, a, p.out[i].value.id, b);
  }

  /* ---- preparing twice ---- */

  /** Nothing about the item is left to repair. */
  predicate Prepared(item: Item, store: bool) {
    RepairReasoning(item, store) == Some(item) && (item.id != "" ==> Acceptable(item.kind, item.id))
  }

  lemma RepairIsStable(item: Item, store: bool, id: string)
    requires RepairReasoning(item, store).Some? && |id| <= ID_LIMIT
    requires id == "" <==> RepairReasoning(item, store).value.id == ""
    ensures var sent := RepairReasoning(item, store).value.(id := id);
      RepairReasoning(sent, store) == Some(sent)
  {
  }

  lemma SanitizedItemsArePrepared(d: Digests, account: Option<Account>, items: seq<Item>, store: bool,
                                  mapping: Mapping, i: nat)
    requires WellSized(d) && WellFormed(mapping) && i < |items|
    requires Through(d, account, items, store, mapping, |items|).out[i].Some?
    ensures Prepared(Through(d, account, items, store, mapping, |items|).out[i].value, store)
  {
    ThroughPlaces(d, account, items, store, mapping, |items|);
    var p := Through(d, account, items, store, mapping, |items|);
    PlacedIsPrepared(account, items[i], p.out[i], store, Reserved(items), p.mapping);
  }

  lemma PlacedIsPrepared(account: Option<Account>, original: Item, placed: Option<Item>, store: bool,
                         reserved: set<string>, mapping: Mapping)
    requires placed.Some? && Placed(account, original, placed, store, reserved, mapping)
    ensures Prepared(placed.value, store)
  {
    RepairIsStable(original, store, placed.value.id);
  }

  lemma PreparedItemStays(d: Digests, account: Option<Account>, item: Item, store: bool, reserved: set<string>,
                          p: Progress)
    requires WellSized(d)
    ensures var next := Advance(d, account, item, store, reserved, p);
      && |next.out| == |p.out| + 1 && next.out[..|p.out|] == p.out
      && (Prepared(item, store) ==> next.out[|p.out|] == Some(item) && next.mapping == p.mapping)
  {
    if Prepared(item, store) && item.id != "" {
      AssignedId(d, account, item.kind, item.id, reserved, p.used);
    }
  }

  /** How the array grows by one item. */
  ghost predicate Grows(before: Progress, after: Progress, item: Item, store: bool) {
    && |after.out| == |before.out| + 1 && after.out[..|before.out|] == before.out
    && (Prepared(item, store) ==> after.out[|before.out|] == Some(item) && after.mapping == before.mapping)
    && SameTraffic(after.out[|before.out|], item)
  }

  /** Only reasoning is ever dropped, and what stays is of the same kind and call. */
  predicate SameTraffic(sent: Option<Item>, item: Item) {
    if sent.None? then item.kind.Reasoning? else sent.value.kind == item.kind && sent.value.callId == item.callId
  }

  lemma ThroughGrows(d: Digests, account: Option<Account>, items: seq<Item>, store: bool, mapping: Mapping, n: nat)
    requires n < |items| && WellSized(d)
    ensures Grows(Through(d, account, items, store, mapping, n), Through(d, account, items, store, mapping, n + 1),
                  items[n], store)
  {
    var p := Through(d, account, items, store, mapping, n);
    PreparedItemStays(d, account, items[n], store, Reserved(items), p);
    AdvanceKeepsTraffic(d, account, items[n], store, Reserved(items), p);
  }

  lemma AdvanceKeepsTraffic(d: Digests, account: Option<Account>, item: Item, store: bool, reserved: set<string>,
                            p: Progress)
    requires WellSized(d)
    ensures SameTraffic(Advance(d, account, item, store, reserved, p).out[|p.out|], item)
  {
    if RepairReasoning(item, store).Some? {
      RepairKeepsTheId(item, store);
    }
  }

  /** The same for the whole array, as the progress made after each item. */
  ghost predicate GrowsTo(steps: seq<Progress>, items: seq<Item>, store: bool) {
    && |steps| == |items| + 1 && steps[0].out == []
    && forall n :: 0 <= n < |items| ==> Grows(steps[n], steps[n + 1], items[n], store)
  }

  ghost function Steps(d: Digests, account: Option<Account>, items: seq<Item>, store: bool, mapping: Mapping)
    : (steps: seq<Progress>)
    ensures |steps| == |items| + 1
    ensures forall n :: 0 <= n <= |items| ==> steps[n] == Through(d, account, items, store, mapping, n)
  {
    seq(|items| + 1, n requires 0 <= n <= |items| => Through(d, account, items, store, mapping, n))
  }

  lemma StepsGrow(d: Digests, account: Option<Account>, items: seq<Item>, store: bool, mapping: Mapping)
    requires WellSized(d)
    ensures GrowsTo(Steps(d, account, items, store, mapping), items, store)
    ensures Steps(d, account, items, store, mapping)[0].mapping == mapping
    ensures Steps(d, account, items, store, mapping)[|items|] == Through(d, account, items, store, mapping, |items|)
  {
    var steps := Steps(d, account, items, store, mapping);
    StepsStart(d, account, items, store, mapping);
    forall n | 0 <= n < |items|
      ensures Grows(steps[n], steps[n + 1], items[n], store)
    {
      ThroughGrows(d, account, items, store, mapping, n);
    }
  }

  lemma StepsStart(d: Digests, account: Option<Account>, items: seq<Item>, store: bool, mapping: Mapping)
    ensures Steps(d, account, items, store, mapping)[0] == Progress([], {}, mapping)
  {
  }

  lemma {:induction false} PreparedStay(steps: seq<Progress>, items: seq<Item>, store: bool, n: nat, i: nat)
    requires GrowsTo(steps, items, store) && i < n <= |items| && Prepared(items[i], store)
    ensures |steps[n].out| == n && steps[n].out[i] == Some(items[i])
  {
    assert Grows(steps[n - 1], steps[n], items[n - 1], store);
    OutHasItsLength(steps, items, store, n - 1);
    if i < n - 1 {
      PreparedStay(steps, items, store, n - 1, i);
      assert steps[n].out[..n - 1][i] == steps[n - 1].out[i];
    }
  }

  lemma {:induction false} OutHasItsLength(steps: seq<Progress>, items: seq<Item>, store: bool, n: nat)
    requires GrowsTo(steps, items, store) && n <= |items|
    ensures |steps[n].out| == n
  {
    if n > 0 {
      OutHasItsLength(steps, items, store, n - 1);
      assert Grows(steps[n - 1], steps[n], items[n - 1], store);
    }
  }

  lemma {:induction false} AllPreparedStay(steps: seq<Progress>, items: seq<Item>, store: bool, n: nat)
    requires GrowsTo(steps, items, store) && n <= |items|
    requires forall i :: 0 <= i < |items| ==> Prepared(items[i], store)
    ensures steps[n].mapping == steps[0].mapping && Present(steps[n].out) == items[..n]
  {
    if n > 0 {
      AllPreparedStay(steps, items, store, n - 1);
      assert Grows(steps[n - 1], steps[n], items[n - 1], store);
      PresentStep(steps[n - 1].out, Some(items[n - 1]));
      assert steps[n].out == steps[n - 1].out + [Some(items[n - 1])];
      assert items[..n] == items[..n - 1] + [items[n - 1]];
    }
  }

  /** Whatever else the array holds, an item that was prepared before is left alone. */
  lemma PreparedItemsStay(d: Digests, account: Option<Account>, items: seq<Item>, store: bool, mapping: Mapping, i: nat)
    requires i < |items| && WellSized(d) && Prepared(items[i], store)
    ensures Through(d, account, items, store, mapping, |items|).out[i] == Some(items[i])
  {
    StepsGrow(d, account, items, store, mapping);
    PreparedStay(Steps(d, account, items, store, mapping), items, store, |items|, i);
  }

  /** Preparing a prepared array changes no item and records nothing. */
  lemma PreparingTwiceIsPreparingOnce(d: Digests, account: Option<Account>, items: seq<Item>, store: bool,
                                      mapping: Mapping)
    requires WellSized(d)
    requires forall i :: 0 <= i < |items| ==> Prepared(items[i], store)
    ensures var p := Through(d, account, items, store, mapping, |items|);
      p.mapping == mapping && Present(p.out) == items
  {
    StepsGrow(d, account, items, store, mapping);
    AllPreparedStay(Steps(d, account, items, store, mapping), items, store, |items|);
    assert items[..|items|] == items;
  }

  /** The second preparation of an array gives the array back exactly when nothing in it was left to repair. */
  lemma PreparedArraysAreTheFixedPoints(d: Digests, account: Option<Account>, items: seq<Item>, store: bool,
                                        mapping: Mapping)
    requires WellSized(d) && WellFormed(mapping)
    ensures Present(Through(d, account, items, store, mapping, |items|).out) == items <==>
      forall i :: 0 <= i < |items| ==> Prepared(items[i], store)
  {
    var out := Through(d, account, items, store, mapping, |items|).out;
    if forall i :: 0 <= i < |items| ==> Prepared(items[i], store) {
      PreparingTwiceIsPreparingOnce(d, account, items, store, mapping);
    }
    if Present(out) == items {
      NothingWasDropped(out);
      forall i | 0 <= i < |items|
        ensures Prepared(items[i], store)
      {
        assert out[i] == Some(items[i]);
        SanitizedItemsArePrepared(d, account, items, store, mapping, i);
      }
    }
  }

  lemma {:induction false} PresentIsShort(out: seq<Option<Item>>)
    ensures |Present(out)| <= |out|
  {
    if out != [] {
      PresentIsShort(out[..|out| - 1]);
    }
  }

  lemma {:induction false} NothingWasDropped(out: seq<Option<Item>>)
    requires |Present(out)| == |out|
    ensures forall i :: 0 <= i < |out| ==> out[i] == Some(Present(out)[i])
  {
    if out != [] {
      PresentIsShort(out[..|out| - 1]);
      NothingWasDropped(out[..|out| - 1]);
    }
  }

  /* ---- without an identity ---- */

  /** Without an identity there is no record to collide with: whatever the hash, an over-long id and a
      short one can be sent as the same id. */
  lemma WithoutIdentityIdsCanCollide(d: Digests, long: string)
    requires WellSized(d) && |long| > ID_LIMIT && "msg" <= long && long[4] != 'm' && long[3] == '_'
    ensures var short := Shorten(d, long, 0)[4..];
      var items := [Item(Message, long, "", User, Missing, ""), Item(Message, short, "", User, Missing, "")];
      var p := Through(d, None, items, false, NO_MAPPING, 2);
      && Terminates(d, None, items, false, NO_MAPPING)
      && items[0].id != items[1].id
      && p.out[0].Some? && p.out[1].Some? && p.out[0].value.id == p.out[1].value.id
  {
    var shared := Shorten(d, long, 0);
    var first := Item(Message, long, "", User, Missing, "");
    var second := Item(Message, shared[4..], "", User, Missing, "");
    ShortenedMessageId(d, long);
    var items := [first, second];
    assert Reserved(items) == {};
    var start := Progress([], {}, NO_MAPPING);
    assert Through(d, None, items, false, NO_MAPPING, 0) == start;
    assert FirstFree(d, long, {}, 0);
    FirstFreeIsFreeId(d, long, {}, 0);
    var one := Through(d, None, items, false, NO_MAPPING, 1);
    assert one == Advance(d, None, first, false, {}, start);
    assert one.out == [Some(first.(id := shared))];
    assert Through(d, None, items, false, NO_MAPPING, 2) == Advance(d, None, second, false, {}, one);
    assert Assigned(d, None, Message, second.id, {}, one.used) == shared;
  }

  lemma ShortenedMessageId(d: Digests, long: string)
    requires WellSized(d) && |long| > ID_LIMIT && "msg" <= long && long[4] != 'm' && long[3] == '_'
    ensures var shared := Shorten(d, long, 0);
      && |shared| == ID_LIMIT && shared == "msg_" + shared[4..]
      && !("msg" <= shared[4..]) && Canonical(Message, shared[4..]) == shared
  {
    var shared := Shorten(d, long, 0);
    assert shared == long[..ID_LIMIT - SUFFIX_LENGTH] + "_" + d.hash(long, 0);
    assert shared[4..][0] == shared[4] == long[4];
    assert shared[..4] == long[..4] == "msg_";
  }

  lemma PrefixIsReadOff(kind: Kind, x: string)
    requires Prefix(kind) != ""
    ensures var s := Prefix(kind) + "_" + x;
      && s[0] == Prefix(kind)[0]
      && (s[0] == 'c' ==> |s| > 3 && s[3] == if Prefix(kind) == "ctc" then '_' else 'o')
      && s[|Prefix(kind)| + 1..] == x
  {
  }

  lemma PrefixesAreApart(a: Kind, b: Kind, x: string, y: string)
    requires Prefix(a) != "" && Prefix(b) != "" && Prefix(a) + "_" + x == Prefix(b) + "_" + y
    ensures x == y
  {
    PrefixIsReadOff(a, x);
    PrefixIsReadOff(b, y);
  }

  predicate SearchedAt(d: Digests, account: Option<Account>, items: seq<Item>, i: nat)
    requires i < |items|
  {
    Searches(d, account, items[i].kind, items[i].id, Reserved(items))
  }

  /** Without remapping, two ids are sent as one only if the first was looked for and the second was not:
      an array none of whose ids is looked for keeps its ids apart, identity or not. */
  lemma CollisionNeedsASearch(d: Digests, account: Option<Account>, items: seq<Item>, store: bool, mapping: Mapping,
                              i: nat, j: nat)
    requires WellSized(d) && Terminates(d, account, items, store, mapping)
    requires account.Some? ==> !account.value.remap
    requires i < j < |items| && items[i].id != items[j].id
    requires var out := Through(d, account, items, store, mapping, |items|).out; IdOf(out[i]) == IdOf(out[j]) != ""
    ensures SearchedAt(d, account, items, i) && !SearchedAt(d, account, items, j)
  {
    var reserved := Reserved(items);
    SentIdAt(d, account, items, store, mapping, |items|, i);
    SentIdAt(d, account, items, store, mapping, |items|, j);
    SentAt(d, account, items, store, mapping, |items|, i);
    SentAt(d, account, items, store, mapping, j, i);
    if !SearchedAt(d, account, items, i) && !SearchedAt(d, account, items, j) {
      assert Canonical(items[i].kind, items[i].id) == Canonical(items[j].kind, items[j].id);
      assert items[i] in items && items[j] in items;
      if !Acceptable(items[i].kind, items[i].id) && !Acceptable(items[j].kind, items[j].id) {
        PrefixesAreApart(items[i].kind, items[j].kind, items[i].id, items[j].id);
      }
    }
  }

  /* ---- tool traffic ---- */

  lemma TrafficOfAppended(items: seq<Item>, item: Item)
    ensures ToolOutputIds(items + [item]) ==
      if IsToolOutput(item) then ToolOutputIds(items) + {item.callId} else ToolOutputIds(items)
    ensures ToolCallIds(items + [item]) ==
      if IsToolCall(item) then ToolCallIds(items) + {item.callId} else ToolCallIds(items)
  {
  }

  lemma PresentTraffic(out: seq<Option<Item>>, last: Option<Item>, items: seq<Item>, item: Item)
    requires ToolOutputIds(Present(out)) == ToolOutputIds(items) && ToolCallIds(Present(out)) == ToolCallIds(items)
    requires SameTraffic(last, item)
    ensures ToolOutputIds(Present(out + [last])) == ToolOutputIds(items + [item])
    ensures ToolCallIds(Present(out + [last])) == ToolCallIds(items + [item])
  {
    PresentStep(out, last);
    TrafficOfAppended(items, item);
    if last.Some? {
      TrafficOfAppended(Present(out), last.value);
      assert IsToolOutput(last.value) == IsToolOutput(item) && IsToolCall(last.value) == IsToolCall(item);
    } else {
      assert !IsToolOutput(item) && !IsToolCall(item);
    }
  }

  lemma {:induction false} TrafficStays(steps: seq<Progress>, items: seq<Item>, store: bool, n: nat)
    requires GrowsTo(steps, items, store) && n <= |items|
    ensures ToolOutputIds(Present(steps[n].out)) == ToolOutputIds(items[..n])
    ensures ToolCallIds(Present(steps[n].out)) == ToolCallIds(items[..n])
  {
    if n > 0 {
      var before, after := steps[n - 1].out, steps[n].out;
      TrafficStays(steps, items, store, n - 1);
      assert Grows(steps[n - 1], steps[n], items[n - 1], store);
      PresentTraffic(before, after[|before|], items[..n - 1], items[n - 1]);
      assert after == before + [after[|before|]];
      assert items[..n] == items[..n - 1] + [items[n - 1]];
    }
  }

  /** Repairing an array drops no tool call and no tool output, and invents none. */
  lemma SanitizingKeepsToolTraffic(d: Digests, account: Option<Account>, items: seq<Item>, store: bool,
                                   mapping: Mapping)
    requires WellSized(d)
    ensures var sent := Present(Through(d, account, items, store, mapping, |items|).out);
      ToolOutputIds(sent) == ToolOutputIds(items) && ToolCallIds(sent) == ToolCallIds(items)
  {
    StepsGrow(d, account, items, store, mapping);
    TrafficStays(Steps(d, account, items, store, mapping), items, store, |items|);
    assert items[..|items|] == items;
  }

  /** The repair as a step of preparing a request that is not stored. A search that does not end sends
      nothing, like a mapping failure. */
  ghost function Sanitizer(d: Digests, account: Option<Account>, mapping: Mapping)
    : seq<Item> -> Result<seq<Item>, Error>
  {
    items =>
      var p := Through(d, account, items, false, mapping, |items|);
      if !Terminates(d, account, items, false, mapping) then Err(NoFreeId)
      else if account.Some? && p.mapping.failure.Some? then Err(IdentityRefused)
      else Ok(Present(p.out))
  }

  /** What every run asks of the repair holds of it, whatever the digests and the identity are. */
  lemma SanitizerKeepsToolTraffic(d: Digests, account: Option<Account>, mapping: Mapping)
    requires WellSized(d)
    ensures KeepsToolTraffic(Sanitizer(d, account, mapping))
  {
    var sanitize := Sanitizer(d, account, mapping);
    forall items: seq<Item> | sanitize(items).Ok?
      ensures ToolOutputIds(sanitize(items).value) == ToolOutputIds(items)
      ensures ToolCallIds(sanitize(items).value) == ToolCallIds(items)
    {
      SanitizingKeepsToolTraffic(d, account, items, false, mapping);
    }
  }
}
