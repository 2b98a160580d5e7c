/** When it does not matter in which groups items are merged. */
module MergeGrouping {
  import opened Items
  import opened Selection
  import opened ItemMerge

  /** Whether the item counts as referenced does not depend on the rest of the list. */
  predicate Fixed(item: Item) {
    IsToolOutput(item) || item.callId == ""
  }

  /** Items under one id are the same tool call or none, and their call ids tell them apart only where
      neither waits for a reference. */
  predicate Agrees(x: Item, y: Item) {
    x.id == y.id != "" ==>
      IsToolCall(x) == IsToolCall(y) && (x.callId == y.callId || (Fixed(x) && Fixed(y)))
  }

  ghost predicate Compatible(items: seq<Item>) {
    forall x, y :: x in items && y in items ==> Agrees(x, y)
  }

  lemma FewerAreCompatible(items: seq<Item>, fewer: seq<Item>)
    requires Compatible(items) && forall item :: item in fewer ==> item in items
    ensures Compatible(fewer)
  {
  }

  /* ---- merging one item at a time ---- */

  /** A later `x` takes the place of the item. */
  predicate Displaces(x: Item, item: Item) {
    item.id == x.id != "" && !(IsToolOutput(item) && x.callId == "")
  }

  function Without(items: seq<Item>, x: Item): seq<Item> {
    if items == [] then []
    else
      var rest, last := Without(items[..|items| - 1], x), items[|items| - 1];
      if Displaces(x, last) then rest else rest + [last]
  }

  ghost predicate Beaten(items: seq<Item>, x: Item) {
    x.id != "" && x.callId == "" && exists o :: o in items && o.id == x.id && IsToolOutput(o)
  }

  ghost function Insert(items: seq<Item>, x: Item): seq<Item> {
    if IsToolCall(x) then (if x.callId in ToolCallIds(items) then items else items + [x])
    else if Beaten(items, x) then Without(items, x)
    else Without(items, x) + [x]
  }

  lemma DedupMembers(items: seq<Item>)
    ensures forall item :: item in UniqueCalls(items) ==> item in items
    ensures forall item :: item in Dedup(items) ==> item in UniqueCalls(items)
  {
    PickMembers(items, CallFlags(items));
    PickMembers(UniqueCalls(items), IdFlags(UniqueCalls(items)));
  }

  /* ---- tool calls ---- */

  lemma {:induction false} CallPassKeepsCalls(items: seq<Item>)
    ensures ToolCallIds(UniqueCalls(items)) == ToolCallIds(items)
  {
    if items == [] {
      assert UniqueCalls(items) == [];
    } else {
      var init, last := items[..|items| - 1], items[|items| - 1];
      CallPassKeepsCalls(init);
      UniqueCallsStep(init, last);
      FirstOfCallIsUnseen(init, last);
      assert items == init + [last];
      CallsOfOneMore(init, last);
      CallsOfOneMore(UniqueCalls(init), last);
    }
  }

  lemma CallsOfOneMore(items: seq<Item>, x: Item)
    ensures ToolCallIds(items + [x]) == ToolCallIds(items) + (if IsToolCall(x) then {x.callId} else {})
  {
  }

  /** With compatible items no tool call is lost. */
  lemma CompatibleCallsStay(items: seq<Item>)
    requires Compatible(items)
    ensures ToolCallIds(Dedup(items)) == ToolCallIds(items)
  {
    var unique := UniqueCalls(items);
    CallPassKeepsCalls(items);
    DedupMembers(items);
    UniqueCallsAreDistinct(items);
    FewerAreCompatible(items, unique);
    PickMembers(unique, IdFlags(unique));
    forall id | id in ToolCallIds(unique)
      ensures id in ToolCallIds(Dedup(items))
    {
      var i :| 0 <= i < |unique| && IsToolCall(unique[i]) && unique[i].callId == id;
      CallIsKept(unique, i);
    }
  }

  lemma CallIsKept(unique: seq<Item>, i: nat)
    requires Compatible(unique) && DistinctCalls(unique) && i < |unique| && IsToolCall(unique[i])
    ensures Keeps(unique, i)
  {
    forall j | 0 <= j < |unique| && j != i && unique[i].id != ""
      ensures unique[j].id != unique[i].id
    {
      assert Agrees(unique[j], unique[i]);
    }
  }

  /* ---- the rule by which compatible items are kept ---- */

  ghost predicate RuleKeeps(items: seq<Item>, i: nat)
    requires i < |items|
  {
    && Undisplaced(items, i)
    && !Beaten(items[..i], items[i])
  }

  /** Which of two compatible items wins can be told from the two alone. */
  lemma PairRule(items: seq<Item>, i: nat, j: nat)
    requires Compatible(items) && DistinctCalls(items) && i < |items| && j < |items| && i != j
    requires items[i].id == items[j].id != ""
    ensures Outranks(items, i, j) <==>
      if i < j then !Displaces(items[j], items[i]) else !(items[i].callId == "" && IsToolOutput(items[j]))
  {
    assert Agrees(items[i], items[j]);
    assert items[i] in items && items[j] in items;
    assert i < j ==> !(IsToolCall(items[i]) && IsToolCall(items[j]) && items[i].callId == items[j].callId);
    assert j < i ==> !(IsToolCall(items[j]) && IsToolCall(items[i]) && items[j].callId == items[i].callId);
    if items[i].callId == items[j].callId {
      assert Referenced(items, i) == Referenced(items, j);
    } else {
      assert Referenced(items, i) == IsToolOutput(items[i]);
      assert Referenced(items, j) == IsToolOutput(items[j]);
    }
  }

  lemma RuleIsKeeps(items: seq<Item>, i: nat)
    requires Compatible(items) && DistinctCalls(items) && i < |items|
    ensures Keeps(items, i) <==> RuleKeeps(items, i)
  {
    if items[i].id != "" {
      forall j | 0 <= j < |items| && j != i && items[j].id == items[i].id
        ensures Outranks(items, i, j) <==>
          if i < j then !Displaces(items[j], items[i]) else !(items[i].callId == "" && IsToolOutput(items[j]))
      {
        PairRule(items, i, j);
      }
      assert forall j :: 0 <= j < i ==> items[..i][j] == items[j];
    }
  }

  ghost predicate Undisplaced(items: seq<Item>, i: nat)
    requires i < |items|
  {
    forall j :: i < j < |items| ==> !Displaces(items[j], items[i])
  }

  lemma UndisplacedByOneMore(items: seq<Item>, x: Item, i: nat)
    requires i < |items|
    ensures Undisplaced(items + [x], i) <==> Undisplaced(items, i) && !Displaces(x, items[i])
  {
    var all, n := items + [x], |items|;
    assert all[i] == items[i] && all[n] == x;
    if Undisplaced(all, i) {
      assert !Displaces(all[n], all[i]);
      forall j | i < j < n
        ensures !Displaces(items[j], items[i])
      {
        assert !Displaces(all[j], all[i]);
      }
    }
    if Undisplaced(items, i) && !Displaces(x, items[i]) {
      forall j | i < j < |all|
        ensures !Displaces(all[j], all[i])
      {
        assert all[j] == if j < n then items[j] else x;
      }
    }
  }

  lemma RuleOfOneMore(items: seq<Item>, x: Item, i: nat)
    requires i < |items|
    ensures RuleKeeps(items + [x], i) <==> RuleKeeps(items, i) && !Displaces(x, items[i])
  {
    UndisplacedByOneMore(items, x, i);
    assert (items + [x])[..i] == items[..i] && (items + [x])[i] == items[i];
  }

  lemma RuleOfTheLast(items: seq<Item>, x: Item)
    ensures RuleKeeps(items + [x], |items|) <==> !Beaten(items, x)
  {
    assert (items + [x])[..|items|] == items && (items + [x])[|items|] == x;
  }

  lemma WithoutStep(items: seq<Item>, item: Item, x: Item)
    ensures Without(items + [item], x) == if Displaces(x, item) then Without(items, x) else Without(items, x) + [item]
  {
    assert (items + [item])[..|items|] == items;
  }

  lemma {:induction false} TakingWithout(items: seq<Item>, keep: seq<bool>, fewer: seq<bool>, x: Item, n: nat)
    requires |keep| == |fewer| == |items| && n <= |items|
    requires forall i :: 0 <= i < |items| ==> fewer[i] == (keep[i] && !Displaces(x, items[i]))
    ensures Taken(items, fewer, n) == Without(Taken(items, keep, n), x)
  {
    if n > 0 {
      TakingWithout(items, keep, fewer, x, n - 1);
      WithoutOneMore(Taken(items, keep, n - 1), Taken(items, fewer, n - 1), items[n - 1], keep[n - 1], x);
    }
  }

  lemma WithoutOneMore(kept: seq<Item>, fewer: seq<Item>, item: Item, keep: bool, x: Item)
    requires fewer == Without(kept, x)
    ensures (if keep && !Displaces(x, item) then fewer + [item] else fewer) ==
      Without(if keep then kept + [item] else kept, x)
  {
    if keep {
      WithoutStep(kept, item, x);
    }
  }

  lemma FlagOfOneMore(items: seq<Item>, x: Item, i: nat)
    requires Compatible(items + [x]) && DistinctCalls(items + [x]) && i < |items|
    ensures Keeps(items + [x], i) == (Keeps(items, i) && !Displaces(x, items[i]))
  {
    var all := items + [x];
    FewerAreCompatible(all, items);
    assert forall j :: 0 <= j < |items| ==> all[j] == items[j];
    RuleIsKeeps(all, i);
    RuleIsKeeps(items, i);
    RuleOfOneMore(items, x, i);
  }

  lemma FlagOfTheLast(items: seq<Item>, x: Item)
    requires Compatible(items + [x]) && DistinctCalls(items + [x])
    ensures Keeps(items + [x], |items|) == !Beaten(items, x)
  {
    RuleIsKeeps(items + [x], |items|);
    RuleOfTheLast(items, x);
  }

  /** Among compatible items without repeated calls, one more goes in by the rule. */
  lemma OneMoreId(items: seq<Item>, x: Item)
    requires Compatible(items + [x]) && DistinctCalls(items + [x])
    ensures UniqueIds(items + [x]) ==
      if Beaten(items, x) then Without(UniqueIds(items), x) else Without(UniqueIds(items), x) + [x]
  {
    var fewer := FlagsOfOneMore(items, x);
    PickWithout(items, IdFlags(items), fewer, x);
    PickOneMore(items, fewer, x, !Beaten(items, x));
  }

  lemma FlagsOfOneMore(items: seq<Item>, x: Item) returns (fewer: seq<bool>)
    requires Compatible(items + [x]) && DistinctCalls(items + [x])
    ensures |fewer| == |items| && IdFlags(items + [x]) == fewer + [!Beaten(items, x)]
    ensures forall i :: 0 <= i < |items| ==> fewer[i] == (IdFlags(items)[i] && !Displaces(x, items[i]))
  {
    var flags, n := IdFlags(items + [x]), |items|;
    fewer := flags[..n];
    forall i | 0 <= i < n
      ensures fewer[i] == (IdFlags(items)[i] && !Displaces(x, items[i]))
    {
      FlagOfOneMore(items, x, i);
    }
    FlagOfTheLast(items, x);
    assert flags == flags[..n] + [flags[n]];
  }

  lemma PickWithout(items: seq<Item>, keep: seq<bool>, fewer: seq<bool>, x: Item)
    requires |keep| == |fewer| == |items|
    requires forall i :: 0 <= i < |items| ==> fewer[i] == (keep[i] && !Displaces(x, items[i]))
    ensures Pick(items, fewer) == Without(Pick(items, keep), x)
  {
    TakingWithout(items, keep, fewer, x, |items|);
    TakenIsPicked(items, keep, |items|);
    TakenIsPicked(items, fewer, |items|);
  }

  lemma PickOneMore(items: seq<Item>, keep: seq<bool>, x: Item, flag: bool)
    requires |keep| == |items|
    ensures Pick(items + [x], keep + [flag]) == if flag then Pick(items, keep) + [x] else Pick(items, keep)
  {
    var all := items + [x];
    KeptStep(keep, flag, |items|);
    PickStep(all, keep + [flag], |items|);
    assert At(all, Kept(keep, |items|)) == At(items, Kept(keep, |items|));
  }

  lemma {:induction false} LastOutput(items: seq<Item>, id: string) returns (k: nat)
    requires exists i :: 0 <= i < |items| && items[i].id == id && IsToolOutput(items[i])
    ensures k < |items| && items[k].id == id && IsToolOutput(items[k])
    ensures forall j :: k < j < |items| && items[j].id == id ==> !IsToolOutput(items[j])
  {
    var last := |items| - 1;
    if items[last].id == id && IsToolOutput(items[last]) {
      k := last;
    } else {
      var i :| 0 <= i < |items| && items[i].id == id && IsToolOutput(items[i]);
      assert items[..last][i] == items[i];
      k := LastOutput(items[..last], id);
    }
  }

  /** Whatever beats `x` in a list still does so after the list has been merged. */
  lemma BeatenAlike(items: seq<Item>, x: Item)
    requires Compatible(items + [x])
    ensures Beaten(Dedup(items), x) == Beaten(UniqueCalls(items), x) == Beaten(items, x)
  {
    var unique := UniqueCalls(items);
    DedupMembers(items);
    if Beaten(items, x) {
      var o :| o in items && o.id == x.id && IsToolOutput(o);
      var i :| 0 <= i < |items| && items[i] == o;
      assert FirstOfCall(items, i);
      PickMembers(items, CallFlags(items));
      assert o in unique;
      BestOutputStays(items, x);
    }
  }

  lemma BestOutputStays(items: seq<Item>, x: Item)
    requires Compatible(items + [x]) && Beaten(UniqueCalls(items), x)
    ensures Beaten(Dedup(items), x)
  {
    var unique := UniqueCalls(items);
    DedupMembers(items);
    UniqueCallsAreDistinct(items);
    FewerAreCompatible(items + [x], unique);
    var k := LastOutput(unique, x.id);
    forall j | k < j < |unique|
      ensures !Displaces(unique[j], unique[k])
    {
      assert unique[j] in items + [x] && x in items + [x];
      assert Agrees(unique[j], x);
      assert unique[k] in items + [x];
      assert Agrees(unique[k], x);
    }
    RuleIsKeeps(unique, k);
    PickMembers(unique, IdFlags(unique));
    assert unique[k] in Dedup(items);
  }

  /** Merging compatible items is inserting them one by one. */
  lemma DedupStep(items: seq<Item>, x: Item)
    requires Compatible(items + [x])
    ensures Dedup(items + [x]) == Insert(Dedup(items), x)
  {
    UniqueCallsStep(items, x);
    FirstOfCallIsUnseen(items, x);
    FewerAreCompatible(items + [x], items);
    CompatibleCallsStay(items);
    if IsToolCall(x) && x.callId in ToolCallIds(items) {
      assert UniqueCalls(items + [x]) == UniqueCalls(items);
    } else {
      NewItemStep(items, x);
    }
  }

  lemma NewItemStep(items: seq<Item>, x: Item)
    requires Compatible(items + [x]) && !(IsToolCall(x) && x.callId in ToolCallIds(items))
    requires UniqueCalls(items + [x]) == UniqueCalls(items) + [x]
    requires ToolCallIds(Dedup(items)) == ToolCallIds(items)
    ensures Dedup(items + [x]) == Insert(Dedup(items), x)
  {
    var unique := UniqueCalls(items);
    DedupMembers(items);
    UniqueCallsAreDistinct(items + [x]);
    FewerAreCompatible(items + [x], unique + [x]);
    OneMoreId(unique, x);
    BeatenAlike(items, x);
    if IsToolCall(x) {
      NewCallDisplacesNothing(items, x, Dedup(items));
    }
  }

  lemma NewCallDisplacesNothing(items: seq<Item>, x: Item, kept: seq<Item>)
    requires Compatible(items + [x]) && IsToolCall(x) && x.callId !in ToolCallIds(items)
    requires forall item :: item in kept ==> item in items
    ensures Without(kept, x) == kept
  {
    forall i | 0 <= i < |kept|
      ensures !Displaces(x, kept[i])
    {
      assert kept[i] in items + [x] && x in items + [x];
      assert Agrees(kept[i], x);
    }
    WithoutNothing(kept, x);
  }

  lemma {:induction false} WithoutNothing(items: seq<Item>, x: Item)
    requires forall i :: 0 <= i < |items| ==> !Displaces(x, items[i])
    ensures Without(items, x) == items
  {
    if items != [] {
      WithoutNothing(items[..|items| - 1], x);
    }
  }

  /* ---- regrouping ---- */

  /** Merging a prefix first changes nothing. */
  lemma {:induction false} PrefixMayBeMergedFirst(p: seq<Item>, c: seq<Item>)
    requires Compatible(p + c)
    ensures Dedup(Dedup(p) + c) == Dedup(p + c)
    decreases |c|
  {
    if c == [] {
      assert p + c == p && Dedup(p) + c == Dedup(p);
      MergeIsIdempotent(p);
    } else {
      var init, x := c[..|c| - 1], c[|c| - 1];
      assert p + c == (p + init) + [x] && Dedup(p) + c == (Dedup(p) + init) + [x];
      DedupMembers(p);
      FewerAreCompatible(p + c, p + init);
      FewerAreCompatible(p + c, Dedup(p) + c);
      PrefixMayBeMergedFirst(p, init);
      DedupStep(p + init, x);
      DedupStep(Dedup(p) + init, x);
    }
  }

  function Others(items: seq<Item>, id: string): seq<Item> {
    if items == [] then []
    else
      var rest, last := Others(items[..|items| - 1], id), items[|items| - 1];
      if last.id == id then rest else rest + [last]
  }

  lemma OthersStep(items: seq<Item>, item: Item, id: string)
    ensures Others(items + [item], id) == if item.id == id then Others(items, id) else Others(items, id) + [item]
  {
    assert (items + [item])[..|items|] == items;
  }

  lemma {:induction false} OthersOfConcat(a: seq<Item>, b: seq<Item>, id: string)
    ensures Others(a + b, id) == Others(a, id) + Others(b, id)
    decreases |b|
  {
    if b == [] {
      assert a + b == a;
    } else {
      var init, last := b[..|b| - 1], b[|b| - 1];
      OthersOfConcat(a, init, id);
      assert a + b == (a + init) + [last] && b == init + [last];
      OthersStep(a + init, last, id);
      OthersStep(init, last, id);
    }
  }

  lemma {:induction false} OthersMembers(items: seq<Item>, id: string)
    ensures forall item :: item in Others(items, id) <==> item in items && item.id != id
  {
    if items != [] {
      OthersMembers(items[..|items| - 1], id);
      assert items == items[..|items| - 1] + [items[|items| - 1]];
    }
  }

  lemma {:induction false} OthersOfWithoutSame(items: seq<Item>, x: Item)
    ensures Others(Without(items, x), x.id) == Others(items, x.id)
  {
    if items != [] {
      var init, last := items[..|items| - 1], items[|items| - 1];
      OthersOfWithoutSame(init, x);
      OthersStep(Without(init, x), last, x.id);
    }
  }

  /** Leaving one id out and inserting an item of another do not get in each other's way. */
  lemma {:induction false} OthersOfWithout(items: seq<Item>, x: Item, id: string)
    requires x.id != id
    ensures Others(Without(items, x), id) == Without(Others(items, id), x)
  {
    if items != [] {
      var init, last := items[..|items| - 1], items[|items| - 1];
      OthersOfWithout(init, x, id);
      OthersStep(Without(init, x), last, id);
      WithoutStep(Others(init, id), last, x);
    }
  }

  ghost predicate NoCallHas(items: seq<Item>, id: string) {
    forall item :: item in items && item.id == id ==> !IsToolCall(item)
  }

  lemma OthersOfInsertSame(items: seq<Item>, x: Item)
    requires !IsToolCall(x)
    ensures Others(Insert(items, x), x.id) == Others(items, x.id)
  {
    OthersOfWithoutSame(items, x);
    OthersStep(Without(items, x), x, x.id);
  }

  lemma OthersOfInsert(items: seq<Item>, x: Item, id: string)
    requires NoCallHas(items, id) && x.id != id
    ensures Others(Insert(items, x), id) == Insert(Others(items, id), x)
  {
    OthersMembers(items, id);
    if IsToolCall(x) {
      assert ToolCallIds(Others(items, id)) == ToolCallIds(items);
      OthersStep(items, x, id);
    } else {
      OthersOfWithout(items, x, id);
      OthersStep(Without(items, x), x, id);
      assert Beaten(Others(items, id), x) == Beaten(items, x);
    }
  }

  /** An id that no tool call has can be left out before merging or after. */
  lemma {:induction false} OthersOfDedup(items: seq<Item>, id: string)
    requires Compatible(items) && NoCallHas(items, id)
    ensures Others(Dedup(items), id) == Dedup(Others(items, id))
  {
    if items == [] {
      DuplicateFreeIsKept(items);
    } else {
      var init, x := items[..|items| - 1], items[|items| - 1];
      assert items == init + [x];
      FewerAreCompatible(items, init);
      OthersOfDedup(init, id);
      DedupStep(init, x);
      DedupMembers(init);
      OthersStep(init, x, id);
      if x.id == id {
        OthersOfInsertSame(Dedup(init), x);
      } else {
        OthersOfInsert(Dedup(init), x, id);
        OthersMembers(init, id);
        FewerAreCompatible(items, Others(init, id) + [x]);
        DedupStep(Others(init, id), x);
      }
    }
  }

  /** An item that loses to an output in front of it does not matter. */
  lemma {:induction false} LosersDoNotMatter(a: seq<Item>, q: seq<Item>, x: Item)
    requires Compatible(a + q + [x]) && Beaten(a, x)
    requires forall item :: item in q && item.id == x.id ==> item.callId == ""
    ensures Dedup(a + q) == Dedup(a + Others(q, x.id))
    decreases |q|
  {
    if q != [] {
      var init, y := q[..|q| - 1], q[|q| - 1];
      assert q == init + [y];
      FewerAreCompatible(a + q + [x], a + init + [x]);
      LosersDoNotMatter(a, init, x);
      OthersStep(init, y, x.id);
      OthersMembers(init, x.id);
      assert a + q == (a + init) + [y];
      FewerAreCompatible(a + q + [x], (a + init) + [y]);
      DedupStep(a + init, y);
      if y.id == x.id {
        BeatenInFront(a, init, x, y);
        UniqueIdsAreDistinct(UniqueCalls(a + init));
        BeatenChangesNothing(Dedup(a + init), y);
      } else {
        assert a + Others(q, x.id) == (a + Others(init, x.id)) + [y];
        FewerAreCompatible(a + q + [x], (a + Others(init, x.id)) + [y]);
        DedupStep(a + Others(init, x.id), y);
      }
    }
  }

  lemma BeatenInFront(a: seq<Item>, q: seq<Item>, x: Item, y: Item)
    requires Beaten(a, x) && y.id == x.id && y.callId == "" && Compatible((a + q) + [y])
    ensures Beaten(Dedup(a + q), y)
  {
    var o :| o in a && o.id == x.id && IsToolOutput(o);
    assert o in a + q;
    BeatenAlike(a + q, y);
  }

  /** An item beaten by an output leaves a merged list as it is. */
  lemma BeatenChangesNothing(items: seq<Item>, x: Item)
    requires DistinctIds(items) && Beaten(items, x)
    ensures Insert(items, x) == items
  {
    var o :| o in items && o.id == x.id && IsToolOutput(o);
    forall i | 0 <= i < |items|
      ensures !Displaces(x, items[i])
    {
      if items[i].id == x.id {
        var k :| 0 <= k < |items| && items[k] == o;
        assert k == i;
      }
    }
    WithoutNothing(items, x);
  }

  /** What is displaced is the whole id, unless an output beats `x`. */
  lemma {:induction false} WithoutIsOthers(items: seq<Item>, x: Item)
    requires x.id != "" && !Beaten(items, x)
    ensures Without(items, x) == Others(items, x.id)
  {
    if items != [] {
      var init, last := items[..|items| - 1], items[|items| - 1];
      assert items == init + [last];
      assert last in items;
      assert !Beaten(init, x);
      WithoutIsOthers(init, x);
    }
  }

  /** Inserting into a merged tail first, or into the whole. */
  lemma InsertInTail(a: seq<Item>, tail: seq<Item>, x: Item)
    requires Compatible(a + tail + [x]) && DistinctIds(tail)
    ensures Dedup(a + Insert(tail, x)) == Dedup(a + tail + [x])
  {
    DedupStep(a + tail, x);
    if IsToolCall(x) {
      FewerAreCompatible(a + tail + [x], a + tail);
      CompatibleCallsStay(a + tail);
      if x.callId in ToolCallIds(tail) {
        var item :| item in tail && IsToolCall(item) && item.callId == x.callId;
        assert item in a + tail;
      } else {
        assert a + (tail + [x]) == a + tail + [x];
      }
    } else if x.id == "" {
      WithoutNothing(tail, x);
      assert a + (tail + [x]) == a + tail + [x];
    } else if Beaten(tail, x) {
      BeatenChangesNothing(tail, x);
      BeatenByTail(a, tail, x);
    } else {
      WithoutIsOthers(tail, x);
      ReplaceInTail(a, tail, x);
    }
  }

  lemma BeatenByTail(a: seq<Item>, tail: seq<Item>, x: Item)
    requires Compatible(a + tail + [x]) && Beaten(tail, x)
    ensures Insert(Dedup(a + tail), x) == Dedup(a + tail)
  {
    var o :| o in tail && o.id == x.id && IsToolOutput(o);
    assert o in a + tail;
    BeatenAlike(a + tail, x);
    UniqueIdsAreDistinct(UniqueCalls(a + tail));
    BeatenChangesNothing(Dedup(a + tail), x);
  }

  lemma ReplaceInTail(a: seq<Item>, tail: seq<Item>, x: Item)
    requires Compatible(a + tail + [x]) && x.id != "" && !IsToolCall(x) && !Beaten(tail, x)
    ensures Dedup(a + (Others(tail, x.id) + [x])) == Dedup(a + tail + [x])
  {
    var rest := Others(tail, x.id);
    OthersMembers(tail, x.id);
    assert a + (rest + [x]) == (a + rest) + [x];
    FewerAreCompatible(a + tail + [x], (a + rest) + [x]);
    DedupStep(a + rest, x);
    DedupStep(a + tail, x);
    if Beaten(a, x) {
      forall item | item in tail && item.id == x.id
        ensures item.callId == ""
      {
        assert item in a + tail + [x] && x in a + tail + [x];
        assert Agrees(item, x);
        assert !IsToolOutput(item);
      }
      LosersDoNotMatter(a, tail, x);
    } else {
      ReplaceUnbeaten(a, tail, x);
    }
  }

  lemma ReplaceUnbeaten(a: seq<Item>, tail: seq<Item>, x: Item)
    requires Compatible(a + tail + [x]) && x.id != "" && !IsToolCall(x) && !Beaten(tail, x) && !Beaten(a, x)
    ensures Insert(Dedup(a + Others(tail, x.id)), x) == Insert(Dedup(a + tail), x)
  {
    var id, rest := x.id, Others(tail, x.id);
    OthersMembers(tail, id);
    OthersOfConcat(a, tail, id);
    OthersOfConcat(a, rest, id);
    OthersTwice(tail, id);
    forall item | item in a + tail && item.id == id
      ensures !IsToolCall(item)
    {
      assert item in a + tail + [x] && x in a + tail + [x];
      assert Agrees(item, x);
    }
    FewerAreCompatible(a + tail + [x], a + tail);
    FewerAreCompatible(a + tail + [x], a + rest);
    OthersOfDedup(a + tail, id);
    OthersOfDedup(a + rest, id);
    InsertUnbeaten(a + tail, x);
    FewerAreCompatible(a + tail + [x], (a + rest) + [x]);
    InsertUnbeaten(a + rest, x);
  }

  lemma {:induction false} OthersTwice(items: seq<Item>, id: string)
    ensures Others(Others(items, id), id) == Others(items, id)
  {
    if items != [] {
      var init, last := items[..|items| - 1], items[|items| - 1];
      OthersTwice(init, id);
      OthersStep(Others(init, id), last, id);
    }
  }

  lemma InsertUnbeaten(items: seq<Item>, x: Item)
    requires Compatible(items + [x]) && x.id != "" && !IsToolCall(x) && !Beaten(items, x)
    ensures Insert(Dedup(items), x) == Others(Dedup(items), x.id) + [x]
  {
    BeatenAlike(items, x);
    WithoutIsOthers(Dedup(items), x);
  }

  /** Merging a suffix first changes nothing. */
  lemma {:induction false} SuffixMayBeMergedFirst(a: seq<Item>, q: seq<Item>)
    requires Compatible(a + q)
    ensures Dedup(a + Dedup(q)) == Dedup(a + q)
    decreases |q|
  {
    if q == [] {
      DuplicateFreeIsKept(q);
    } else {
      var init, x := q[..|q| - 1], q[|q| - 1];
      assert q == init + [x] && a + q == (a + init) + [x];
      FewerAreCompatible(a + q, a + init);
      SuffixMayBeMergedFirst(a, init);
      DedupMembers(init);
      FewerAreCompatible(a + q, a + Dedup(init) + [x]);
      FewerAreCompatible(a + q, init + [x]);
      DedupStep(init, x);
      UniqueIdsAreDistinct(UniqueCalls(init));
      InsertInTail(a, Dedup(init), x);
      DedupStep(a + init, x);
      DedupStep(a + Dedup(init), x);
    }
  }

  /** Compatible items may be merged in any grouping, and both groupings are the merge of the whole. */
  lemma CompatibleMergesRegroup(a: seq<Item>, b: seq<Item>, c: seq<Item>)
    requires Compatible(a + b + c)
    ensures Merge(Merge(a, b), c) == Merge(a, Merge(b, c)) == Dedup(a + b + c)
  {
    assert a + b + c == (a + b) + c == a + (b + c);
    PrefixMayBeMergedFirst(a + b, c);
    SuffixMayBeMergedFirst(a, b + c);
  }

  /* ---- when items under one id may be regrouped ---- */

  ghost predicate Among(items: seq<Item>, x: Item, y: Item, z: Item) {
    forall item :: item in items ==> item == x || item == y || item == z
  }

  /** Lists of these three items merge alike in both groupings. */
  ghost predicate Regroup(x: Item, y: Item, z: Item) {
    forall a, b, c :: Among(a, x, y, z) && Among(b, x, y, z) && Among(c, x, y, z) ==>
      Merge(Merge(a, b), c) == Merge(a, Merge(b, c))
  }

  lemma AgreeingItemsRegroup(x: Item, y: Item, z: Item)
    requires Agrees(x, y) && x.id == y.id && z.id != x.id
    ensures Regroup(x, y, z)
  {
    forall a, b, c | Among(a, x, y, z) && Among(b, x, y, z) && Among(c, x, y, z)
      ensures Merge(Merge(a, b), c) == Merge(a, Merge(b, c))
    {
      ThreeItemsAreCompatible(a + b + c, x, y, z);
      CompatibleMergesRegroup(a, b, c);
    }
  }

  lemma ThreeItemsAreCompatible(items: seq<Item>, x: Item, y: Item, z: Item)
    requires Agrees(x, y) && x.id == y.id && z.id != x.id && Among(items, x, y, z)
    ensures Compatible(items)
  {
    assert Agrees(y, x);
  }

  lemma AllCallsAreKept(items: seq<Item>)
    requires DistinctCalls(items)
    ensures UniqueCalls(items) == items
  {
    PickAll(items, CallFlags(items));
  }

  lemma KeptOfPair(items: seq<Item>)
    requires |items| >= 2 && items[0].id == items[1].id != ""
    requires forall k :: 2 <= k < |items| ==> items[k].id != items[0].id
    ensures Keeps(items, 0) == Outranks(items, 0, 1) && Keeps(items, 1) == !Outranks(items, 0, 1)
  {
    assert Outranks(items, 0, 1) == !Outranks(items, 1, 0);
    assert items[1].id == items[0].id;
  }

  lemma PairMerges(p: Item, q: Item)
    requires p.id == q.id != "" && DistinctCalls([p, q])
    ensures Dedup([p, q]) == [if Outranks([p, q], 0, 1) then p else q]
  {
    AllCallsAreKept([p, q]);
    KeptOfPair([p, q]);
    PickTwo(p, q, IdFlags([p, q]));
  }

  lemma FlagsOfPairAndOne(items: seq<Item>)
    requires |items| == 3 && items[0].id == items[1].id != "" && items[2].id == ""
    ensures IdFlags(items) == [Outranks(items, 0, 1), !Outranks(items, 0, 1), true]
  {
    KeptOfPair(items);
    assert Keeps(items, 2);
  }

  lemma PairAndOne(p: Item, q: Item, z: Item)
    requires p.id == q.id != "" && z.id == "" && DistinctCalls([p, q, z])
    ensures Dedup([p, q, z]) == [if Outranks([p, q, z], 0, 1) then p else q, z]
  {
    AllCallsAreKept([p, q, z]);
    FlagsOfPairAndOne([p, q, z]);
    PickThree(p, q, z, IdFlags([p, q, z]));
  }

  lemma OneAndOne(q: Item, z: Item)
    requires z.id == "" && DistinctCalls([q, z])
    ensures Merge([q], [z]) == [q, z]
  {
    assert [q] + [z] == [q, z];
    DuplicateFreeIsKept([q, z]);
  }

  /** A tool call under one id with something that is not the same call. */
  lemma CallsDoNotRegroup(p: Item, q: Item) returns (z: Item)
    requires p.id == q.id != "" && IsToolCall(p) && !(IsToolCall(q) && q.callId == p.callId)
    ensures z.id == "" && !Regroup(p, q, z)
  {
    z := Item(FunctionCall, "", p.callId, Assistant, Missing, "");
    CallGroupings(p, q, z);
    GroupingsDiffer(p, q, z);
  }

  lemma CallGroupings(p: Item, q: Item, z: Item)
    requires p.id == q.id != "" && IsToolCall(p) && !(IsToolCall(q) && q.callId == p.callId)
    requires IsToolCall(z) && z.callId == p.callId && z.id == ""
    ensures Merge([p], [q]) == [q] && Merge([q], [z]) == [q, z] && Merge([p], [q, z]) == [q]
  {
    LaterCallIsDropped(p, q, z);
    CallsOfPair(q, z);
    OneAndOne(q, z);
    assert [p] + [q] == [p, q];
    assert [p] + [q, z] == [p, q, z];
  }

  lemma CallsOfPair(a: Item, b: Item)
    requires !(IsToolCall(a) && IsToolCall(b) && a.callId == b.callId)
    ensures DistinctCalls([a, b])
  {
  }

  lemma GroupingsDiffer(p: Item, q: Item, z: Item)
    requires Merge([p], [q]) == [q] && Merge([q], [z]) == [q, z] && Merge([p], [q, z]) == [q]
    ensures !Regroup(p, q, z)
  {
    assert Among([p], p, q, z) && Among([q], p, q, z) && Among([z], p, q, z);
    assert Merge(Merge([p], [q]), [z]) != Merge([p], Merge([q], [z]));
  }

  lemma LaterCallIsDropped(p: Item, q: Item, z: Item)
    requires p.id == q.id != "" && IsToolCall(p) && !(IsToolCall(q) && q.callId == p.callId)
    requires IsToolCall(z) && z.callId == p.callId
    ensures Dedup([p, q, z]) == Dedup([p, q]) == [q]
  {
    var pair := [p, q];
    assert pair[0] in pair && pair[1] in pair;
    assert Referenced(pair, 0) ==> Referenced(pair, 1);
    PairMerges(p, q);
    var three := pair + [z];
    assert three == [p, q, z] && three[0] == p && three[2] == z;
    UniqueCallsStep(pair, z);
    assert !FirstOfCall(three, 2);
    assert UniqueCalls(three) == UniqueCalls(pair) + [] == UniqueCalls(pair);
  }

  lemma OutputIn(items: seq<Item>, i: nat)
    requires i < |items| && IsToolOutput(items[i])
    ensures items[i].callId in ToolOutputIds(items)
  {
  }

  /** An item that waits for a reference, with one of another call id. */
  lemma WaitingItemsDoNotRegroup(p: Item, q: Item) returns (z: Item)
    requires p.id == q.id != "" && !IsToolCall(p) && !IsToolCall(q)
    requires p.callId != q.callId && !Fixed(p)
    ensures z.id == "" && !Regroup(p, q, z)
  {
    z := Item(FunctionCallOutput, "", p.callId, OtherRole(""), Missing, "");
    OneAndOne(q, z);
    OneAndOne(p, z);
    if IsToolOutput(q) {
      WaitingAfterOutput(p, q, z);
    } else {
      WaitingBeforeOther(p, q, z);
    }
    SingletonsAreAmong(p, q, z);
  }

  lemma SingletonsAreAmong(p: Item, q: Item, z: Item)
    ensures Among([p], p, q, z) && Among([q], p, q, z) && Among([z], p, q, z)
  {
  }

  lemma WaitingBeforeOther(p: Item, q: Item, z: Item)
    requires p.id == q.id != "" && !IsToolCall(p) && !IsToolCall(q) && p.callId != q.callId && !Fixed(p)
    requires z.id == "" && IsToolOutput(z) && z.callId == p.callId && !IsToolOutput(q)
    requires Merge([q], [z]) == [q, z]
    ensures Merge(Merge([p], [q]), [z]) != Merge([p], Merge([q], [z]))
  {
    assert [p] + [q] == [p, q] && [p] + [q, z] == [p, q, z];
    assert ToolOutputIds([p, q]) == {};
    PairMerges(p, q);
    assert z in [p, q, z];
    assert ToolOutputIds([p, q, z]) == {p.callId};
    PairAndOne(p, q, z);
    assert [p, z][0] != [q, z][0];
  }

  lemma WaitingAfterOutput(p: Item, q: Item, z: Item)
    requires p.id == q.id != "" && !IsToolCall(p) && IsToolOutput(q) && p.callId != q.callId && !Fixed(p)
    requires z.id == "" && IsToolOutput(z) && z.callId == p.callId
    requires Merge([q], [z]) == [q, z] && Merge([p], [z]) == [p, z]
    ensures Merge(Merge([q], [p]), [z]) != Merge([q], Merge([p], [z]))
  {
    assert [q] + [p] == [q, p] && [q] + [p, z] == [q, p, z];
    OutputIn([q, p], 0);
    assert ToolOutputIds([q, p]) == {q.callId};
    PairMerges(q, p);
    OutputIn([q, p, z], 0);
    OutputIn([q, p, z], 2);
    PairAndOne(q, p, z);
    assert [p, z][0] != [q, z][0];
  }

  lemma RegroupIsSymmetric(x: Item, y: Item, z: Item)
    requires Regroup(x, y, z)
    ensures Regroup(y, x, z)
  {
    forall a, b, c | Among(a, y, x, z) && Among(b, y, x, z) && Among(c, y, x, z)
      ensures Merge(Merge(a, b), c) == Merge(a, Merge(b, c))
    {
      assert Among(a, x, y, z) && Among(b, x, y, z) && Among(c, x, y, z);
    }
  }

  /** Two items under one id may be regrouped, together with any item under another, exactly when they agree. */
  lemma AgreeingIsWhatRegroupingTakes(x: Item, y: Item)
    requires x.id == y.id != ""
    ensures Agrees(x, y) <==> forall z: Item :: z.id != x.id ==> Regroup(x, y, z)
  {
    if Agrees(x, y) {
      forall z: Item | z.id != x.id
        ensures Regroup(x, y, z)
      {
        AgreeingItemsRegroup(x, y, z);
      }
    } else {
      var z := DisagreeingItemsDoNotRegroup(x, y);
      assert z.id != x.id;
    }
  }

  lemma DisagreeingItemsDoNotRegroup(x: Item, y: Item) returns (z: Item)
    requires x.id == y.id != "" && !Agrees(x, y)
    ensures z.id == "" && !Regroup(x, y, z)
  {
    if IsToolCall(x) {
      z := CallsDoNotRegroup(x, y);
    } else if IsToolCall(y) {
      z := CallsDoNotRegroup(y, x);
      if Regroup(x, y, z) {
        RegroupIsSymmetric(x, y, z);
      }
    } else if !Fixed(x) {
      z := WaitingItemsDoNotRegroup(x, y);
    } else {
      z := WaitingItemsDoNotRegroup(y, x);
      if Regroup(x, y, z) {
        RegroupIsSymmetric(x, y, z);
      }
    }
  }
}
