/** Joining groups of conversation items without repeating tool calls or item ids. */
module ItemMerge {
  import opened Items
  import opened Selection

  function Flatten(groups: seq<seq<Item>>): seq<Item> {
    if |groups| == 0 then [] else Flatten(groups[..|groups| - 1]) + groups[|groups| - 1]
  }

  /* ---- which items survive ---- */

  /** A tool call survives when no earlier tool call has its call id. */
  predicate FirstOfCall(items: seq<Item>, i: nat)
    requires i < |items|
  {
    IsToolCall(items[i]) ==>
      forall j :: 0 <= j < i && IsToolCall(items[j]) ==> items[j].callId != items[i].callId
  }

  function CallFlags(items: seq<Item>): (keep: seq<bool>) {
    seq(|items|, i requires 0 <= i < |items| => FirstOfCall(items, i))
  }

  function UniqueCalls(items: seq<Item>): seq<Item> {
    Pick(items, CallFlags(items))
  }

  /** The item names a call that has its output somewhere in the list. */
  predicate Referenced(items: seq<Item>, i: nat)
    requires i < |items|
  {
    items[i].callId != "" && items[i].callId in ToolOutputIds(items)
  }

  /** Of two items with one id, a referenced one wins over one that is not; otherwise the later wins. */
  predicate Outranks(items: seq<Item>, i: nat, j: nat)
    requires i < |items| && j < |items|
  {
    if Referenced(items, i) == Referenced(items, j) then j < i else Referenced(items, i)
  }

  predicate Keeps(items: seq<Item>, i: nat)
    requires i < |items|
  {
    items[i].id != "" ==>
      forall j :: 0 <= j < |items| && j != i && items[j].id == items[i].id ==> Outranks(items, i, j)
  }

  function IdFlags(items: seq<Item>): (keep: seq<bool>) {
    seq(|items|, i requires 0 <= i < |items| => Keeps(items, i))
  }

  function UniqueIds(items: seq<Item>): seq<Item> {
    Pick(items, IdFlags(items))
  }

  function Dedup(items: seq<Item>): seq<Item> {
    UniqueIds(UniqueCalls(items))
  }

  function Merge(a: seq<Item>, b: seq<Item>): seq<Item> {
    Dedup(a + b)
  }

  /* ---- the three-pass algorithm ---- */

  method MergeItems(groups: seq<seq<Item>>) returns (out: seq<Item>)
    ensures out == Dedup(Flatten(groups))
  {
    var items: seq<Item> := [];
    for g := 0 to |groups|
      invariant items == Flatten(groups[..g])
    {
      assert groups[..g + 1][..g] == groups[..g];
      items := items + groups[g];
    }
    assert groups[..|groups|] == groups;
    if |items| < 2 {
      ShortListIsKept(items);
      return items;
    }
    var unique := DropRepeatedCalls(items);
    var keepById := ChooseById(unique);
    out := SelectChosen(unique, keepById, IdFlags(unique));
  }

  /** First pass: later tool calls that reuse a call id are dropped. */
  method DropRepeatedCalls(items: seq<Item>) returns (out: seq<Item>)
    ensures out == UniqueCalls(items)
  {
    var seen: set<string> := {};
    out := [];
    for index := 0 to |items|
      invariant seen == ToolCallIds(items[..index])
      invariant out == UniqueCalls(items[..index])
    {
      var item := items[index];
      assert items[..index + 1] == items[..index] + [item];
      UniqueCallsStep(items[..index], item);
      FirstOfCallIsUnseen(items[..index], item);
      if IsToolCall(item) {
        if item.callId !in seen {
          seen := seen + {item.callId};
          out := out + [item];
        }
      } else {
        out := out + [item];
      }
    }
    assert items[..|items|] == items;
  }

  lemma FirstOfCallIsUnseen(items: seq<Item>, item: Item)
    ensures FirstOfCall(items + [item], |items|) == !(IsToolCall(item) && item.callId in ToolCallIds(items))
  {
    var all := items + [item];
    assert forall j :: 0 <= j < |items| ==> all[j] == items[j] && items[j] in items;
  }

  method CollectReferenced(items: seq<Item>) returns (referencedCalls: set<string>)
    ensures referencedCalls == ToolOutputIds(items)
  {
    referencedCalls := {};
    for index := 0 to |items|
      invariant referencedCalls == ToolOutputIds(items[..index])
    {
      assert items[..index + 1] == items[..index] + [items[index]];
      if IsToolOutput(items[index]) {
        referencedCalls := referencedCalls + {items[index].callId};
      }
    }
    assert items[..|items|] == items;
  }

  /** The choice made among the first `n` items. */
  ghost predicate Chosen(items: seq<Item>, n: nat, keepById: map<string, nat>)
    requires n <= |items|
  {
    && (forall i :: 0 <= i < n && items[i].id != "" ==> items[i].id in keepById)
    && (forall id :: id in keepById ==> keepById[id] < n && items[keepById[id]].id == id && id != "")
    && (forall i :: 0 <= i < n && items[i].id in keepById && i != keepById[items[i].id] ==>
          Outranks(items, keepById[items[i].id], i))
  }

  /** Second pass: for each id, the position that is kept. */
  method ChooseById(items: seq<Item>) returns (keepById: map<string, nat>)
    ensures forall i :: 0 <= i < |items| && items[i].id != "" ==>
      items[i].id in keepById && (keepById[items[i].id] == i <==> Keeps(items, i))
  {
    var referencedCalls := CollectReferenced(items);
    keepById := map[];
    var keepReferenced: map<string, bool> := map[];
    for index := 0 to |items|
      invariant Chosen(items, index, keepById)
      invariant keepById.Keys == keepReferenced.Keys
      invariant forall id :: id in keepById ==> keepReferenced[id] == Referenced(items, keepById[id])
    {
      var item := items[index];
      ChooseOne(items, index, keepById);
      if item.id != "" {
        var referenced := item.callId != "" && item.callId in referencedCalls;
        if item.id !in keepById || referenced || !keepReferenced[item.id] {
          keepById := keepById[item.id := index];
          keepReferenced := keepReferenced[item.id := referenced];
        }
      }
    }
    ChosenKeeps(items, keepById);
  }

  /** One round of the choice. */
  lemma ChooseOne(items: seq<Item>, n: nat, keepById: map<string, nat>)
    requires n < |items| && Chosen(items, n, keepById)
    ensures var id := items[n].id;
      Chosen(items, n + 1,
             if id != "" && (id !in keepById || Referenced(items, n) || !Referenced(items, keepById[id]))
             then keepById[id := n] else keepById)
  {
  }

  lemma ChosenKeeps(items: seq<Item>, keepById: map<string, nat>)
    requires Chosen(items, |items|, keepById)
    ensures forall i :: 0 <= i < |items| && items[i].id != "" ==> (keepById[items[i].id] == i <==> Keeps(items, i))
  {
    forall i | 0 <= i < |items| && items[i].id != ""
      ensures keepById[items[i].id] == i <==> Keeps(items, i)
    {
      var kept := keepById[items[i].id];
      if kept != i {
        assert Outranks(items, kept, i) && !Outranks(items, i, kept);
      }
    }
  }

  /** Third pass: what the second one did not choose is dropped. */
  method SelectChosen(items: seq<Item>, keepById: map<string, nat>, ghost keep: seq<bool>) returns (out: seq<Item>)
    requires |keep| == |items|
    requires forall i :: 0 <= i < |items| ==>
      && (items[i].id != "" ==> items[i].id in keepById)
      && keep[i] == (items[i].id == "" || keepById[items[i].id] == i)
    ensures out == Pick(items, keep)
  {
    out := [];
    for index := 0 to |items|
      invariant out == At(items, Kept(keep, index))
    {
      PickStep(items, keep, index);
      if items[index].id == "" || keepById[items[index].id] == index {
        out := out + [items[index]];
      }
    }
  }

  /* ---- what a merge guarantees ---- */

  ghost predicate DistinctIds(items: seq<Item>) {
    forall i, j :: 0 <= i < j < |items| && items[i].id != "" ==> items[i].id != items[j].id
  }

  ghost predicate DistinctCalls(items: seq<Item>) {
    forall i, j :: 0 <= i < j < |items| && IsToolCall(items[i]) && IsToolCall(items[j]) ==>
      items[i].callId != items[j].callId
  }

  ghost predicate DuplicateFree(items: seq<Item>) {
    DistinctIds(items) && DistinctCalls(items)
  }

  lemma ShortListIsKept(items: seq<Item>)
    requires |items| < 2
    ensures Dedup(items) == items
  {
    DuplicateFreeIsKept(items);
  }

  lemma UniqueCallsAreDistinct(items: seq<Item>)
    ensures DistinctCalls(UniqueCalls(items))
    ensures Subsequence(UniqueCalls(items), items)
  {
    PickIsSubsequence(items, CallFlags(items));
  }

  lemma UniqueIdsAreDistinct(items: seq<Item>)
    ensures DistinctIds(UniqueIds(items))
    ensures Subsequence(UniqueIds(items), items)
    ensures DistinctCalls(items) ==> DistinctCalls(UniqueIds(items))
  {
    PickIsSubsequence(items, IdFlags(items));
    var positions := Kept(IdFlags(items), |items|);
    forall k, l | 0 <= k < l < |positions| && UniqueIds(items)[k].id != ""
      ensures UniqueIds(items)[k].id != UniqueIds(items)[l].id
    {
      assert Keeps(items, positions[k]) && Keeps(items, positions[l]);
    }
  }

  /** A merge only ever drops items: it keeps their order and repeats neither an id nor a call. */
  lemma MergeIsDuplicateFree(items: seq<Item>)
    ensures Subsequence(Dedup(items), items)
    ensures DuplicateFree(Dedup(items))
  {
    UniqueCallsAreDistinct(items);
    UniqueIdsAreDistinct(UniqueCalls(items));
    SubsequenceTransitive(Dedup(items), UniqueCalls(items), items);
  }

  lemma DuplicateFreeIsKept(items: seq<Item>)
    requires DuplicateFree(items)
    ensures Dedup(items) == items
  {
    PickAll(items, CallFlags(items));
    forall i | 0 <= i < |items|
      ensures Keeps(items, i)
    {
    }
    PickAll(items, IdFlags(items));
  }

  /** A merge is plain concatenation exactly when nothing is repeated. */
  lemma MergeIsConcatenationExactly(a: seq<Item>, b: seq<Item>)
    ensures Merge(a, b) == a + b <==> DuplicateFree(a + b)
  {
    if DuplicateFree(a + b) {
      DuplicateFreeIsKept(a + b);
    }
    MergeIsDuplicateFree(a + b);
  }

  lemma MergeIsIdempotent(items: seq<Item>)
    ensures Dedup(Dedup(items)) == Dedup(items)
  {
    MergeIsDuplicateFree(items);
    DuplicateFreeIsKept(Dedup(items));
  }

  /* ---- which occurrence of an id is kept ---- */

  ghost predicate Best(items: seq<Item>, n: nat, id: string, best: nat)
    requires n <= |items|
  {
    && best < n && items[best].id == id
    && forall j :: 0 <= j < n && j != best && items[j].id == id ==> Outranks(items, best, j)
  }

  lemma {:induction false} BestExists(items: seq<Item>, n: nat, id: string) returns (best: nat)
    requires n <= |items|
    requires exists i :: 0 <= i < n && items[i].id == id
    ensures Best(items, n, id, best)
  {
    if i :| 0 <= i < n - 1 && items[i].id == id {
      best := BestExists(items, n - 1, id);
      if items[n - 1].id == id && Outranks(items, n - 1, best) {
        best := n - 1;
      }
    } else {
      best := n - 1;
    }
  }

  /** Every id that survives the call pass is kept exactly once: at its last referenced occurrence,
      or at its last occurrence when none is referenced. */
  lemma EachIdIsKeptAtItsBestOccurrence(items: seq<Item>, id: string) returns (best: nat)
    requires id != "" && exists i :: 0 <= i < |UniqueCalls(items)| && UniqueCalls(items)[i].id == id
    ensures var unique := UniqueCalls(items);
      && best < |unique| && unique[best].id == id && unique[best] in Dedup(items)
      && (forall k :: 0 <= k < |Dedup(items)| && Dedup(items)[k].id == id ==> Dedup(items)[k] == unique[best])
      && (forall j :: best < j < |unique| && unique[j].id == id ==>
            Referenced(unique, best) && !Referenced(unique, j))
      && (forall j :: 0 <= j < best && unique[j].id == id && Referenced(unique, j) ==> Referenced(unique, best))
  {
    var unique := UniqueCalls(items);
    best := BestExists(unique, |unique|, id);
    assert Keeps(unique, best);
    var positions := Kept(IdFlags(unique), |unique|);
    assert best in positions;
    var k :| 0 <= k < |positions| && positions[k] == best;
    assert Dedup(items)[k] == unique[best];
    forall l | 0 <= l < |Dedup(items)| && Dedup(items)[l].id == id
      ensures Dedup(items)[l] == unique[best]
    {
      assert Keeps(unique, positions[l]);
    }
  }

  /* ---- both passes, in the terms of the items ---- */

  /** A function call or custom tool call that repeats the call id of an earlier one of either kind. */
  ghost predicate RepeatsCall(items: seq<Item>, i: nat)
    requires i < |items|
  {
    && items[i].kind in {FunctionCall, CustomToolCall} && items[i].callId != ""
    && exists j :: 0 <= j < i && items[j].kind in {FunctionCall, CustomToolCall} && items[j].callId == items[i].callId
  }

  /** The list holds an output, of either kind, under the item's call id. */
  ghost predicate HasOutput(items: seq<Item>, item: Item) {
    && item.callId != ""
    && exists output :: output in items &&
         output.kind in {FunctionCallOutput, CustomToolCallOutput} && output.callId == item.callId
  }

  /** Another item has this one's id, and goes before it: it alone has its output in the list, or neither or both
      do and it comes later. */
  ghost predicate GivesWay(items: seq<Item>, i: nat)
    requires i < |items|
  {
    && items[i].id != ""
    && exists j :: 0 <= j < |items| && j != i && items[j].id == items[i].id &&
         (if HasOutput(items, items[i]) == HasOutput(items, items[j]) then j > i else HasOutput(items, items[j]))
  }

  lemma OutputsAreSeen(items: seq<Item>, i: nat)
    requires i < |items|
    ensures Referenced(items, i) <==> HasOutput(items, items[i])
  {
  }

  lemma KeptUnlessItGivesWay(items: seq<Item>, i: nat)
    requires i < |items|
    ensures Keeps(items, i) <==> !GivesWay(items, i)
  {
    forall j | 0 <= j < |items|
      ensures Referenced(items, j) <==> HasOutput(items, items[j])
    {
      OutputsAreSeen(items, j);
    }
    if !GivesWay(items, i) && items[i].id != "" {
      forall j | 0 <= j < |items| && j != i && items[j].id == items[i].id
        ensures Outranks(items, i, j)
      {
      }
    }
  }

  /** A merge keeps exactly the items that repeat no earlier call and, among those, exactly the ones that give way to
      no other of their id; all in their order. */
  lemma MergeKeepsExactly(items: seq<Item>) returns (first: seq<nat>, second: seq<nat>)
    ensures Embeds(first, UniqueCalls(items), items)
    ensures forall i :: 0 <= i < |items| ==> (i in first <==> !RepeatsCall(items, i))
    ensures Embeds(second, Dedup(items), UniqueCalls(items))
    ensures forall i :: 0 <= i < |UniqueCalls(items)| ==> (i in second <==> !GivesWay(UniqueCalls(items), i))
  {
    var unique := UniqueCalls(items);
    first, second := Kept(CallFlags(items), |items|), Kept(IdFlags(unique), |unique|);
    PickIsSubsequence(items, CallFlags(items));
    PickIsSubsequence(unique, IdFlags(unique));
    forall i | 0 <= i < |items|
      ensures i in first <==> !RepeatsCall(items, i)
    {
      assert i in first <==> CallFlags(items)[i];
    }
    forall i | 0 <= i < |unique|
      ensures i in second <==> !GivesWay(unique, i)
    {
      KeptUnlessItGivesWay(unique, i);
      assert i in second <==> IdFlags(unique)[i];
    }
  }

  /* ---- tool outputs ---- */

  /** Items that carry a call id and share an id with a tool output are outputs of the same call. */
  ghost predicate OutputIdsAreTheirOwn(items: seq<Item>) {
    forall i, j ::
      (&& 0 <= i < |items| && 0 <= j < |items|
       && IsToolOutput(items[i]) && items[i].id != ""
       && items[j].id == items[i].id && items[j].callId != "")
      ==> IsToolOutput(items[j]) && items[j].callId == items[i].callId
  }

  lemma PickMembers(items: seq<Item>, keep: seq<bool>)
    requires |items| == |keep|
    ensures forall i :: 0 <= i < |items| && keep[i] ==> items[i] in Pick(items, keep)
    ensures forall item :: item in Pick(items, keep) ==> item in items
  {
    var positions := Kept(keep, |keep|);
    forall i | 0 <= i < |items| && keep[i]
      ensures items[i] in Pick(items, keep)
    {
      var k :| 0 <= k < |positions| && positions[k] == i;
      assert Pick(items, keep)[k] == items[i];
    }
  }

  lemma CallPassKeepsOutputs(items: seq<Item>)
    ensures ToolOutputIds(UniqueCalls(items)) == ToolOutputIds(items)
  {
    PickMembers(items, CallFlags(items));
    forall item | item in items && IsToolOutput(item)
      ensures item in UniqueCalls(items)
    {
      var i :| 0 <= i < |items| && items[i] == item;
      assert FirstOfCall(items, i);
    }
  }

  /** A merge loses no tool output as long as no other kind of item takes an output's id. */
  lemma MergeKeepsToolOutputs(items: seq<Item>)
    requires OutputIdsAreTheirOwn(items)
    ensures ToolOutputIds(Dedup(items)) == ToolOutputIds(items)
  {
    CallPassKeepsOutputs(items);
    var unique := UniqueCalls(items);
    PickMembers(items, CallFlags(items));
    PickMembers(unique, IdFlags(unique));
    forall i | 0 <= i < |unique| && IsToolOutput(unique[i])
      ensures unique[i].callId in ToolOutputIds(Dedup(items))
    {
      var best := i;
      if unique[i].id != "" {
        best := BestExists(unique, |unique|, unique[i].id);
        assert unique[best] in items && unique[i] in items;
        assert Referenced(unique, i);
        assert best != i ==> Outranks(unique, best, i);
      }
      assert Keeps(unique, best);
      assert unique[best] in Dedup(items);
    }
  }

  lemma DistinctIdsAreTheirOwn(items: seq<Item>)
    requires DistinctIds(items)
    ensures OutputIdsAreTheirOwn(items)
  {
    forall i, j | 0 <= i < |items| && 0 <= j < |items| && items[i].id != "" && items[i].id == items[j].id
      ensures i == j
    {
    }
  }

  /** A later item takes the id of this one and names a call that has an output. */
  ghost predicate Overtaken(items: seq<Item>, i: nat)
    requires i < |items|
  {
    items[i].id != "" && exists j :: i < j < |items| && items[j].id == items[i].id && Referenced(items, j)
  }

  ghost predicate StandsFor(items: seq<Item>, i: nat, callId: string)
    requires i < |items|
  {
    IsToolOutput(items[i]) && items[i].callId == callId && !Overtaken(items, i)
  }

  lemma OutputsAreKeptUnlessOvertaken(items: seq<Item>, i: nat)
    requires i < |items| && IsToolOutput(items[i])
    ensures Keeps(items, i) <==> !Overtaken(items, i)
  {
    assert items[i] in items;
    assert Referenced(items, i);
    if j :| 0 <= j < |items| && j != i && items[j].id == items[i].id && !Outranks(items, i, j) {
      assert j > i && Referenced(items, j);
    }
    if j :| i < j < |items| && items[j].id == items[i].id && Referenced(items, j) {
      assert !Outranks(items, i, j);
    }
  }

  /** Exactly when a merge loses no tool output: among the items left by the call pass, every call that
      has an output has one whose id no later item takes over. */
  lemma MergeKeepsToolOutputsExactly(items: seq<Item>)
    ensures var unique := UniqueCalls(items);
      ToolOutputIds(Dedup(items)) == ToolOutputIds(items) <==>
      forall id :: id in ToolOutputIds(items) ==> exists i :: 0 <= i < |unique| && StandsFor(unique, i, id)
  {
    var unique := UniqueCalls(items);
    CallPassKeepsOutputs(items);
    PickMembers(unique, IdFlags(unique));
    forall id
      ensures id in ToolOutputIds(Dedup(items)) <==> exists i :: 0 <= i < |unique| && StandsFor(unique, i, id)
    {
      if id in ToolOutputIds(Dedup(items)) {
        var item :| item in Dedup(items) && IsToolOutput(item) && item.callId == id;
        var i := PickedFrom(unique, IdFlags(unique), item);
        OutputsAreKeptUnlessOvertaken(unique, i);
        assert StandsFor(unique, i, id);
      }
      if i :| 0 <= i < |unique| && StandsFor(unique, i, id) {
        OutputsAreKeptUnlessOvertaken(unique, i);
        assert unique[i] in Dedup(items);
      }
    }
    assert forall id :: id in ToolOutputIds(Dedup(items)) ==> id in ToolOutputIds(unique);
  }

  lemma PickedFrom(items: seq<Item>, keep: seq<bool>, item: Item) returns (i: nat)
    requires |items| == |keep| && item in Pick(items, keep)
    ensures i < |items| && keep[i] && items[i] == item
  {
    var k :| 0 <= k < |Pick(items, keep)| && Pick(items, keep)[k] == item;
    i := Kept(keep, |keep|)[k];
  }

  /* ---- what a merge does not guarantee ---- */

  /** An id collision drops a call whose call id may return later, so merging is not associative. */
  lemma MergeIsNotAssociative(call: Item, message: Item, again: Item)
    requires IsToolCall(call) && IsToolCall(again) && call.callId == again.callId
    requires message.callId == "" && call.id == message.id && message.id != again.id && call.id != ""
    ensures Merge(Merge([call], [message]), [again]) == [message, again]
    ensures Merge([call], Merge([message], [again])) == [message]
  {
    CallIsOvertaken(call, message);
    assert [message] + [again] == [message, again];
    DuplicateFreeIsKept([message, again]);
    assert [call] + [message, again] == [call, message, again];
    RepeatedCallIsDropped(call, message, again);
    UniqueCallsOfPair(call, message);
    assert UniqueCalls([call, message, again]) == UniqueCalls([call, message]);
  }

  lemma CallIsOvertaken(call: Item, message: Item)
    requires IsToolCall(call) && message.callId == "" && call.id == message.id != ""
    ensures Merge([call], [message]) == Dedup([call, message]) == [message]
  {
    assert [call] + [message] == [call, message];
    assert ToolOutputIds([call, message]) == {};
    LastOfPairIsKept(call, message);
  }

  lemma UniqueCallsOfPair(a: Item, b: Item)
    requires !IsToolCall(b)
    ensures UniqueCalls([a, b]) == [a, b]
  {
    PickAll([a, b], CallFlags([a, b]));
  }

  lemma LastOfPairIsKept(a: Item, b: Item)
    requires a.id == b.id != "" && !IsToolCall(b)
    requires Referenced([a, b], 0) ==> Referenced([a, b], 1)
    ensures Dedup([a, b]) == [b]
  {
    var pair := [a, b];
    UniqueCallsOfPair(a, b);
    assert Outranks(pair, 1, 0) && !Outranks(pair, 0, 1);
    assert !Keeps(pair, 0) by {
      assert pair[1].id == pair[0].id;
    }
    assert Keeps(pair, 1);
    PickTwo(a, b, IdFlags(pair));
  }

  lemma CallFlagsStep(items: seq<Item>, item: Item)
    ensures CallFlags(items + [item]) == CallFlags(items) + [FirstOfCall(items + [item], |items|)]
  {
    var all := items + [item];
    forall i | 0 <= i < |items|
      ensures FirstOfCall(all, i) == FirstOfCall(items, i)
    {
      assert forall j :: 0 <= j <= i ==> all[j] == items[j];
    }
  }

  lemma {:induction false} KeptStep(keep: seq<bool>, flag: bool, n: nat)
    requires n <= |keep|
    ensures Kept(keep + [flag], n) == Kept(keep, n)
  {
    if n > 0 {
      KeptStep(keep, flag, n - 1);
    }
  }

  lemma UniqueCallsStep(items: seq<Item>, item: Item)
    ensures UniqueCalls(items + [item]) ==
      UniqueCalls(items) + (if FirstOfCall(items + [item], |items|) then [item] else [])
  {
    var all, flags := items + [item], CallFlags(items);
    CallFlagsStep(items, item);
    KeptStep(flags, FirstOfCall(all, |items|), |items|);
    PickStep(all, CallFlags(all), |items|);
    assert At(all, Kept(flags, |items|)) == At(items, Kept(flags, |items|));
  }

  lemma RepeatedCallIsDropped(call: Item, message: Item, again: Item)
    requires IsToolCall(call) && IsToolCall(again) && call.callId == again.callId && !IsToolCall(message)
    ensures UniqueCalls([call, message, again]) == [call, message]
  {
    var pair := [call, message];
    UniqueCallsOfPair(call, message);
    UniqueCallsStep(pair, again);
    assert pair + [again] == [call, message, again];
    assert (pair + [again])[0] == call;
  }

  /** Two outputs of different calls under one id: the earlier output is lost. */
  lemma SharedIdLosesAnOutput(a: Item, b: Item)
    requires IsToolOutput(a) && IsToolOutput(b) && a.callId != b.callId && a.id == b.id != ""
    ensures a.callId in ToolOutputIds([a, b]) && a.callId !in ToolOutputIds(Merge([a], [b]))
  {
    var pair := [a, b];
    assert [a] + [b] == pair && a in pair && b in pair;
    LastOfPairIsKept(a, b);
  }
}
