/** What becomes of each item of an array, field by field, and which id it is sent with. */
module RepairProperties {
  import opened Items
  import opened Requests
  import opened Identity
  import opened InputItems
  import opened InputItemProperties

  /* ---- what is kept ---- */

  /** Of an item, only reasoning with usable content and an id that is too long is dropped. What stays keeps its
      kind, role, call and payload; reasoning loses unusable content, and without usable content also its id
      unless responses are stored. */
  ghost predicate RepairedFrom(item: Item, sent: Option<Item>, store: bool) {
    && (sent.None? <==> item.kind == Reasoning && item.encrypted.Verified? && |item.id| > 64)
    && (sent.Some? ==>
          && sent.value.kind == item.kind && sent.value.role == item.role
          && sent.value.callId == item.callId && sent.value.payload == item.payload
          && sent.value.encrypted ==
               (if item.kind == Reasoning && item.encrypted == Invalid then Missing else item.encrypted)
          && (sent.value.id == "" <==>
                item.id == "" || (item.kind == Reasoning && !item.encrypted.Verified? && !store)))
  }

  lemma SentItemIsRepaired(d: Digests, account: Option<Account>, item: Item, store: bool, reserved: set<string>,
                           used: set<string>)
    ensures RepairedFrom(item, SentItem(d, account, item, store, reserved, used), store)
  {
  }

  /** Every position of an array becomes what its own item says. */
  lemma EachItemIsRepairedExactly(d: Digests, account: Option<Account>, items: seq<Item>, store: bool,
                                  mapping: Mapping, i: nat)
    requires i < |items|
    ensures RepairedFrom(items[i], Through(d, account, items, store, mapping, |items|).out[i], store)
  {
    SentAt(d, account, items, store, mapping, |items|, i);
    SentItemIsRepaired(d, account, items[i], store, Reserved(items),
                       Through(d, account, items, store, mapping, i).used);
  }

  /* ---- which id it is sent with ---- */

  /** The beginning the upstream asks for. */
  lemma PrefixTable(name: string)
    ensures Prefix(Message) == "msg" && Prefix(Reasoning) == "rs"
    ensures Prefix(FunctionCall) == "fc" && Prefix(CustomToolCall) == "ctc" && Prefix(CustomToolCallOutput) == "ctco"
    ensures Prefix(FunctionCallOutput) == Prefix(Compaction) == Prefix(CompactionTrigger) == ""
    ensures Prefix(OtherKind(name)) == ""
  {
  }

  /** The id the upstream takes as it is: no longer than 64 characters, with the beginning for its kind. */
  ghost predicate Fits(kind: Kind, id: string) {
    |id| <= 64 && Prefix(kind) <= id
  }

  lemma AcceptableFits(kind: Kind, id: string)
    requires id != ""
    ensures Acceptable(kind, id) <==> Fits(kind, id)
  {
    if !(Prefix(kind) <= id) {
      assert |Prefix(kind) + "_" + id| > |id|;
    }
  }

  /** The id wished for: the client's own if it fits, its pseudonym if identities are remapped, else the client's
      with the beginning for its kind. */
  ghost predicate Wishes(d: Digests, account: Option<Account>, kind: Kind, id: string, wish: string) {
    if account.Some? && account.value.remap && !Fits(kind, id) then
      var name := if Prefix(kind) == "" then "item" else Prefix(kind);
      wish == name + "_" + d.uuid(account.value.keyId, "input-item:" + name, id)
    else if Prefix(kind) <= id then wish == id
    else wish == Prefix(kind) + "_" + id
  }

  lemma PreferredIsWished(d: Digests, account: Option<Account>, kind: Kind, id: string)
    requires id != ""
    ensures Wishes(d, account, kind, id, Preferred(d, account, kind, id))
  {
    AcceptableFits(kind, id);
  }

  /** Some item of the array goes upstream under this very id, as the client named it. */
  ghost predicate KeptByAnother(items: seq<Item>, id: string) {
    exists j :: 0 <= j < |items| && items[j].id == id && Fits(items[j].kind, id)
  }

  lemma ReservedIsKept(items: seq<Item>, id: string)
    requires id != ""
    ensures id in Reserved(items) <==> KeptByAnother(items, id)
  {
    if id in Reserved(items) {
      var item :| item in items && item.id == id && Acceptable(item.kind, id);
      AcceptableFits(item.kind, id);
      var j :| 0 <= j < |items| && items[j] == item;
      assert items[j].id == id;
    }
    if KeptByAnother(items, id) {
      var j :| 0 <= j < |items| && items[j].id == id && Fits(items[j].kind, id);
      AcceptableFits(items[j].kind, id);
      assert items[j] in items;
    }
  }

  /** The wish cut to 47 characters, and a hash of it and the attempt. */
  ghost predicate IsAttempt(d: Digests, wish: string, attempt: nat, id: string) {
    id == (if |wish| > 47 then wish[..47] else wish) + "_" + d.hash(wish, attempt)
  }

  /** The first attempt that gives an id no item keeps and no earlier item was sent with. */
  ghost predicate FirstFreeId(d: Digests, items: seq<Item>, used: set<string>, wish: string, id: string) {
    exists attempt: nat ::
      && IsAttempt(d, wish, attempt, id) && !KeptByAnother(items, id) && id !in used
      && forall earlier: nat, other :: earlier < attempt && IsAttempt(d, wish, earlier, other) ==>
           KeptByAnother(items, other) || other in used
  }

  lemma ShortenIsAttempt(d: Digests, wish: string, attempt: nat)
    ensures IsAttempt(d, wish, attempt, Shorten(d, wish, attempt))
    ensures Shorten(d, wish, attempt) != ""
  {
  }

  lemma FreeIdIsFirst(d: Digests, items: seq<Item>, used: set<string>, wish: string)
    requires SearchEnds(d, wish, Reserved(items) + used)
    ensures FirstFreeId(d, items, used, wish, FreeId(d, wish, Reserved(items) + used))
  {
    var attempt := FirstFreeAttempt(d, wish, Reserved(items) + used);
    var id := Shorten(d, wish, attempt);
    ShortenIsAttempt(d, wish, attempt);
    ReservedIsKept(items, id);
    forall earlier: nat, other | earlier < attempt && IsAttempt(d, wish, earlier, other)
      ensures KeptByAnother(items, other) || other in used
    {
      ShortenIsAttempt(d, wish, earlier);
      assert other == Shorten(d, wish, earlier) && other in Reserved(items) + used;
      ReservedIsKept(items, other);
    }
  }

  lemma AssignedIsWishedOrFree(d: Digests, account: Option<Account>, kind: Kind, id: string, reserved: set<string>,
                               used: set<string>)
    requires WellSized(d)
    ensures var wish := Preferred(d, account, kind, id);
      Assigned(d, account, kind, id, reserved, used) ==
        if Searches(d, account, kind, id, reserved) then FreeId(d, wish, reserved + used) else wish
  {
  }

  /** An id that is sent is the one wished for, unless that is too long or another item keeps it; then it is the
      first free one. */
  lemma EachIdIsSentExactly(d: Digests, account: Option<Account>, items: seq<Item>, store: bool, mapping: Mapping,
                            i: nat)
    returns (wish: string)
    requires WellSized(d) && Terminates(d, account, items, store, mapping) && i < |items|
    requires IdOf(Through(d, account, items, store, mapping, |items|).out[i]) != ""
    ensures Wishes(d, account, items[i].kind, items[i].id, wish)
    ensures var sent := IdOf(Through(d, account, items, store, mapping, |items|).out[i]);
      if |wish| > 64 || (wish != items[i].id && KeptByAnother(items, wish))
      then FirstFreeId(d, items, Through(d, account, items, store, mapping, i).used, wish, sent)
      else sent == wish
  {
    var kind, id, used := items[i].kind, items[i].id, Through(d, account, items, store, mapping, i).used;
    SentIdAt(d, account, items, store, mapping, |items|, i);
    wish := Preferred(d, account, kind, id);
    PreferredIsWished(d, account, kind, id);
    AssignedIsWishedOrFree(d, account, kind, id, Reserved(items), used);
    ReservedIsKept(items, wish);
    if Searches(d, account, kind, id, Reserved(items)) {
      FreeIdIsFirst(d, items, used, wish);
    }
  }

  ghost predicate UsesUp(before: set<string>, after: set<string>, sent: Option<Item>) {
    after == if IdOf(sent) != "" then before + {IdOf(sent)} else before
  }

  lemma {:induction false} UsedUp(used: seq<set<string>>, sent: seq<Option<Item>>, n: nat, id: string)
    requires |used| == |sent| + 1 && used[0] == {} && n <= |sent|
    requires forall k :: 0 <= k < |sent| ==> UsesUp(used[k], used[k + 1], sent[k])
    ensures id in used[n] <==> id != "" && exists j :: 0 <= j < n && IdOf(sent[j]) == id
  {
    if n > 0 {
      UsedUp(used, sent, n - 1, id);
      assert UsesUp(used[n - 1], used[n], sent[n - 1]);
    }
  }

  lemma StepUsesUp(d: Digests, account: Option<Account>, items: seq<Item>, store: bool, mapping: Mapping, k: nat)
    requires k < |items|
    ensures UsesUp(Through(d, account, items, store, mapping, k).used,
                   Through(d, account, items, store, mapping, k + 1).used,
                   Through(d, account, items, store, mapping, |items|).out[k])
  {
    SentAt(d, account, items, store, mapping, |items|, k);
    OneMoreThrough(d, account, items, store, mapping, k, Through(d, account, items, store, mapping, k));
  }

  ghost function UsedSets(steps: seq<Progress>): (used: seq<set<string>>)
    ensures |used| == |steps| && forall k :: 0 <= k < |steps| ==> used[k] == steps[k].used
  {
    seq(|steps|, k requires 0 <= k < |steps| => steps[k].used)
  }

  ghost predicate UsedAlong(steps: seq<Progress>, sent: seq<Option<Item>>) {
    && |steps| == |sent| + 1 && steps[0].used == {}
    && forall k :: 0 <= k < |sent| ==> UsesUp(steps[k].used, steps[k + 1].used, sent[k])
  }

  lemma StepsUseUp(steps: seq<Progress>, sent: seq<Option<Item>>, n: nat, id: string)
    requires UsedAlong(steps, sent) && n <= |sent|
    ensures id in steps[n].used <==> id != "" && exists j :: 0 <= j < n && IdOf(sent[j]) == id
  {
    UsedUp(UsedSets(steps), sent, n, id);
  }

  lemma StepOfSteps(d: Digests, account: Option<Account>, items: seq<Item>, store: bool, mapping: Mapping, k: nat,
                    steps: seq<Progress>, out: seq<Option<Item>>)
    requires k < |items| && steps == Steps(d, account, items, store, mapping)
    requires out == Through(d, account, items, store, mapping, |items|).out
    ensures UsesUp(steps[k].used, steps[k + 1].used, out[k])
  {
    StepUsesUp(d, account, items, store, mapping, k);
  }

  lemma StepsUse(d: Digests, account: Option<Account>, items: seq<Item>, store: bool, mapping: Mapping,
                 steps: seq<Progress>, out: seq<Option<Item>>)
    requires steps == Steps(d, account, items, store, mapping)
    requires out == Through(d, account, items, store, mapping, |items|).out
    ensures UsedAlong(steps, out)
  {
    StepsStart(d, account, items, store, mapping);
    forall k | 0 <= k < |out|
      ensures UsesUp(steps[k].used, steps[k + 1].used, out[k])
    {
      StepOfSteps(d, account, items, store, mapping, k, steps, out);
    }
  }

  /** The ids in use before an item are those sent for the items before it. */
  lemma UsedIdsAreTheSent(d: Digests, account: Option<Account>, items: seq<Item>, store: bool, mapping: Mapping,
                          n: nat, id: string)
    requires n <= |items|
    ensures id in Through(d, account, items, store, mapping, n).used <==>
      id != "" && exists j :: 0 <= j < n && IdOf(Through(d, account, items, store, mapping, |items|).out[j]) == id
  {
    var steps, out := Steps(d, account, items, store, mapping), Through(d, account, items, store, mapping, |items|).out;
    StepsUse(d, account, items, store, mapping, steps, out);
    StepsUseUp(steps, out, n, id);
  }
}
