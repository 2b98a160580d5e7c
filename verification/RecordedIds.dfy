/** Which ids the repair records, how long they are, and when an id that it keeps comes back as itself. */
module RecordedIds {
  import opened Items
  import opened Escaping
  import opened Identity
  import opened RoundTrip
  import opened InputItems
  import opened InputItemProperties

  /* ---- what is recorded ---- */

  lemma RecordingAddsOne(account: Option<Account>, mapping: Mapping, upstream: string, id: string, key: string)
    requires key in Recorded(account, mapping, upstream, id).reverse && key !in mapping.reverse
    ensures key == upstream && upstream != "" && upstream != id
  {
  }

  lemma {:induction false} RecordedAlongTheWay(account: Option<Account>, mappings: seq<Mapping>, sent: seq<string>,
                                               ids: seq<string>, n: nat, key: string)
    returns (i: nat)
    requires |mappings| == |sent| + 1 == |ids| + 1 && n <= |sent|
    requires forall k :: 0 <= k < |sent| ==> mappings[k + 1] == Recorded(account, mappings[k], sent[k], ids[k])
    requires key in mappings[n].reverse && key !in mappings[0].reverse
    ensures i < n && sent[i] == key != "" && key != ids[i]
  {
    if key in mappings[n - 1].reverse {
      i := RecordedAlongTheWay(account, mappings, sent, ids, n - 1, key);
    } else {
      i := n - 1;
      RecordingAddsOne(account, mappings[i], sent[i], ids[i], key);
    }
  }

  ghost function SentIds(d: Digests, account: Option<Account>, items: seq<Item>, store: bool, mapping: Mapping)
    : (sent: seq<string>)
    ensures |sent| == |items|
  {
    seq(|items|, k requires 0 <= k < |items| =>
      IdOf(SentItem(d, account, items[k], store, Reserved(items), Through(d, account, items, store, mapping, k).used)))
  }

  ghost function Mappings(d: Digests, account: Option<Account>, items: seq<Item>, store: bool, mapping: Mapping)
    : (mappings: seq<Mapping>)
    ensures |mappings| == |items| + 1
  {
    seq(|items| + 1, k requires 0 <= k <= |items| => Through(d, account, items, store, mapping, k).mapping)
  }

  lemma SentIdIs(d: Digests, account: Option<Account>, items: seq<Item>, store: bool, mapping: Mapping, k: nat)
    requires k < |items|
    ensures SentIds(d, account, items, store, mapping)[k] ==
      IdOf(SentItem(d, account, items[k], store, Reserved(items), Through(d, account, items, store, mapping, k).used))
  {
  }

  lemma MappingIs(d: Digests, account: Option<Account>, items: seq<Item>, store: bool, mapping: Mapping, k: nat)
    requires k <= |items|
    ensures Mappings(d, account, items, store, mapping)[k] == Through(d, account, items, store, mapping, k).mapping
  {
  }

  lemma ThroughRecords(d: Digests, account: Option<Account>, items: seq<Item>, store: bool, mapping: Mapping, k: nat,
                       p: Progress)
    requires k < |items| && p == Through(d, account, items, store, mapping, k)
    ensures Through(d, account, items, store, mapping, k + 1).mapping ==
      Recorded(account, p.mapping, IdOf(SentItem(d, account, items[k], store, Reserved(items), p.used)), items[k].id)
  {
  }

  lemma StepRecords(d: Digests, account: Option<Account>, items: seq<Item>, store: bool, mapping: Mapping, k: nat)
    requires k < |items|
    ensures Mappings(d, account, items, store, mapping)[k + 1] ==
      Recorded(account, Mappings(d, account, items, store, mapping)[k],
               SentIds(d, account, items, store, mapping)[k], items[k].id)
  {
    SentIdIs(d, account, items, store, mapping, k);
    MappingIs(d, account, items, store, mapping, k);
    MappingIs(d, account, items, store, mapping, k + 1);
    ThroughRecords(d, account, items, store, mapping, k, Through(d, account, items, store, mapping, k));
  }

  lemma MappingsStart(d: Digests, account: Option<Account>, items: seq<Item>, store: bool, mapping: Mapping)
    ensures Mappings(d, account, items, store, mapping)[0] == mapping
  {
    assert Through(d, account, items, store, mapping, 0).mapping == mapping;
  }

  /** Whatever an array adds to the reverse map is the id of an item it rewrote. */
  lemma RecordedIsRewritten(d: Digests, account: Option<Account>, items: seq<Item>, store: bool, mapping: Mapping,
                            key: string)
    returns (i: nat)
    requires key in Through(d, account, items, store, mapping, |items|).mapping.reverse && key !in mapping.reverse
    ensures i < |items| && key != "" && key != items[i].id && SentIds(d, account, items, store, mapping)[i] == key
  {
    var sent, mappings := SentIds(d, account, items, store, mapping), Mappings(d, account, items, store, mapping);
    var ids := seq(|items|, k requires 0 <= k < |items| => items[k].id);
    MappingsStart(d, account, items, store, mapping);
    forall k | 0 <= k < |items|
      ensures mappings[k + 1] == Recorded(account, mappings[k], sent[k], ids[k])
    {
      StepRecords(d, account, items, store, mapping, k);
    }
    i := RecordedAlongTheWay(account, mappings, sent, ids, |items|, key);
  }

  ghost predicate NewlyRecorded(d: Digests, account: Account, items: seq<Item>, store: bool, mapping: Mapping,
                                key: string)
  {
    && key in Through(d, Some(account), items, store, mapping, |items|).mapping.reverse
    && key !in mapping.reverse
  }

  /* ---- how long recorded ids are ---- */

  const UUID_LENGTH: nat := 36

  lemma RemappedIdIsLong(d: Digests, account: Account, kind: Kind, id: string, reserved: set<string>, used: set<string>)
    requires WellSized(d) && account.remap && id != ""
    ensures var upstream := Assigned(d, Some(account), kind, id, reserved, used);
      upstream != id ==> |upstream| >= UUID_LENGTH
  {
    AssignedId(d, Some(account), kind, id, reserved, used);
    if !Acceptable(kind, id) {
      var mapped := Mapped(d, account, kind, id);
      var prefix := if Prefix(kind) == "" then "item" else Prefix(kind);
      assert |d.uuid(account.keyId, "input-item:" + prefix, id)| == UUID_LENGTH;
      assert UUID_LENGTH <= |mapped| && Preferred(d, Some(account), kind, id) == mapped;
      var attempt := if SearchEnds(d, mapped, reserved + used) then FirstFreeAttempt(d, mapped, reserved + used) else 0;
      assert FreeId(d, mapped, reserved + used) == Shorten(d, mapped, attempt);
      assert |d.hash(mapped, attempt)| == SUFFIX_LENGTH - 1;
      PrefixIsShort(kind);
    }
  }

  lemma RemappedRecordIsLong(d: Digests, account: Account, items: seq<Item>, store: bool, mapping: Mapping, key: string)
    requires WellSized(d) && account.remap && NewlyRecorded(d, account, items, store, mapping, key)
    ensures |key| >= UUID_LENGTH
  {
    var i := RecordedIsRewritten(d, Some(account), items, store, mapping, key);
    RepairKeepsTheId(items[i], store);
    RemappedIdIsLong(d, account, items[i].kind, items[i].id, Reserved(items),
                     Through(d, Some(account), items, store, mapping, i).used);
  }

  function MessageWith(id: string): Item {
    Item(Message, id, "", User, Missing, "")
  }

  lemma {:induction false} BytesAtMost(s: string)
    ensures Bytes(s) <= 4 * |s|
  {
    if s != "" {
      BytesAtMost(s[1..]);
    }
  }

  /** Without remapping, a message id that lacks its prefix is recorded under itself with the prefix in front. */
  lemma UnprefixedIdIsRecorded(d: Digests, account: Account, id: string)
    requires !account.remap && id != "" && !("msg" <= id) && |id| <= ID_LIMIT - 4
    ensures var p := Through(d, Some(account), [MessageWith(id)], false, NO_MAPPING, 1);
      && p.out == [Some(MessageWith("msg_" + id))]
      && p.mapping.failure.None? && p.mapping.reverse == map["msg_" + id := id]
  {
    var item, upstream := MessageWith(id), "msg_" + id;
    assert !Acceptable(Message, id) && Canonical(Message, id) == upstream;
    assert Reserved([item]) == {};
    var start := Progress([], {}, NO_MAPPING);
    assert Through(d, Some(account), [item], false, NO_MAPPING, 0) == start;
    assert SentItem(d, Some(account), item, false, {}, {}) == Some(MessageWith(upstream));
    BytesAtMost(upstream);
    BytesAtMost(id);
    assert Through(d, Some(account), [item], false, NO_MAPPING, 1) == Advance(d, Some(account), item, false, {}, start);
  }

  /** Every id the repair records is as long as a UUID exactly when identities are remapped. */
  lemma RecordedIdsAreLongExactlyWithRemapping(d: Digests, account: Account)
    requires WellSized(d)
    ensures account.remap <==>
      forall items, store, mapping, key ::
        NewlyRecorded(d, account, items, store, mapping, key) ==> |key| >= UUID_LENGTH
  {
    if account.remap {
      forall items, store, mapping, key | NewlyRecorded(d, account, items, store, mapping, key)
        ensures |key| >= UUID_LENGTH
      {
        RemappedRecordIsLong(d, account, items, store, mapping, key);
      }
    } else {
      UnprefixedIdIsRecorded(d, account, "a");
      assert NewlyRecorded(d, account, [MessageWith("a")], false, NO_MAPPING, "msg_" + "a");
    }
  }

  /** Without remapping, every other upstream id that begins with the recorded one is rewritten: its beginning
      becomes the client's short id, whatever follows. */
  lemma ShortRecordReachesIntoOtherIds(d: Digests, account: Account, id: string, tail: string)
    requires !account.remap && id != "" && !("msg" <= id) && |id| <= ID_LIMIT - 4
    ensures var reverse := Through(d, Some(account), [MessageWith(id)], false, NO_MAPPING, 1).mapping.reverse;
      && Expose(reverse, Literal("msg_" + id + tail)) ==
           QUOTE + (Escape(id) + Expose(reverse, Escape(tail) + QUOTE))
      && Expose(reverse, Literal("msg_" + id + tail)) != Literal("msg_" + id + tail)
  {
    UnprefixedIdIsRecorded(d, account, id);
    var reverse, upstream := map["msg_" + id := id], "msg_" + id;
    assert upstream in reverse && reverse[upstream] == id;
    EscapeOfConcat("msg_", id);
    RecordedPrefixIsReplaced(reverse, upstream, tail);
    LongerIdAlwaysChanges(reverse, upstream, tail);
  }

  /** A plain id with a short tail loses exactly its prefix. */
  lemma PlainIdsLoseTheirPrefix(d: Digests, account: Account, id: string, tail: string)
    requires !account.remap && id != "" && !("msg" <= id) && |id| <= ID_LIMIT - 4
    requires PlainText(id) && |tail| < 4 + |id|
    ensures var reverse := Through(d, Some(account), [MessageWith(id)], false, NO_MAPPING, 1).mapping.reverse;
      Expose(reverse, "msg_" + id + tail) == id + tail
  {
    UnprefixedIdIsRecorded(d, account, id);
    PrefixIsPlain();
    PlainConcat("msg_", id);
    ShortPseudonymReachesIntoOtherIds("msg_", id, tail);
  }

  lemma PrefixIsPlain()
    ensures PlainText("msg_")
  {
  }

  lemma PlainConcat(a: string, b: string)
    requires PlainText(a) && PlainText(b)
    ensures PlainText(a + b)
  {
  }

  /* ---- ids that are kept ---- */

  lemma EndsAreUntouched(reverse: map<string, string>)
    requires "" !in reverse
    ensures Expose(reverse, "") == "" && Expose(reverse, QUOTE) == QUOTE
  {
    var m := Restored(reverse);
    PseudonymsHideTheirQuotes(reverse);
    NoKeyStartsWithAQuote(m, QUOTE);
    assert QUOTE[1..] == "";
  }

  lemma RecordedLiteral(reverse: map<string, string>, id: string)
    requires id in reverse && "" !in reverse
    ensures Expose(reverse, Literal(id)) == Literal(reverse[id])
  {
    EndsAreUntouched(reverse);
    RecordedIdIsRestored(reverse, "", id, "");
    LiteralAlone(id);
    assert QUOTE + "" == QUOTE;
  }

  lemma LiteralAlone(id: string)
    ensures "" + (QUOTE + (Escape(id) + QUOTE + "")) == Literal(id)
    ensures "" + (QUOTE + (Escape(id) + QUOTE)) == Literal(id)
  {
    assert Escape(id) + QUOTE + "" == Escape(id) + QUOTE;
  }

  /** No recorded pseudonym but the id itself occurs in its literal. */
  ghost predicate NoOtherOccurs(reverse: map<string, string>, id: string) {
    forall key, start, end :: key in reverse && key != id && 0 <= start <= end <= |Literal(id)| ==>
      Literal(id)[start..end] != Escape(key)
  }

  /** An id comes back as itself exactly when it is not recorded as the pseudonym of another. */
  lemma LiteralComesBackExactly(reverse: map<string, string>, id: string)
    requires "" !in reverse && NoOtherOccurs(reverse, id)
    requires forall key :: key in reverse ==> reverse[key] != key
    ensures Expose(reverse, Literal(id)) == Literal(id) <==> id !in reverse
  {
    if id in reverse {
      RecordedLiteral(reverse, id);
      if Literal(reverse[id]) == Literal(id) {
        LiteralIsInjective(reverse[id], id);
      }
    } else {
      forall start, end | 0 <= start <= end <= |Literal(id)|
        ensures Literal(id)[start..end] !in Restored(reverse)
      {
        assert forall key :: key in reverse ==> Literal(id)[start..end] != Escape(key);
      }
      UnrelatedTextIsUntouched(reverse, Literal(id));
    }
  }

  /** An array never records an id that it keeps: only an earlier array can have done so. */
  lemma KeptIdIsNotRecordedNow(d: Digests, account: Account, items: seq<Item>, store: bool, mapping: Mapping, i: nat)
    requires WellSized(d) && WellFormed(mapping) && Terminates(d, Some(account), items, store, mapping) && i < |items|
    requires items[i].id != "" && IdOf(Through(d, Some(account), items, store, mapping, |items|).out[i]) == items[i].id
    ensures items[i].id in Through(d, Some(account), items, store, mapping, |items|).mapping.reverse <==>
      items[i].id in mapping.reverse
  {
    var id, p := items[i].id, Through(d, Some(account), items, store, mapping, |items|);
    ThroughPlaces(d, Some(account), items, store, mapping, |items|);
    assert Placed(Some(account), items[i], p.out[i], store, Reserved(items), p.mapping);
    if id in p.mapping.reverse && id !in mapping.reverse {
      var j := RecordedIsRewritten(d, Some(account), items, store, mapping, id);
      SentAt(d, Some(account), items, store, mapping, |items|, j);
      RewrittenAvoidsKept(d, Some(account), items, store, mapping, j);
    }
  }

  /** With no other pseudonym in the way, an id that an array keeps reaches the client as itself exactly when
      no earlier array of the conversation had recorded it. */
  lemma KeptIdComesBackExactly(d: Digests, account: Account, items: seq<Item>, store: bool, mapping: Mapping, i: nat)
    requires WellSized(d) && WellFormed(mapping) && Terminates(d, Some(account), items, store, mapping) && i < |items|
    requires items[i].id != "" && IdOf(Through(d, Some(account), items, store, mapping, |items|).out[i]) == items[i].id
    requires NoOtherOccurs(Through(d, Some(account), items, store, mapping, |items|).mapping.reverse, items[i].id)
    ensures var reverse := Through(d, Some(account), items, store, mapping, |items|).mapping.reverse;
      Expose(reverse, Literal(items[i].id)) == Literal(items[i].id) <==> items[i].id !in mapping.reverse
  {
    KeptIdIsNotRecordedNow(d, account, items, store, mapping, i);
    ThroughPlaces(d, Some(account), items, store, mapping, |items|);
    LiteralComesBackExactly(Through(d, Some(account), items, store, mapping, |items|).mapping.reverse, items[i].id);
  }

  /** Two turns without remapping: the first sends "a" as "msg_a", the second keeps an id "msg_a" of its own,
      and the client sees that one as "a". */
  lemma KeptIdIsExposedAsAnother(d: Digests, account: Account, id: string)
    requires !account.remap && id != "" && !("msg" <= id) && |id| <= ID_LIMIT - 4
    ensures var first := Through(d, Some(account), [MessageWith(id)], false, NO_MAPPING, 1);
      var second := Through(d, Some(account), [MessageWith("msg_" + id)], false, first.mapping, 1);
      && second.out == [Some(MessageWith("msg_" + id))] && second.mapping == first.mapping
      && Expose(second.mapping.reverse, Literal("msg_" + id)) == Literal(id)
  {
    UnprefixedIdIsRecorded(d, account, id);
    var mapping := Through(d, Some(account), [MessageWith(id)], false, NO_MAPPING, 1).mapping;
    PrefixedIdIsKept(d, account, "msg_" + id, mapping);
    RecordedLiteral(mapping.reverse, "msg_" + id);
  }

  lemma PrefixedIdIsKept(d: Digests, account: Account, id: string, mapping: Mapping)
    requires "msg" <= id && |id| <= ID_LIMIT
    ensures var p := Through(d, Some(account), [MessageWith(id)], false, mapping, 1);
      p.out == [Some(MessageWith(id))] && p.mapping == mapping
  {
    var item, start := MessageWith(id), Progress([], {}, mapping);
    assert Acceptable(Message, id) && item in [item];
    assert Reserved([item]) == {id};
    assert Through(d, Some(account), [item], false, mapping, 0) == start;
    assert Assigned(d, Some(account), Message, id, {id}, {}) == id;
    assert Through(d, Some(account), [item], false, mapping, 1) == Advance(d, Some(account), item, false, {id}, start);
  }
}
