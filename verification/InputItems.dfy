/** Repairing the ids and reasoning items of an `input` array before it goes upstream. */
module InputItems {
  import opened Sets
  import opened Items
  import opened Identity

  const ID_LIMIT: nat := 64
  const SUFFIX_LENGTH: nat := 17

  /** The two digests ids are built from: 16 hex digits of a hash of id and attempt, and a keyed UUID. */
  datatype Digests = Digests(
    hash: (string, nat) -> string,
    uuid: (string, string, string) -> string)

  ghost predicate WellSized(d: Digests) {
    && (forall id, attempt :: |d.hash(id, attempt)| == SUFFIX_LENGTH - 1)
    && (forall key, kind, value :: |d.uuid(key, kind, value)| == 36)
  }

  ghost predicate Apart(d: Digests, id: string, a: nat, b: nat) {
    d.hash(id, a) != d.hash(id, b)
  }

  /** The first `n + 1` attempts at this id give different hashes. */
  ghost predicate Scattered(d: Digests, id: string, n: nat) {
    forall a: nat, b: nat :: a < b <= n ==> Apart(d, id, a, b)
  }

  /** The conversation's identity, as far as item ids depend on it. */
  datatype Account = Account(remap: bool, keyId: string)

  function Prefix(kind: Kind): string {
    match kind
    case Message => "msg"
    case Reasoning => "rs"
    case FunctionCall => "fc"
    case CustomToolCall => "ctc"
    case CustomToolCallOutput => "ctco"
    case _ => ""
  }

  function Canonical(kind: Kind, id: string): string {
    if Prefix(kind) == "" || id == "" || Prefix(kind) <= id then id else Prefix(kind) + "_" + id
  }

  /** An id the upstream accepts for this kind of item. */
  predicate Acceptable(kind: Kind, id: string) {
    |id| <= ID_LIMIT && Canonical(kind, id) == id
  }

  function Mapped(d: Digests, account: Account, kind: Kind, id: string): string {
    var prefix := if Prefix(kind) == "" then "item" else Prefix(kind);
    prefix + "_" + d.uuid(account.keyId, "input-item:" + prefix, id)
  }

  function Shorten(d: Digests, id: string, attempt: nat): string {
    var kept := if ID_LIMIT - SUFFIX_LENGTH > |id| then |id| else ID_LIMIT - SUFFIX_LENGTH;
    id[..kept] + "_" + d.hash(id, attempt)
  }

  /* ---- looking for an id nobody has ---- */

  ghost function Tried(d: Digests, id: string, n: nat): set<string> {
    set attempt | 0 <= attempt < n :: Shorten(d, id, attempt)
  }

  lemma {:induction false} TriedAreDistinct(d: Digests, id: string, n: nat, bound: nat)
    requires WellSized(d) && Scattered(d, id, bound) && n <= bound + 1
    ensures |Tried(d, id, n)| == n
  {
    if n == 0 {
      assert Tried(d, id, 0) == {};
    } else {
      TriedAreDistinct(d, id, n - 1, bound);
      LastTryIsNew(d, id, n - 1, bound);
      assert Tried(d, id, n) == Tried(d, id, n - 1) + {Shorten(d, id, n - 1)};
    }
  }

  lemma LastTryIsNew(d: Digests, id: string, n: nat, bound: nat)
    requires WellSized(d) && Scattered(d, id, bound) && n <= bound
    ensures Shorten(d, id, n) !in Tried(d, id, n)
  {
    forall attempt: nat | attempt < n
      ensures Shorten(d, id, attempt) != Shorten(d, id, n)
    {
      assert Apart(d, id, attempt, n);
      ShortenTellsHashesApart(d, id, attempt, n);
    }
  }

  lemma ShortenTellsHashesApart(d: Digests, id: string, a: nat, b: nat)
    requires WellSized(d) && d.hash(id, a) != d.hash(id, b)
    ensures Shorten(d, id, a) != Shorten(d, id, b)
  {
    var s, t := Shorten(d, id, a), Shorten(d, id, b);
    assert s[|s| - (SUFFIX_LENGTH - 1)..] == d.hash(id, a) && t[|t| - (SUFFIX_LENGTH - 1)..] == d.hash(id, b);
  }

  /** While every id tried is taken, no more have been tried than are taken. */
  lemma TriesAreBounded(d: Digests, id: string, n: nat, taken: set<string>)
    requires WellSized(d) && Scattered(d, id, |taken|) && n <= |taken| + 1 && Tried(d, id, n) <= taken
    ensures n <= |taken|
  {
    TriedAreDistinct(d, id, n, |taken|);
    SubsetIsNoLarger(Tried(d, id, n), taken);
  }

  /** Some attempt at this id is not taken, so the search for one ends. */
  ghost predicate SearchEnds(d: Digests, id: string, taken: set<string>) {
    exists attempt: nat :: Shorten(d, id, attempt) !in taken
  }

  /** Different hashes for one attempt more than there are ids taken are enough. */
  lemma ScatteredSearchEnds(d: Digests, id: string, taken: set<string>)
    requires WellSized(d) && Scattered(d, id, |taken|)
    ensures SearchEnds(d, id, taken)
  {
    var tried := Tried(d, id, |taken| + 1);
    TriedAreDistinct(d, id, |taken| + 1, |taken|);
    if tried <= taken {
      SubsetIsNoLarger(tried, taken);
    }
    var free :| free in tried && free !in taken;
    var attempt: nat :| attempt < |taken| + 1 && free == Shorten(d, id, attempt);
  }

  ghost predicate AllTaken(d: Digests, id: string, taken: set<string>, attempts: nat) {
    forall a :: 0 <= a < attempts ==> Shorten(d, id, a) in taken
  }

  /** `attempt` is the first one whose id is not taken. */
  ghost predicate FirstFree(d: Digests, id: string, taken: set<string>, attempt: nat) {
    Shorten(d, id, attempt) !in taken && AllTaken(d, id, taken, attempt)
  }

  lemma {:induction false} FirstFreeExists(d: Digests, id: string, taken: set<string>, free: nat)
    requires Shorten(d, id, free) !in taken
    ensures exists attempt: nat :: FirstFree(d, id, taken, attempt)
  {
    if AllTaken(d, id, taken, free) {
      assert FirstFree(d, id, taken, free);
    } else {
      var earlier: nat :| earlier < free && Shorten(d, id, earlier) !in taken;
      FirstFreeExists(d, id, taken, earlier);
    }
  }

  lemma FirstFreeIsUnique(d: Digests, id: string, taken: set<string>, a: nat, b: nat)
    requires FirstFree(d, id, taken, a) && FirstFree(d, id, taken, b)
    ensures a <= b
  {
  }

  ghost function FirstFreeAttempt(d: Digests, id: string, taken: set<string>): (attempt: nat)
    requires SearchEnds(d, id, taken)
    ensures FirstFree(d, id, taken, attempt)
  {
    var free: nat :| Shorten(d, id, free) !in taken;
    FirstFreeExists(d, id, taken, free);
    var attempt: nat :| FirstFree(d, id, taken, attempt);
    attempt
  }

  /** The id of the first free attempt. When there is none the search does not end; then this is some id,
      and whatever depends on its being free asks for `SearchEnds`. */
  ghost function FreeId(d: Digests, id: string, taken: set<string>): (r: string)
    ensures r != "" && (WellSized(d) ==> |r| <= ID_LIMIT)
    ensures SearchEnds(d, id, taken) ==> r !in taken
  {
    Shorten(d, id, if SearchEnds(d, id, taken) then FirstFreeAttempt(d, id, taken) else 0)
  }

  lemma FirstFreeIsFreeId(d: Digests, id: string, taken: set<string>, attempt: nat)
    requires FirstFree(d, id, taken, attempt)
    ensures SearchEnds(d, id, taken) && FreeId(d, id, taken) == Shorten(d, id, attempt)
  {
    assert SearchEnds(d, id, taken);
    var a := FirstFreeAttempt(d, id, taken);
    FirstFreeIsUnique(d, id, taken, a, attempt);
    FirstFreeIsUnique(d, id, taken, attempt, a);
  }

  /** A search that ends finds the first free id; with different hashes for this id it does so within one
      attempt more than there are ids in use. */
  method UniqueId(d: Digests, id: string, reserved: set<string>, used: set<string>)
    returns (candidate: string, ghost attempts: nat)
    requires WellSized(d) && SearchEnds(d, id, reserved + used)
    ensures candidate !in reserved && candidate !in used
    ensures candidate == FreeId(d, id, reserved + used)
    ensures FirstFree(d, id, reserved + used, attempts) && candidate == Shorten(d, id, attempts)
    ensures Scattered(d, id, |reserved + used|) ==> attempts + 1 <= |reserved + used| + 1
  {
    ghost var taken := reserved + used;
    ghost var last := FirstFreeAttempt(d, id, taken);
    var attempt := 0;
    candidate := Shorten(d, id, attempt);
    while candidate in reserved || candidate in used
      invariant attempt <= last && candidate == Shorten(d, id, attempt)
      invariant AllTaken(d, id, taken, attempt)
      decreases last - attempt
    {
      attempt := attempt + 1;
      candidate := Shorten(d, id, attempt);
    }
    attempts := attempt;
    FirstFreeIsFreeId(d, id, taken, attempt);
    FirstFreeIsEarly(d, id, taken, attempt);
  }

  lemma FirstFreeIsEarly(d: Digests, id: string, taken: set<string>, attempt: nat)
    requires WellSized(d) && AllTaken(d, id, taken, attempt)
    ensures Scattered(d, id, |taken|) ==> attempt <= |taken|
  {
    if Scattered(d, id, |taken|) && attempt > |taken| {
      assert Tried(d, id, |taken| + 1) <= taken;
      TriesAreBounded(d, id, |taken| + 1, taken);
    }
  }

  /* ---- one item ---- */

  /** Reasoning without usable encrypted content loses its id unless the response is stored; reasoning
      with it is dropped when its id is too long. */
  function RepairReasoning(item: Item, store: bool): Option<Item> {
    if !item.kind.Reasoning? then Some(item)
    else match item.encrypted
      case Missing => Some(if store then item else item.(id := ""))
      case Invalid => Some(if store then item.(encrypted := Missing) else item.(encrypted := Missing, id := ""))
      case Verified(_) => if |item.id| <= ID_LIMIT then Some(item) else None
  }

  function Reserved(items: seq<Item>): set<string> {
    set item | item in items && item.id != "" && Acceptable(item.kind, item.id) :: item.id
  }

  /** The id before collisions are looked at. */
  function Preferred(d: Digests, account: Option<Account>, kind: Kind, id: string): string {
    if account.Some? && account.value.remap && !Acceptable(kind, id) then Mapped(d, account.value, kind, id)
    else Canonical(kind, id)
  }

  /** The preferred id is kept by another item, or too long, so a free one is looked for. */
  predicate Searches(d: Digests, account: Option<Account>, kind: Kind, id: string, reserved: set<string>) {
    var preferred := Preferred(d, account, kind, id);
    (preferred in reserved && preferred != id) || |preferred| > ID_LIMIT
  }

  /** The id an item goes upstream with. */
  ghost function Assigned(d: Digests, account: Option<Account>, kind: Kind, id: string, reserved: set<string>,
                          used: set<string>)
    : (upstream: string)
    ensures id != "" ==> upstream != ""
  {
    var preferred := Preferred(d, account, kind, id);
    var free := if preferred in reserved && preferred != id then FreeId(d, preferred, reserved + used) else preferred;
    if |free| > ID_LIMIT then FreeId(d, free, reserved + used) else free
  }

  /** The search for this id, if there is one, ends. */
  ghost predicate Ends(d: Digests, account: Option<Account>, kind: Kind, id: string, reserved: set<string>,
                       used: set<string>)
  {
    Searches(d, account, kind, id, reserved) ==> SearchEnds(d, Preferred(d, account, kind, id), reserved + used)
  }

  method PreferredId(d: Digests, account: Option<Account>, kind: Kind, id: string) returns (normalized: string)
    ensures normalized == Preferred(d, account, kind, id)
  {
    normalized := Canonical(kind, id);
    if account.Some? && account.value.remap && (normalized != id || |normalized| > ID_LIMIT) {
      normalized := Mapped(d, account.value, kind, id);
    }
  }

  method AssignId(d: Digests, account: Option<Account>, kind: Kind, id: string, reserved: set<string>,
                  used: set<string>)
    returns (normalized: string)
    requires WellSized(d) && Ends(d, account, kind, id, reserved, used)
    ensures normalized == Assigned(d, account, kind, id, reserved, used)
  {
    normalized := PreferredId(d, account, kind, id);
    if normalized in reserved && normalized != id {
      ghost var attempts;
      normalized, attempts := UniqueId(d, normalized, reserved, used);
    }
    if |normalized| > ID_LIMIT {
      ghost var attempts;
      normalized, attempts := UniqueId(d, normalized, reserved, used);
    }
  }

  /* ---- the whole array ---- */

  /** The items so far, with the positions of dropped ones kept; the ids in use; the reverse map. */
  datatype Progress = Progress(out: seq<Option<Item>>, used: set<string>, mapping: Mapping)

  lemma {:induction false} ReservedIsSmall(items: seq<Item>)
    ensures |Reserved(items)| <= |items|
  {
    if items == [] {
      assert Reserved(items) == {};
    } else {
      var init, last := items[..|items| - 1], items[|items| - 1];
      ReservedIsSmall(init);
      assert items == init + [last];
      SubsetIsNoLarger(Reserved(items), Reserved(init) + {last.id});
    }
  }

  /** What becomes of one item, given the ids that are kept and those in use so far. */
  ghost function SentItem(d: Digests, account: Option<Account>, item: Item, store: bool, reserved: set<string>,
                          used: set<string>)
    : Option<Item>
  {
    var repaired := RepairReasoning(item, store);
    if repaired.None? || repaired.value.id == "" then repaired
    else Some(repaired.value.(id := Assigned(d, account, item.kind, repaired.value.id, reserved, used)))
  }

  function IdOf(sent: Option<Item>): string {
    if sent.None? then "" else sent.value.id
  }

  function Recorded(account: Option<Account>, mapping: Mapping, upstream: string, id: string): Mapping {
    if account.Some? && upstream != "" && upstream != id then Remember(mapping, upstream, id) else mapping
  }

  ghost function Advance(d: Digests, account: Option<Account>, item: Item, store: bool, reserved: set<string>,
                         p: Progress)
    : Progress
  {
    var sent := SentItem(d, account, item, store, reserved, p.used);
    Progress(p.out + [sent],
             if IdOf(sent) != "" then p.used + {IdOf(sent)} else p.used,
             Recorded(account, p.mapping, IdOf(sent), item.id))
  }

  ghost function Through(d: Digests, account: Option<Account>, items: seq<Item>, store: bool, mapping: Mapping, n: nat)
    : (p: Progress)
    requires n <= |items|
    ensures |p.out| == n && |p.used| <= n
  {
    if n == 0 then Progress([], {}, mapping)
    else Advance(d, account, items[n - 1], store, Reserved(items), Through(d, account, items, store, mapping, n - 1))
  }

  ghost predicate EndsFor(d: Digests, account: Option<Account>, item: Item, store: bool, reserved: set<string>,
                          used: set<string>)
  {
    var repaired := RepairReasoning(item, store);
    repaired.Some? && repaired.value.id != "" ==> Ends(d, account, item.kind, repaired.value.id, reserved, used)
  }

  /** Every search that is made for an id of this array ends. An array without a search always qualifies. */
  ghost predicate Terminates(d: Digests, account: Option<Account>, items: seq<Item>, store: bool, mapping: Mapping) {
    forall n :: 0 <= n < |items| ==>
      EndsFor(d, account, items[n], store, Reserved(items), Through(d, account, items, store, mapping, n).used)
  }

  /** The items whose ids are looked for. */
  predicate Sought(d: Digests, account: Option<Account>, items: seq<Item>, item: Item) {
    item in items && item.id != "" && Searches(d, account, item.kind, item.id, Reserved(items))
  }

  /** It is enough that, for each id that is looked for, twice as many attempts as there are items differ. */
  lemma ScatteredArraysTerminate(d: Digests, account: Option<Account>, items: seq<Item>, store: bool, mapping: Mapping)
    requires WellSized(d)
    requires forall item :: Sought(d, account, items, item) ==>
      Scattered(d, Preferred(d, account, item.kind, item.id), 2 * |items|)
    ensures Terminates(d, account, items, store, mapping)
  {
    ReservedIsSmall(items);
    forall n | 0 <= n < |items|
      ensures EndsFor(d, account, items[n], store, Reserved(items), Through(d, account, items, store, mapping, n).used)
    {
      var used := Through(d, account, items, store, mapping, n).used;
      SoughtEnds(d, account, items, items[n], store, used);
    }
  }

  lemma SoughtEnds(d: Digests, account: Option<Account>, items: seq<Item>, item: Item, store: bool, used: set<string>)
    requires WellSized(d) && item in items && |used| <= |items| && |Reserved(items)| <= |items|
    requires Sought(d, account, items, item) ==> Scattered(d, Preferred(d, account, item.kind, item.id), 2 * |items|)
    ensures EndsFor(d, account, item, store, Reserved(items), used)
  {
    if Sought(d, account, items, item) {
      ScatteredSearchEnds(d, Preferred(d, account, item.kind, item.id), Reserved(items) + used);
    }
  }

  lemma PresentStep(out: seq<Option<Item>>, item: Option<Item>)
    ensures Present(out + [item]) == if item.Some? then Present(out) + [item.value] else Present(out)
  {
    assert (out + [item])[..|out|] == out;
  }

  function Present(out: seq<Option<Item>>): seq<Item> {
    if out == [] then []
    else
      var before, last := Present(out[..|out| - 1]), out[|out| - 1];
      if last.Some? then before + [last.value] else before
  }

  method CollectReserved(items: seq<Item>) returns (reserved: set<string>)
    ensures reserved == Reserved(items)
  {
    reserved := {};
    for i := 0 to |items|
      invariant reserved == Reserved(items[..i])
    {
      assert items[..i + 1] == items[..i] + [items[i]];
      if items[i].id != "" && |items[i].id| <= ID_LIMIT && Canonical(items[i].kind, items[i].id) == items[i].id {
        reserved := reserved + {items[i].id};
      }
    }
    assert items[..|items|] == items;
  }

  function AccountOf(identity: CodexIdentity?): Option<Account> {
    if identity == null then None else Some(Account(identity.remap, identity.keyId))
  }

  ghost function MappingOf(identity: CodexIdentity?): Mapping
    reads identity
  {
    if identity == null then NO_MAPPING else identity.View()
  }

  /** Rewrites the array item by item, recording each rewritten id with the identity, if there is one. */
  method SanitizeItems(d: Digests, items: seq<Item>, store: bool, identity: CodexIdentity?)
    returns (sanitized: seq<Item>, failure: Option<MappingError>)
    requires WellSized(d)
    requires Terminates(d, AccountOf(identity), items, store, MappingOf(identity))
    requires identity != null ==> identity.Valid()
    modifies identity
    ensures identity != null ==> identity.Valid()
    ensures var p := Through(d, AccountOf(identity), items, store, old(MappingOf(identity)), |items|);
      && sanitized == Present(p.out) && MappingOf(identity) == p.mapping
      && failure == p.mapping.failure
  {
    var reserved := CollectReserved(items);
    var used: set<string> := {};
    ghost var start, account := MappingOf(identity), AccountOf(identity);
    ghost var out: seq<Option<Item>> := [];
    sanitized := [];
    for i := 0 to |items|
      invariant identity != null ==> identity.Valid()
      invariant Through(d, account, items, store, start, i) == Progress(out, used, MappingOf(identity))
      invariant sanitized == Present(out)
    {
      assert EndsFor(d, account, items[i], store, reserved, used);
      ghost var p := Progress(out, used, MappingOf(identity));
      var item := SanitizeItem(d, items[i], store, identity, reserved, used);
      OneMoreThrough(d, account, items, store, start, i, p);
      PresentStep(out, item);
      out := out + [item];
      if item.Some? {
        sanitized := sanitized + [item.value];
      }
      if IdOf(item) != "" {
        used := used + {IdOf(item)};
      }
    }
    failure := if identity == null then None else identity.mappingErr;
  }

  lemma OneMoreThrough(d: Digests, account: Option<Account>, items: seq<Item>, store: bool, start: Mapping, i: nat,
                       p: Progress)
    requires i < |items| && Through(d, account, items, store, start, i) == p
    ensures var sent := SentItem(d, account, items[i], store, Reserved(items), p.used);
      Through(d, account, items, store, start, i + 1) ==
        Progress(p.out + [sent], if IdOf(sent) != "" then p.used + {IdOf(sent)} else p.used,
                 Recorded(account, p.mapping, IdOf(sent), items[i].id))
  {
  }

  /** One round of the loop: what is sent for the item, and what is recorded for it. */
  method SanitizeItem(d: Digests, original: Item, store: bool, identity: CodexIdentity?, reserved: set<string>,
                      used: set<string>)
    returns (item: Option<Item>)
    requires WellSized(d) && EndsFor(d, AccountOf(identity), original, store, reserved, used)
    requires identity != null ==> identity.Valid()
    modifies identity
    ensures identity != null ==> identity.Valid()
    ensures item == SentItem(d, AccountOf(identity), original, store, reserved, used)
    ensures MappingOf(identity) == Recorded(AccountOf(identity), old(MappingOf(identity)), IdOf(item), original.id)
  {
    item := RepairItem(d, original, store, AccountOf(identity), reserved, used);
    if item.Some? && item.value.id != "" && item.value.id != original.id {
      RecordItem(identity, item.value.id, original.id);
    }
  }

  method RepairItem(d: Digests, original: Item, store: bool, account: Option<Account>, reserved: set<string>,
                    used: set<string>)
    returns (item: Option<Item>)
    requires WellSized(d) && EndsFor(d, account, original, store, reserved, used)
    ensures item == SentItem(d, account, original, store, reserved, used)
  {
    item := RepairReasoning(original, store);
    if item.Some? && item.value.id != "" {
      var normalized := AssignId(d, account, original.kind, item.value.id, reserved, used);
      item := Some(item.value.(id := normalized));
    }
  }

  method RecordItem(identity: CodexIdentity?, upstream: string, id: string)
    requires upstream != "" && upstream != id
    requires identity != null ==> identity.Valid()
    modifies identity
    ensures identity != null ==> identity.Valid()
    ensures MappingOf(identity) == Recorded(AccountOf(identity), old(MappingOf(identity)), upstream, id)
  {
    if identity != null {
      identity.Note(upstream, id);
    }
  }
}
