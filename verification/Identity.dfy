/** Pseudonyms issued to one conversation, and putting the client's own identifiers back. */
module Identity {
  import opened Items
  import opened Escaping
  import opened Substitution

  const MAX_IDENTITY_BYTES: nat := 1024
  const MAX_MAPPINGS: nat := 256
  const MAX_MAPPING_BYTES: nat := 256 * 1024

  datatype MappingError = Collision | BudgetExceeded

  /** The reverse map from upstream to client identifiers, its size in bytes, and the first failure. */
  datatype Mapping = Mapping(reverse: map<string, string>, bytes: nat, failure: Option<MappingError>)

  const NO_MAPPING := Mapping(map[], 0, None)

  function CharBytes(c: char): nat {
    var code := c as int;
    if code < 0x80 then 1 else if code < 0x800 then 2 else if code < 0x10000 then 3 else 4
  }

  /** The length of the UTF-8 encoding. */
  function Bytes(s: string): nat {
    if s == "" then 0 else CharBytes(s[0]) + Bytes(s[1..])
  }

  predicate ValidIdentity(s: string) {
    s != "" && Bytes(s) <= MAX_IDENTITY_BYTES && forall i :: 0 <= i < |s| ==> s[i] !in "\r\n\0"
  }

  function Clean(s: string): string {
    if ValidIdentity(s) then s else ""
  }

  function Remember(m: Mapping, upstream: string, client: string): Mapping {
    if upstream == "" || client == "" || upstream == client || m.failure.Some? then m
    else if upstream in m.reverse then
      if m.reverse[upstream] == client then m else m.(failure := Some(Collision))
    else
      var bytes := m.bytes + Bytes(upstream) + Bytes(client);
      if |m.reverse| >= MAX_MAPPINGS || bytes > MAX_MAPPING_BYTES then m.(failure := Some(BudgetExceeded))
      else Mapping(m.reverse[upstream := client], bytes, None)
  }

  /* ---- the reverse map ---- */

  ghost function TotalBytes(m: map<string, string>): nat {
    if m == map[] then 0
    else
      var key :| key in m;
      Bytes(key) + Bytes(m[key]) + TotalBytes(m - {key})
  }

  lemma {:induction false} TotalBytesWithout(m: map<string, string>, key: string)
    requires key in m
    ensures TotalBytes(m) == Bytes(key) + Bytes(m[key]) + TotalBytes(m - {key})
    decreases |m|
  {
    var first :| first in m && TotalBytes(m) == Bytes(first) + Bytes(m[first]) + TotalBytes(m - {first});
    if first != key {
      TotalBytesWithout(m - {first}, key);
      TotalBytesWithout(m - {key}, first);
      assert m - {first} - {key} == m - {key} - {first};
    }
  }

  ghost predicate WellFormed(m: Mapping) {
    && m.bytes == TotalBytes(m.reverse) <= MAX_MAPPING_BYTES
    && |m.reverse| <= MAX_MAPPINGS
    && forall key :: key in m.reverse ==> key != "" && m.reverse[key] != "" && m.reverse[key] != key
  }

  lemma EmptyMappingIsWellFormed()
    ensures WellFormed(NO_MAPPING)
  {
    assert TotalBytes(map[]) == 0;
  }

  ghost predicate Extends(later: Mapping, earlier: Mapping) {
    && (forall key :: key in earlier.reverse ==> key in later.reverse && later.reverse[key] == earlier.reverse[key])
    && (earlier.failure.Some? ==> later == earlier)
  }

  lemma RememberIsWellFormed(m: Mapping, upstream: string, client: string)
    requires WellFormed(m)
    ensures WellFormed(Remember(m, upstream, client))
  {
    if upstream !in m.reverse {
      var next := m.reverse[upstream := client];
      assert next - {upstream} == m.reverse;
      TotalBytesWithout(next, upstream);
    }
  }

  /** Remembering keeps the budget's books, never changes an entry, and after a failure changes nothing. */
  lemma RememberExtends(m: Mapping, upstream: string, client: string)
    requires WellFormed(m)
    ensures var next := Remember(m, upstream, client);
      && WellFormed(next)
      && Extends(next, m)
      && (next.failure.None? && upstream != "" && client != "" && upstream != client ==>
            upstream in next.reverse && next.reverse[upstream] == client)
      && (next.reverse != m.reverse ==> next.reverse == m.reverse[upstream := client] && upstream !in m.reverse)
  {
    RememberIsWellFormed(m, upstream, client);
  }

  /** The budget: 256 entries and 262144 bytes. A second client for a pseudonym is a collision. */
  lemma RememberFailsExactly(m: Mapping, upstream: string, client: string)
    requires WellFormed(m) && m.failure.None?
    ensures Remember(m, upstream, client).failure == Some(Collision) <==>
      upstream in m.reverse && client !in {"", upstream, m.reverse[upstream]}
    ensures Remember(m, upstream, client).failure == Some(BudgetExceeded) <==>
      && upstream != "" && upstream !in m.reverse && client !in {"", upstream}
      && (|m.reverse| >= 256 || m.bytes + Bytes(upstream) + Bytes(client) > 262144)
    ensures Remember(m, upstream, client).failure.None? && upstream !in m.reverse ==>
      Remember(m, upstream, client).bytes == m.bytes +
        if "" in {upstream, client} || upstream == client then 0 else Bytes(upstream) + Bytes(client)
  {
  }

  /** The length of the UTF-8 encoding, character by character. */
  lemma BytesOfOneMore(c: char, s: string)
    ensures Bytes("") == 0
    ensures c < '\U{80}' ==> Bytes([c] + s) == 1 + Bytes(s)
    ensures '\U{80}' <= c < '\U{800}' ==> Bytes([c] + s) == 2 + Bytes(s)
    ensures '\U{800}' <= c < '\U{10000}' ==> Bytes([c] + s) == 3 + Bytes(s)
    ensures '\U{10000}' <= c ==> Bytes([c] + s) == 4 + Bytes(s)
  {
    assert ([c] + s)[1..] == s;
  }

  /** A value is taken as an identifier exactly when it has at most 1024 bytes and no line ends or null characters;
      otherwise it counts as none. */
  lemma CleanExactly(s: string)
    ensures Clean(s) == s <==>
      s == "" || (Bytes(s) <= 1024 && forall i :: 0 <= i < |s| ==> s[i] != '\r' && s[i] != '\n' && s[i] != '\0')
    ensures Clean(s) != s ==> Clean(s) == ""
  {
    if Bytes(s) <= 1024 && forall i :: 0 <= i < |s| ==> s[i] != '\r' && s[i] != '\n' && s[i] != '\0' {
      assert forall i :: 0 <= i < |s| ==> s[i] !in "\r\n\0";
    }
    if s != "" && Clean(s) == s {
      forall i | 0 <= i < |s|
        ensures s[i] != '\r' && s[i] != '\n' && s[i] != '\0'
      {
        assert s[i] !in "\r\n\0";
        assert "\r\n\0"[0] == '\r' && "\r\n\0"[1] == '\n' && "\r\n\0"[2] == '\0';
      }
    }
  }

  lemma ExtendsTransitive(a: Mapping, b: Mapping, c: Mapping)
    requires Extends(b, a) && Extends(c, b)
    ensures Extends(c, a)
  {
  }

  /* ---- exposing ---- */

  lemma EscapeIsOneToOne()
    ensures forall a, b :: Escape(a) == Escape(b) ==> a == b
  {
    forall a, b | Escape(a) == Escape(b)
      ensures a == b
    {
      EscapeIsInjective(a, b);
    }
  }

  /** Client identifiers by the encoded form of their pseudonyms. */
  function Encoded(reverse: map<string, string>): (m: map<string, string>)
    ensures forall key :: key in reverse ==> Escape(key) in m && m[Escape(key)] == reverse[key]
    ensures forall e :: e in m ==> exists key :: key in reverse && e == Escape(key)
  {
    EscapeIsOneToOne();
    map key | key in reverse :: Escape(key) := reverse[key]
  }

  /** The replacement text of each encoded pseudonym. */
  function Restored(reverse: map<string, string>): (m: map<string, string>)
    ensures m.Keys == Encoded(reverse).Keys
    ensures forall key :: key in reverse ==> Escape(key) in m && m[Escape(key)] == Escape(reverse[key])
  {
    map e | e in Encoded(reverse) :: Escape(Encoded(reverse)[e])
  }

  /** What the client sees of a payload. */
  function Expose(reverse: map<string, string>, payload: string): string {
    Substitute(Restored(reverse), payload)
  }

  lemma NothingToExpose(reverse: map<string, string>, payload: string)
    requires payload == "" || |reverse| == 0
    ensures Expose(reverse, payload) == payload
  {
    if |reverse| == 0 {
      assert reverse == map[];
      assert Restored(reverse) == map[];
      NoKeysNoChange(payload);
    }
  }

  lemma NoEmptyKeys(m: Mapping)
    requires WellFormed(m)
    ensures "" !in Encoded(m.reverse)
  {
    assert forall key :: key in m.reverse ==> |Escape(key)| >= |key| > 0;
  }

  /* ---- the object ---- */

  class CodexIdentity {
    const remap: bool
    const keyId: string
    const clientSessionId: string
    const uuid: (string, string, string) -> string
    var upstreamSessionId: string
    var reverse: map<string, string>
    var mappingBytes: nat
    var mappingErr: Option<MappingError>
    var matcher: Option<seq<string>>
    var matcherValues: map<string, string>

    ghost function View(): Mapping
      reads this
    {
      Mapping(reverse, mappingBytes, mappingErr)
    }

    /** A cached matcher always belongs to the current reverse map. */
    ghost predicate Valid()
      reads this
    {
      && WellFormed(View())
      && (matcher.Some? ==> matcherValues == Encoded(reverse) && Lists(matcher.value, matcherValues))
    }

    constructor (remap: bool, keyId: string, clientSessionId: string, uuid: (string, string, string) -> string)
      ensures Valid() && View() == NO_MAPPING && upstreamSessionId == "" && matcher.None?
      ensures this.remap == remap && this.keyId == keyId && this.clientSessionId == clientSessionId && this.uuid == uuid
    {
      this.remap, this.keyId, this.clientSessionId, this.uuid := remap, keyId, clientSessionId, uuid;
      upstreamSessionId, reverse, mappingBytes, mappingErr := "", map[], 0, None;
      matcher, matcherValues := None, map[];
      EmptyMappingIsWellFormed();
    }

    method Note(upstream: string, client: string)
      requires Valid()
      modifies this`reverse, this`mappingBytes, this`mappingErr, this`matcher, this`matcherValues
      ensures Valid() && View() == Remember(old(View()), upstream, client)
    {
      NoteEntry(upstream, client);
    }

    /** The same, for the matcher's sake apart: it is dropped whenever an entry is added. */
    method NoteEntry(upstream: string, client: string)
      requires WellFormed(View())
      modifies this`reverse, this`mappingBytes, this`mappingErr, this`matcher, this`matcherValues
      ensures WellFormed(View()) && View() == Remember(old(View()), upstream, client)
      ensures matcher.None? ||
        (reverse == old(reverse) && matcher == old(matcher) && matcherValues == old(matcherValues))
    {
      RememberIsWellFormed(View(), upstream, client);
      if upstream != "" && client != "" && upstream != client && mappingErr.None? {
        if upstream in reverse {
          if reverse[upstream] != client {
            mappingErr := Some(Collision);
          }
        } else {
          var added := Bytes(upstream) + Bytes(client);
          if |reverse| >= MAX_MAPPINGS || mappingBytes + added > MAX_MAPPING_BYTES {
            mappingErr := Some(BudgetExceeded);
          } else {
            reverse := reverse[upstream := client];
            mappingBytes := mappingBytes + added;
            matcher := None;
            matcherValues := map[];
          }
        }
      }
    }

    method MapValue(kind: string, raw: string) returns (mapped: string)
      requires Valid()
      modifies this`reverse, this`mappingBytes, this`mappingErr, this`matcher, this`matcherValues
      ensures Valid()
      ensures Clean(raw) == "" || !remap ==> mapped == Clean(raw) && View() == old(View())
      ensures Clean(raw) != "" && remap ==>
        mapped == uuid(keyId, kind, Clean(raw)) && View() == Remember(old(View()), mapped, Clean(raw))
    {
      var value := Clean(raw);
      if value == "" || !remap {
        return value;
      }
      mapped := uuid(keyId, kind, value);
      Note(mapped, value);
    }

    /** A window of the client's own session keeps its suffix and is restored as a whole. */
    method MapWindow(raw: string) returns (mapped: string)
      requires Valid()
      modifies this`reverse, this`mappingBytes, this`mappingErr, this`matcher, this`matcherValues
      ensures Valid()
      ensures Clean(raw) == "" || !remap ==> mapped == Clean(raw) && View() == old(View())
      ensures Clean(raw) != "" && remap ==>
        var (base, suffix) := SplitWindow(Clean(raw));
        if base == clientSessionId && upstreamSessionId != "" then
          mapped == upstreamSessionId + suffix && View() == Remember(old(View()), mapped, Clean(raw))
        else
          && mapped == uuid(keyId, "window", base) + suffix
          && View() == Remember(old(View()), uuid(keyId, "window", base), base)
    {
      var value := Clean(raw);
      if value == "" || !remap {
        return value;
      }
      var (base, suffix) := SplitWindow(value);
      if base == clientSessionId && upstreamSessionId != "" {
        mapped := upstreamSessionId;
        Note(mapped + suffix, value);
      } else {
        WindowBaseIsValid(value);
        mapped := MapValue("window", base);
      }
      mapped := mapped + suffix;
    }

    /** Visits the reverse map in some order. */
    method CollectKeys() returns (keys: seq<string>, values: map<string, string>)
      ensures values == Encoded(reverse)
      ensures forall e :: e in keys <==> e in values
    {
      keys, values := [], map[];
      var left := reverse.Keys;
      while left != {}
        invariant left <= reverse.Keys
        invariant forall key :: key in reverse.Keys - left ==>
          Escape(key) in values && values[Escape(key)] == reverse[key]
        invariant forall e :: e in values ==> exists key :: key in reverse.Keys - left && e == Escape(key)
        invariant forall e :: e in keys <==> e in values
      {
        var upstream :| upstream in left;
        EscapeIsOneToOne();
        keys := keys + [Escape(upstream)];
        values := values[Escape(upstream) := reverse[upstream]];
        left := left - {upstream};
      }
    }

    /** Rebuilds the matcher if an entry was added since it was built. */
    method BuildMatcher()
      requires Valid()
      modifies this`matcher, this`matcherValues
      ensures Valid() && matcher.Some?
    {
      if matcher.None? {
        var keys, values := CollectKeys();
        var sorted := SortLongestFirst(keys);
        assert Lists(sorted, values);
        matcher := Some(sorted);
        matcherValues := values;
      }
    }

    method ExposePayload(payload: string) returns (out: string)
      requires Valid()
      modifies this`matcher, this`matcherValues
      ensures Valid()
      ensures out == Expose(reverse, payload)
    {
      if payload == "" || |reverse| == 0 {
        NothingToExpose(reverse, payload);
        out := payload;
      } else {
        BuildMatcher();
        NoEmptyKeys(View());
        out := ReplaceAll(matcher.value, matcherValues, Restored(reverse), payload);
      }
    }
  }

  function LastColon(s: string): (index: nat)
    ensures index < |s| ==> s[index] == ':'
    ensures index <= |s|
    ensures forall i :: index < i < |s| ==> s[i] != ':'
    ensures index == |s| ==> ':' !in s
  {
    if s == "" then 0
    else if s[|s| - 1] == ':' then |s| - 1
    else
      var index := LastColon(s[..|s| - 1]);
      if index == |s| - 1 then |s| else index
  }

  /** A window id is a base and, after the last colon that is not its first character, a suffix. */
  function SplitWindow(s: string): (parts: (string, string))
    ensures parts.0 + parts.1 == s
  {
    var index := LastColon(s);
    if 0 < index < |s| then (s[..index], s[index..]) else (s, "")
  }

  /** The suffix begins with the last colon, unless that is the first character or there is none. */
  lemma WindowParts(s: string)
    ensures var (base, suffix) := SplitWindow(s);
      && base + suffix == s
      && (suffix != "" ==> base != "" && suffix[0] == ':' && ':' !in suffix[1..])
      && (suffix == "" ==> forall i :: 0 < i < |s| ==> s[i] != ':')
  {
    var (base, suffix) := SplitWindow(s);
    if suffix != "" {
      forall c | c in suffix[1..]
        ensures c != ':'
      {
        var i :| 0 <= i < |suffix[1..]| && suffix[1..][i] == c;
        assert s[|base| + 1 + i] == c;
      }
    }
  }

  lemma {:induction false} BytesOfPrefix(s: string, n: nat)
    requires n <= |s|
    ensures Bytes(s[..n]) <= Bytes(s)
  {
    if n > 0 {
      BytesOfPrefix(s[1..], n - 1);
      assert s[..n][1..] == s[1..][..n - 1];
    }
  }

  lemma WindowBaseIsValid(s: string)
    requires ValidIdentity(s)
    ensures ValidIdentity(SplitWindow(s).0)
  {
    var base := SplitWindow(s).0;
    assert base == s[..|base|];
    BytesOfPrefix(s, |base|);
  }

  /** The replacing loop: copy up to the next match, write the replacement, go on behind the match. */
  method ReplaceAll(patterns: seq<string>, values: map<string, string>, ghost restored: map<string, string>,
                    payload: string)
    returns (out: string)
    requires Lists(patterns, values) && "" !in values
    requires restored.Keys == values.Keys && forall e :: e in values ==> restored[e] == Escape(values[e])
    ensures out == Substitute(restored, payload)
  {
    assert Lists(patterns, restored);
    out := "";
    var rest := payload;
    var found := FindFirst(patterns, rest);
    while found.Some?
      invariant out + Substitute(restored, rest) == Substitute(restored, payload)
      invariant found.None? ==> forall at, p :: 0 <= at <= |rest| && p in patterns ==> !MatchesAt(p, rest, at)
      invariant found.Some? ==> IsFirstMatch(patterns, rest, found.value)
      decreases |rest|, if found.Some? then 1 else 0
    {
      var m := found.value;
      FirstMatchIsReplaced(restored, patterns, rest, m);
      var before, copied, written := out, rest[..m.start], Escape(values[rest[m.start..m.end]]);
      out := out + (copied + written);
      rest := rest[m.end..];
      assert before + (copied + written + Substitute(restored, rest)) == out + Substitute(restored, rest);
      found := FindFirst(patterns, rest);
    }
    UnmatchedTextIsKept(restored, patterns, rest);
    out := out + rest;
  }
}
