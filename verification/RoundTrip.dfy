/** Recorded pseudonyms come back as the client's identifiers wherever they stand as JSON strings. */
module RoundTrip {
  import opened Escaping
  import opened Substitution
  import opened Identity

  const QUOTE := "\""

  /** The last character before a string literal is never a backslash. */
  predicate MayPrecedeLiteral(s: string) {
    s != "" ==> s[|s| - 1] != '\\'
  }

  /** Wherever a key of `m` holds a quote, a backslash stands before it. */
  ghost predicate QuotesHidden(m: map<string, string>) {
    forall e, i :: e in m && 0 <= i < |e| && e[i] == '"' ==> i > 0 && e[i - 1] == '\\'
  }

  lemma PseudonymsHideTheirQuotes(reverse: map<string, string>)
    ensures QuotesHidden(Restored(reverse))
  {
    forall e, i | e in Restored(reverse) && 0 <= i < |e| && e[i] == '"'
      ensures i > 0 && e[i - 1] == '\\'
    {
      var key :| key in reverse && e == Escape(key);
      QuotesAreEscaped(key, i);
    }
  }

  lemma NoKeyCrossesAnOpeningQuote(m: map<string, string>, a: string, b: string)
    requires QuotesHidden(m) && MayPrecedeLiteral(a)
    ensures NoKeyAcross(m, a, QUOTE + b)
  {
    var s := a + (QUOTE + b);
    forall start, end | 0 <= start < |a| < end <= |s|
      ensures s[start..end] !in m
    {
      var i := |a| - start;
      assert s[start..end][i] == '"' && s[start..end][i - 1] == a[|a| - 1];
    }
  }

  lemma NoKeyStartsWithAQuote(m: map<string, string>, s: string)
    requires s != "" && s[0] == '"' && QuotesHidden(m)
    ensures Longest(m, s) == 0
  {
    forall n | 0 < n <= |s|
      ensures s[..n] !in m
    {
      assert s[..n][0] == '"';
    }
  }

  lemma TakenBeyond(e: string, b: string, n: nat)
    requires |e| < n <= |e + QUOTE + b|
    ensures (e + QUOTE + b)[..n] == e + (QUOTE + b)[..n - |e|]
  {
    Regroup(e, QUOTE, b);
  }

  /** No pseudonym consists of another one followed by a quote. */
  lemma NoLongerPseudonym(key: string, other: string, b: string, n: nat)
    requires |Escape(key)| < n <= |Escape(key) + QUOTE + b|
    ensures Escape(other) != (Escape(key) + QUOTE + b)[..n]
  {
    var rest := (QUOTE + b)[..n - |Escape(key)|];
    TakenBeyond(Escape(key), b, n);
    if Escape(other) == Escape(key) + rest {
      EscapedPrefix(key, other, rest);
      assert rest[0] == '"';
      QuotesAreEscaped(other[|key|..], 0);
    }
  }

  lemma LiteralMatchesWhole(reverse: map<string, string>, key: string, b: string)
    requires key in reverse
    ensures Longest(Restored(reverse), Escape(key) + QUOTE + b) == |Escape(key)|
  {
    var s := Escape(key) + QUOTE + b;
    assert s[..|Escape(key)|] == Escape(key);
    forall n | |Escape(key)| < n <= |s|
      ensures s[..n] !in Restored(reverse)
    {
      if s[..n] in Restored(reverse) {
        var other :| other in reverse && s[..n] == Escape(other);
        NoLongerPseudonym(key, other, b, n);
      }
    }
  }

  lemma LiteralIsReplaced(m: map<string, string>, e: string, rest: string)
    requires QuotesHidden(m) && e in m && e != "" && Longest(m, e + rest) == |e|
    ensures Substitute(m, QUOTE + (e + rest)) == QUOTE + (m[e] + Substitute(m, rest))
  {
    var inner := e + rest;
    var literal := QUOTE + inner;
    NoKeyStartsWithAQuote(m, literal);
    assert literal[1..] == inner;
    assert inner[..|e|] == e && inner[|e|..] == rest;
  }

  lemma LiteralWithinIsReplaced(m: map<string, string>, a: string, e: string, rest: string)
    requires QuotesHidden(m) && e in m && e != "" && Longest(m, e + rest) == |e| && MayPrecedeLiteral(a)
    ensures Substitute(m, a + (QUOTE + (e + rest))) == Substitute(m, a) + (QUOTE + (m[e] + Substitute(m, rest)))
  {
    NoKeyCrossesAnOpeningQuote(m, a, e + rest);
    SubstitutionSplits(m, a, QUOTE + (e + rest));
    LiteralIsReplaced(m, e, rest);
  }

  /** A recorded pseudonym that is a whole string literal is replaced by exactly the client identifier it
      was issued for; the rest of the payload is treated as if it stood alone. */
  lemma RecordedIdIsRestored(reverse: map<string, string>, a: string, key: string, b: string)
    requires key in reverse && "" !in reverse && MayPrecedeLiteral(a)
    ensures Expose(reverse, a + (QUOTE + (Escape(key) + QUOTE + b))) ==
      Expose(reverse, a) + (QUOTE + (Escape(reverse[key]) + Expose(reverse, QUOTE + b)))
  {
    PseudonymsHideTheirQuotes(reverse);
    LiteralMatchesWhole(reverse, key, b);
    Regroup(Escape(key), QUOTE, b);
    RestoredPseudonym(reverse, key);
    LiteralWithinIsReplaced(Restored(reverse), a, Escape(key), QUOTE + b);
  }

  lemma RestoredPseudonym(reverse: map<string, string>, key: string)
    requires key in reverse && "" !in reverse
    ensures Escape(key) != "" && Escape(key) in Restored(reverse)
    ensures Restored(reverse)[Escape(key)] == Escape(reverse[key])
  {
  }

  lemma NameIsPlain(name: string)
    requires forall c :: c in name ==> 'a' <= c <= 'z' || 'A' <= c <= 'Z' || '0' <= c <= '9' || c == '-' || c == '_'
    ensures Escape(name) == name
  {
    forall i | 0 <= i < |name|
      ensures name[i] >= ' ' && name[i] !in "\"\\<>&\U{2028}\U{2029}"
    {
      assert name[i] in name;
    }
    PlainTextIsUnchanged(name);
  }

  lemma VisibleTextIsWritten(text: string)
    requires forall i :: 0 <= i < |text| ==> text[i] >= ' ' && text[i] !in "\"\\<>&\U{2028}\U{2029}"
    ensures Escape(text) == text
  {
    PlainTextIsUnchanged(text);
  }

  /** The same in plain text: a recorded name of letters, digits, `-` and `_`, such as a UUID, is found where it
      stands between quotes, just as it is, and what takes its place is the client's text. */
  lemma RecordedNameIsRestored(reverse: map<string, string>, a: string, name: string, b: string)
    requires name in reverse && "" !in reverse && MayPrecedeLiteral(a)
    requires forall c :: c in name ==> 'a' <= c <= 'z' || 'A' <= c <= 'Z' || '0' <= c <= '9' || c == '-' || c == '_'
    ensures var client := reverse[name];
      var exposed := Expose(reverse, a + (QUOTE + (name + QUOTE + b)));
      && exposed == Expose(reverse, a) + (QUOTE + (Escape(client) + Expose(reverse, QUOTE + b)))
      && ((forall i :: 0 <= i < |client| ==> client[i] >= ' ' && client[i] !in "\"\\<>&\U{2028}\U{2029}") ==>
            exposed == Expose(reverse, a) + (QUOTE + (client + Expose(reverse, QUOTE + b))))
  {
    var client := reverse[name];
    NameIsPlain(name);
    RecordedIdIsRestored(reverse, a, name, b);
    if forall i :: 0 <= i < |client| ==> client[i] >= ' ' && client[i] !in "\"\\<>&\U{2028}\U{2029}" {
      VisibleTextIsWritten(client);
    }
  }

  /** A payload in which no pseudonym occurs is delivered as it is. */
  lemma UnrelatedTextIsUntouched(reverse: map<string, string>, payload: string)
    requires forall start, end :: 0 <= start <= end <= |payload| ==> payload[start..end] !in Restored(reverse)
    ensures Expose(reverse, payload) == payload
  {
    forall at | 0 <= at < |payload|
      ensures Longest(Restored(reverse), payload[at..]) == 0
    {
      assert forall n :: 0 <= n <= |payload| - at ==> payload[at..][..n] == payload[at..at + n];
    }
    UnmatchedTextIsCopied(Restored(reverse), payload, |payload|);
  }

  /* ---- pseudonyms at the start of a literal ---- */

  function Literal(id: string): string {
    QUOTE + (Escape(id) + QUOTE)
  }

  lemma LiteralIsInjective(a: string, b: string)
    requires Literal(a) == Literal(b)
    ensures a == b
  {
    assert Literal(a)[1..|Literal(a)| - 1] == Escape(a) && Literal(b)[1..|Literal(b)| - 1] == Escape(b);
    EscapeIsInjective(a, b);
  }

  /** No recorded pseudonym goes on further than `key` at the start of `key + tail`. */
  ghost predicate NoLongerKey(reverse: map<string, string>, key: string, tail: string) {
    forall other :: other in reverse && key < other ==> !(other <= key + tail)
  }

  lemma MatchEndsInTheText(whole: string, other: string, n: nat)
    requires n <= |Escape(whole) + QUOTE| && Escape(other) == (Escape(whole) + QUOTE)[..n]
    ensures n <= |Escape(whole)| && Escape(whole) == Escape(other) + Escape(whole)[n..]
  {
    if n > |Escape(whole)| {
      assert Escape(whole) + QUOTE + "" == Escape(whole) + QUOTE;
      NoLongerPseudonym(whole, other, "", n);
    }
  }

  lemma LongerMatchIsLongerKey(key: string, tail: string, other: string, n: nat)
    requires |Escape(key)| < n <= |Escape(key + tail) + QUOTE|
    requires Escape(other) == (Escape(key + tail) + QUOTE)[..n]
    ensures key < other <= key + tail
  {
    var whole := key + tail;
    MatchEndsInTheText(whole, other, n);
    EscapedPrefix(other, whole, Escape(whole)[n..]);
    EscapeOfConcat(key, tail);
    var more := Escape(other)[|Escape(key)|..];
    assert Escape(other) == Escape(key) + more;
    EscapedPrefix(key, other, more);
  }

  lemma PrefixMatchesWhole(reverse: map<string, string>, key: string, tail: string)
    requires key in reverse && NoLongerKey(reverse, key, tail)
    ensures Longest(Restored(reverse), Escape(key) + (Escape(tail) + QUOTE)) == |Escape(key)|
  {
    var s := Escape(key) + (Escape(tail) + QUOTE);
    EscapeOfConcat(key, tail);
    assert s == Escape(key + tail) + QUOTE;
    assert s[..|Escape(key)|] == Escape(key);
    forall n | |Escape(key)| < n <= |s|
      ensures s[..n] !in Restored(reverse)
    {
      if s[..n] in Restored(reverse) {
        var other :| other in reverse && s[..n] == Escape(other);
        LongerMatchIsLongerKey(key, tail, other, n);
      }
    }
  }

  /** An identifier that begins with a recorded pseudonym, and with no longer one, has that beginning replaced. */
  lemma RecordedPrefixIsReplaced(reverse: map<string, string>, key: string, tail: string)
    requires key in reverse && "" !in reverse && NoLongerKey(reverse, key, tail)
    ensures Expose(reverse, Literal(key + tail)) ==
      QUOTE + (Escape(reverse[key]) + Expose(reverse, Escape(tail) + QUOTE))
  {
    LiteralOfConcat(key, tail);
    PseudonymsHideTheirQuotes(reverse);
    PrefixMatchesWhole(reverse, key, tail);
    RestoredPseudonym(reverse, key);
    LiteralIsReplaced(Restored(reverse), Escape(key), Escape(tail) + QUOTE);
  }

  lemma LiteralOfConcat(a: string, b: string)
    ensures Literal(a + b) == QUOTE + (Escape(a) + (Escape(b) + QUOTE))
  {
    EscapeOfConcat(a, b);
    Regroup(Escape(a), Escape(b), QUOTE);
  }

  /** If no recorded pseudonym is shorter than its identifier, such a literal always changes. */
  lemma LongerIdAlwaysChanges(reverse: map<string, string>, key: string, tail: string)
    requires key in reverse && "" !in reverse && NoLongerKey(reverse, key, tail)
    requires forall other :: other in reverse ==> |Escape(reverse[other])| <= |Escape(other)|
    requires |Escape(reverse[key])| < |Escape(key)|
    ensures Expose(reverse, Literal(key + tail)) != Literal(key + tail)
  {
    var m := Restored(reverse);
    RecordedPrefixIsReplaced(reverse, key, tail);
    EscapeOfConcat(key, tail);
    forall e | e in m
      ensures |m[e]| <= |e|
    {
      var other :| other in reverse && e == Escape(other);
    }
    ShorterReplacementsShrink(m, Escape(tail) + QUOTE);
  }

  /** No recorded pseudonym occurs in the rest of the literal. */
  ghost predicate TailIsClear(reverse: map<string, string>, tail: string) {
    forall start, end :: 0 <= start <= end <= |Escape(tail) + QUOTE| ==>
      (Escape(tail) + QUOTE)[start..end] !in Restored(reverse)
  }

  /** A window outside the client's own session is sent as the pseudonym of its base and a suffix. When the longest
      pseudonym recorded at its start is that of the base and a part of the suffix, and the rest is clear, it
      comes back as the client's window exactly when that pseudonym stands for the base and the same part. */
  lemma WindowComesBackExactly(reverse: map<string, string>, upstream: string, base: string, part: string, rest: string)
    requires upstream + part in reverse && "" !in reverse
    requires NoLongerKey(reverse, upstream + part, rest) && TailIsClear(reverse, rest)
    ensures Expose(reverse, Literal(upstream + part + rest)) == Literal(base + part + rest) <==>
      reverse[upstream + part] == base + part
  {
    PrefixComesBack(reverse, upstream + part, rest);
    LiteralsAgreeExactly(reverse[upstream + part], base + part, rest);
  }

  lemma PrefixComesBack(reverse: map<string, string>, key: string, rest: string)
    requires key in reverse && "" !in reverse && NoLongerKey(reverse, key, rest) && TailIsClear(reverse, rest)
    ensures Expose(reverse, Literal(key + rest)) == Literal(reverse[key] + rest)
  {
    RecordedPrefixIsReplaced(reverse, key, rest);
    UnrelatedTextIsUntouched(reverse, Escape(rest) + QUOTE);
    LiteralOfConcat(reverse[key], rest);
  }

  lemma LiteralsAgreeExactly(a: string, b: string, rest: string)
    ensures Literal(a + rest) == Literal(b + rest) <==> a == b
  {
    if Literal(a + rest) == Literal(b + rest) {
      LiteralIsInjective(a + rest, b + rest);
      assert a == (a + rest)[..|a + rest| - |rest|] && b == (b + rest)[..|b + rest| - |rest|];
    }
  }

  /** Recording the base of a foreign window is enough: with no longer pseudonym at its start and none in its
      suffix, the window that was sent comes back as the client's. */
  lemma ForeignWindowComesBack(before: Mapping, upstream: string, window: string)
    requires WellFormed(before) && Remember(before, upstream, SplitWindow(window).0).failure.None?
    requires var base := SplitWindow(window).0; upstream != "" && base != "" && upstream != base
    requires var reverse := Remember(before, upstream, SplitWindow(window).0).reverse;
      NoLongerKey(reverse, upstream, SplitWindow(window).1) && TailIsClear(reverse, SplitWindow(window).1)
    ensures var reverse := Remember(before, upstream, SplitWindow(window).0).reverse;
      Expose(reverse, Literal(upstream + SplitWindow(window).1)) == Literal(window)
  {
    var (base, suffix) := SplitWindow(window);
    RememberExtends(before, upstream, base);
    PrefixComesBack(Remember(before, upstream, base).reverse, upstream, suffix);
  }

  /* ---- a single short pseudonym ---- */

  lemma {:induction false} ShortTextIsKept(e: string, r: string, tail: string)
    requires |tail| < |e|
    ensures Substitute(map[e := r], tail) == tail
  {
    if tail != "" {
      assert forall n :: 0 <= n <= |tail| ==> tail[..n] != e;
      ShortTextIsKept(e, r, tail[1..]);
      assert tail == [tail[0]] + tail[1..];
    }
  }

  /** Whatever begins with the only pseudonym and goes on for less than its length is rewritten. */
  lemma OnePseudonymIsCutOut(e: string, r: string, tail: string)
    requires |tail| < |e|
    ensures Substitute(map[e := r], e + tail) == r + tail
  {
    var s := e + tail;
    assert s[..|e|] == e && s[|e|..] == tail;
    assert Longest(map[e := r], s) == |e|;
    ShortTextIsKept(e, r, tail);
  }

  lemma OnePseudonym(upstream: string, client: string)
    ensures Restored(map[upstream := client]) == map[Escape(upstream) := Escape(client)]
  {
    var reverse := map[upstream := client];
    assert upstream in reverse;
    forall e | e in Restored(reverse)
      ensures e == Escape(upstream)
    {
      var key :| key in reverse && e == Escape(key);
    }
  }

  /** Pseudonyms need not be as long as a UUID: without remapping the item id "a" is recorded as "msg_a",
      and any other upstream id that begins with that loses its prefix too. */
  lemma ShortPseudonymReachesIntoOtherIds(prefix: string, id: string, tail: string)
    requires PlainText(prefix + id) && PlainText(id) && |tail| < |prefix + id|
    ensures Expose(map[prefix + id := id], prefix + id + tail) == id + tail
  {
    OnePseudonym(prefix + id, id);
    PlainTextIsUnchanged(prefix + id);
    PlainTextIsUnchanged(id);
    OnePseudonymIsCutOut(prefix + id, id, tail);
  }
}
