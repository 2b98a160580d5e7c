/** Replacing every occurrence of a set of keys at once: leftmost first, longest first, never rescanning. */
module Substitution {
  import opened Items

  /* ---- the meaning ---- */

  /** The length of the longest key of at most `n` characters that `s` starts with; 0 if there is none. */
  function LongestUpTo<V>(keys: map<string, V>, s: string, n: nat): (length: nat)
    requires n <= |s|
    ensures length <= n
    ensures length > 0 ==> s[..length] in keys
    ensures forall k :: length < k <= n ==> s[..k] !in keys
  {
    if n == 0 || s[..n] in keys then n else LongestUpTo(keys, s, n - 1)
  }

  function Longest<V>(keys: map<string, V>, s: string): nat {
    LongestUpTo(keys, s, |s|)
  }

  function Substitute(m: map<string, string>, s: string): string
    decreases |s|
  {
    if s == "" then ""
    else
      var n := Longest(m, s);
      if n == 0 then [s[0]] + Substitute(m, s[1..]) else m[s[..n]] + Substitute(m, s[n..])
  }

  /* ---- searching with an ordered list of patterns ---- */

  predicate MatchesAt(pattern: string, text: string, at: nat) {
    at + |pattern| <= |text| && text[at..at + |pattern|] == pattern
  }

  datatype Match = Match(start: nat, end: nat)

  /** `m` is where a search finds the first of `patterns` that matches at the leftmost place any does. */
  ghost predicate IsFirstMatch(patterns: seq<string>, text: string, m: Match) {
    && m.start <= m.end <= |text|
    && (forall at, p :: 0 <= at < m.start && p in patterns ==> !MatchesAt(p, text, at))
    && exists i :: 0 <= i < |patterns| && MatchesAt(patterns[i], text, m.start)
         && m.end == m.start + |patterns[i]|
         && forall j :: 0 <= j < i ==> !MatchesAt(patterns[j], text, m.start)
  }

  method FindFirst(patterns: seq<string>, text: string) returns (found: Option<Match>)
    ensures found.None? ==> forall at, p :: 0 <= at <= |text| && p in patterns ==> !MatchesAt(p, text, at)
    ensures found.Some? ==> IsFirstMatch(patterns, text, found.value)
  {
    for at := 0 to |text| + 1
      invariant forall a, p :: 0 <= a < at && p in patterns ==> !MatchesAt(p, text, a)
    {
      for i := 0 to |patterns|
        invariant forall j :: 0 <= j < i ==> !MatchesAt(patterns[j], text, at)
      {
        if MatchesAt(patterns[i], text, at) {
          return Some(Match(at, at + |patterns[i]|));
        }
      }
    }
    return None;
  }

  predicate LongestFirst(patterns: seq<string>) {
    forall i, j :: 0 <= i < j < |patterns| ==> |patterns[i]| >= |patterns[j]|
  }

  /** Which order keys of one length come in does not matter, because two of them cannot match at one place. */
  method SortLongestFirst(patterns: seq<string>) returns (sorted: seq<string>)
    ensures LongestFirst(sorted)
    ensures multiset(sorted) == multiset(patterns)
    ensures forall p :: p in sorted <==> p in patterns
  {
    sorted := [];
    for i := 0 to |patterns|
      invariant LongestFirst(sorted)
      invariant multiset(sorted) == multiset(patterns[..i])
    {
      assert patterns[..i + 1] == patterns[..i] + [patterns[i]];
      sorted := InsertByLength(sorted, patterns[i]);
    }
    assert patterns[..|patterns|] == patterns;
    assert forall p :: p in sorted <==> p in multiset(sorted);
    assert forall p :: p in patterns <==> p in multiset(patterns);
  }

  method InsertByLength(sorted: seq<string>, pattern: string) returns (r: seq<string>)
    requires LongestFirst(sorted)
    ensures LongestFirst(r) && multiset(r) == multiset(sorted) + multiset{pattern}
  {
    var i := 0;
    while i < |sorted| && |sorted[i]| > |pattern|
      invariant 0 <= i <= |sorted|
      invariant forall j :: 0 <= j < i ==> |sorted[j]| > |pattern|
    {
      i := i + 1;
    }
    r := sorted[..i] + [pattern] + sorted[i..];
    InsertionAddsOne(sorted, i, pattern);
    InsertionStaysSorted(sorted, i, pattern);
  }

  lemma InsertionAddsOne(sorted: seq<string>, i: nat, pattern: string)
    requires i <= |sorted|
    ensures multiset(sorted[..i] + [pattern] + sorted[i..]) == multiset(sorted) + multiset{pattern}
  {
    assert sorted == sorted[..i] + sorted[i..];
  }

  lemma InsertionStaysSorted(sorted: seq<string>, i: nat, pattern: string)
    requires i <= |sorted| && LongestFirst(sorted)
    requires forall j :: 0 <= j < i ==> |sorted[j]| >= |pattern|
    requires i < |sorted| ==> |pattern| >= |sorted[i]|
    ensures LongestFirst(sorted[..i] + [pattern] + sorted[i..])
  {
    var r := sorted[..i] + [pattern] + sorted[i..];
    assert forall j :: 0 <= j < |r| ==> r[j] == if j < i then sorted[j] else if j == i then pattern else sorted[j - 1];
  }

  ghost predicate Lists<V>(patterns: seq<string>, keys: map<string, V>) {
    LongestFirst(patterns) && forall p :: p in patterns <==> p in keys
  }

  /** With the longest patterns first, the first match is the longest one at the leftmost place. */
  lemma FirstMatchIsLongest<V>(patterns: seq<string>, keys: map<string, V>, text: string, m: Match)
    requires Lists(patterns, keys) && "" !in keys && IsFirstMatch(patterns, text, m)
    ensures m.start < m.end && Longest(keys, text[m.start..]) == m.end - m.start
    ensures forall at :: 0 <= at < m.start ==> Longest(keys, text[at..]) == 0
  {
    var i :| 0 <= i < |patterns| && MatchesAt(patterns[i], text, m.start) && m.end == m.start + |patterns[i]|
         && forall j :: 0 <= j < i ==> !MatchesAt(patterns[j], text, m.start);
    var rest := text[m.start..];
    assert rest[..|patterns[i]|] == patterns[i];
    var n := Longest(keys, rest);
    assert n >= |patterns[i]|;
    assert text[m.start..m.start + n] == rest[..n];
    assert MatchesAt(rest[..n], text, m.start);
    var k :| 0 <= k < |patterns| && patterns[k] == rest[..n];
    assert k >= i;
    forall at | 0 <= at < m.start
      ensures Longest(keys, text[at..]) == 0
    {
      NothingMatches(patterns, keys, text, at);
    }
  }

  lemma NothingMatches<V>(patterns: seq<string>, keys: map<string, V>, text: string, at: nat)
    requires (forall p :: p in patterns <==> p in keys) && at <= |text|
    requires forall p :: p in patterns ==> !MatchesAt(p, text, at)
    ensures Longest(keys, text[at..]) == 0
  {
    forall n | 0 < n <= |text| - at
      ensures text[at..][..n] !in keys
    {
      assert text[at..at + n] == text[at..][..n];
      assert MatchesAt(text[at..][..n], text, at);
    }
  }

  /* ---- facts about substitution ---- */

  lemma UnmatchedCharIsCopied(m: map<string, string>, s: string, at: nat)
    requires at < |s| && Longest(m, s[at..]) == 0
    ensures Substitute(m, s[at..]) == [s[at]] + Substitute(m, s[at + 1..])
  {
    assert s[at..][1..] == s[at + 1..];
  }

  lemma OneMoreTaken(s: string, n: nat, rest: string)
    requires n < |s|
    ensures s[..n] + ([s[n]] + rest) == s[..n + 1] + rest
  {
  }

  lemma {:induction false} UnmatchedTextIsCopied(m: map<string, string>, s: string, n: nat)
    requires n <= |s| && forall at :: 0 <= at < n ==> Longest(m, s[at..]) == 0
    ensures Substitute(m, s) == s[..n] + Substitute(m, s[n..])
    decreases n
  {
    if n == 0 {
      assert s[0..] == s;
    } else {
      UnmatchedTextIsCopied(m, s, n - 1);
      UnmatchedCharIsCopied(m, s, n - 1);
      OneMoreTaken(s, n - 1, Substitute(m, s[n..]));
    }
  }

  /** One replacement: the text before the first match, its replacement, and the rest still to do. */
  lemma FirstMatchIsReplaced(m: map<string, string>, patterns: seq<string>, s: string, found: Match)
    requires Lists(patterns, m) && "" !in m && IsFirstMatch(patterns, s, found)
    ensures s[found.start..found.end] in m && found.start < found.end
    ensures Substitute(m, s) == s[..found.start] + m[s[found.start..found.end]] + Substitute(m, s[found.end..])
  {
    FirstMatchIsLongest(patterns, m, s, found);
    UnmatchedTextIsCopied(m, s, found.start);
    var rest, n := s[found.start..], found.end - found.start;
    assert rest[..n] == s[found.start..found.end] && rest[n..] == s[found.end..];
  }

  lemma UnmatchedTextIsKept(m: map<string, string>, patterns: seq<string>, s: string)
    requires Lists(patterns, m)
    requires forall at, p :: 0 <= at <= |s| && p in patterns ==> !MatchesAt(p, s, at)
    ensures Substitute(m, s) == s
  {
    forall at | 0 <= at < |s|
      ensures Longest(m, s[at..]) == 0
    {
      NothingMatches(patterns, m, s, at);
    }
    UnmatchedTextIsCopied(m, s, |s|);
  }

  /** Replacements no longer than what they replace never lengthen a text. */
  lemma {:induction false} ShorterReplacementsShrink(m: map<string, string>, s: string)
    requires forall key :: key in m ==> |m[key]| <= |key|
    ensures |Substitute(m, s)| <= |s|
    decreases |s|
  {
    if s != "" {
      var n := Longest(m, s);
      ShorterReplacementsShrink(m, s[if n == 0 then 1 else n..]);
    }
  }

  /** No key occurs across the boundary between `a` and `b`. */
  ghost predicate NoKeyAcross<V>(keys: map<string, V>, a: string, b: string) {
    forall start, end :: 0 <= start < |a| < end <= |a| + |b| ==> (a + b)[start..end] !in keys
  }

  lemma MatchStaysBefore<V>(keys: map<string, V>, a: string, b: string)
    requires NoKeyAcross(keys, a, b) && a != ""
    ensures Longest(keys, a + b) == Longest(keys, a)
  {
    var s := a + b;
    forall end | |a| < end <= |s|
      ensures s[..end] !in keys
    {
      assert s[..end] == s[0..end];
    }
    assert forall k :: 0 <= k <= |a| ==> s[..k] == a[..k];
  }

  lemma NoKeyAcrossLater<V>(keys: map<string, V>, a: string, b: string, n: nat)
    requires NoKeyAcross(keys, a, b) && n <= |a|
    ensures NoKeyAcross(keys, a[n..], b)
  {
    forall start, end | 0 <= start < |a[n..]| < end <= |a[n..]| + |b|
      ensures (a[n..] + b)[start..end] !in keys
    {
      assert (a[n..] + b)[start..end] == (a + b)[n + start..n + end];
    }
  }

  /** A boundary that no key crosses splits the work. */
  lemma {:induction false} SubstitutionSplits(m: map<string, string>, a: string, b: string)
    requires NoKeyAcross(m, a, b)
    ensures Substitute(m, a + b) == Substitute(m, a) + Substitute(m, b)
    decreases |a|
  {
    if a == "" {
      assert a + b == b;
    } else {
      MatchStaysBefore(m, a, b);
      var longest := Longest(m, a);
      var n := if longest == 0 then 1 else longest;
      assert (a + b)[n..] == a[n..] + b && (a + b)[..n] == a[..n];
      NoKeyAcrossLater(m, a, b, n);
      SubstitutionSplits(m, a[n..], b);
    }
  }

  lemma {:induction false} NoKeysNoChange(s: string)
    ensures Substitute(map[], s) == s
  {
    if s != "" {
      NoKeysNoChange(s[1..]);
      assert s == [s[0]] + s[1..];
    }
  }
}
