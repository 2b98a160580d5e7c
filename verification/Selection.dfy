/** Keeping some positions of a sequence, in order. */
module Selection {

  /** The positions below `n` whose flag is set, in increasing order. */
  function Kept(keep: seq<bool>, n: nat): (positions: seq<nat>)
    requires n <= |keep|
    ensures |positions| <= n
    ensures forall k :: 0 <= k < |positions| ==> positions[k] < n && keep[positions[k]]
    ensures forall k, l :: 0 <= k < l < |positions| ==> positions[k] < positions[l]
    ensures forall i :: 0 <= i < n && keep[i] ==> i in positions
  {
    if n == 0 then [] else Kept(keep, n - 1) + (if keep[n - 1] then [n - 1] else [])
  }

  function At<T>(s: seq<T>, positions: seq<nat>): (r: seq<T>)
    requires forall k :: 0 <= k < |positions| ==> positions[k] < |s|
  {
    seq(|positions|, k requires 0 <= k < |positions| => s[positions[k]])
  }

  function Pick<T>(s: seq<T>, keep: seq<bool>): seq<T>
    requires |s| == |keep|
  {
    At(s, Kept(keep, |keep|))
  }

  lemma PickStep<T>(s: seq<T>, keep: seq<bool>, n: nat)
    requires |s| == |keep| && n < |s|
    ensures At(s, Kept(keep, n + 1)) == At(s, Kept(keep, n)) + (if keep[n] then [s[n]] else [])
  {
  }

  /** `positions` picks `a` out of `b` from left to right. */
  ghost predicate Embeds<T>(positions: seq<nat>, a: seq<T>, b: seq<T>) {
    && |positions| == |a|
    && (forall k :: 0 <= k < |positions| ==> positions[k] < |b|)
    && (forall k, l :: 0 <= k < l < |positions| ==> positions[k] < positions[l])
    && (forall k :: 0 <= k < |positions| ==> a[k] == b[positions[k]])
  }

  ghost predicate Subsequence<T>(a: seq<T>, b: seq<T>) {
    exists positions: seq<nat> :: Embeds(positions, a, b)
  }

  lemma {:induction false} PickIsSubsequence<T>(s: seq<T>, keep: seq<bool>)
    requires |s| == |keep|
    ensures Embeds(Kept(keep, |keep|), Pick(s, keep), s)
    ensures Subsequence(Pick(s, keep), s)
  {
    var positions := Kept(keep, |keep|);
    assert Embeds(positions, Pick(s, keep), s);
  }

  lemma PickAll<T>(s: seq<T>, keep: seq<bool>)
    requires |s| == |keep| && forall i :: 0 <= i < |keep| ==> keep[i]
    ensures Pick(s, keep) == s
  {
    KeptAll(keep, |keep|);
  }

  lemma {:induction false} KeptAll(keep: seq<bool>, n: nat)
    requires n <= |keep| && forall i :: 0 <= i < n ==> keep[i]
    ensures |Kept(keep, n)| == n && forall k :: 0 <= k < n ==> Kept(keep, n)[k] == k
  {
    if n > 0 {
      KeptAll(keep, n - 1);
    }
  }

  lemma SubsequenceReflexive<T>(a: seq<T>)
    ensures Subsequence(a, a)
  {
    assert Embeds(seq(|a|, k => k), a, a);
  }

  lemma SubsequenceTransitive<T>(a: seq<T>, b: seq<T>, c: seq<T>)
    requires Subsequence(a, b) && Subsequence(b, c)
    ensures Subsequence(a, c)
  {
    var f: seq<nat> :| Embeds(f, a, b);
    var g: seq<nat> :| Embeds(g, b, c);
    var h: seq<nat> := seq(|a|, k requires 0 <= k < |a| => g[f[k]]);
    assert Embeds(h, a, c);
  }

  lemma SubsequenceConcat<T>(a: seq<T>, b: seq<T>, c: seq<T>)
    requires Subsequence(a, b)
    ensures Subsequence(a + c, b + c)
  {
    var f: seq<nat> :| Embeds(f, a, b);
    var g: seq<nat> := f + seq(|c|, k requires 0 <= k => |b| + k);
    assert Embeds(g, a + c, b + c);
  }

  /* ---- the same, item by item ---- */

  function Taken<T>(s: seq<T>, keep: seq<bool>, n: nat): seq<T>
    requires n <= |s| == |keep|
  {
    if n == 0 then []
    else if keep[n - 1] then Taken(s, keep, n - 1) + [s[n - 1]]
    else Taken(s, keep, n - 1)
  }

  lemma {:induction false} TakenIsPicked<T>(s: seq<T>, keep: seq<bool>, n: nat)
    requires n <= |s| == |keep|
    ensures Taken(s, keep, n) == At(s, Kept(keep, n))
  {
    if n > 0 {
      TakenIsPicked(s, keep, n - 1);
      PickStep(s, keep, n - 1);
    }
  }

  lemma PickTwo<T>(a: T, b: T, keep: seq<bool>)
    requires |keep| == 2 && keep[0] != keep[1]
    ensures Pick([a, b], keep) == [if keep[0] then a else b]
  {
    TakenIsPicked([a, b], keep, 2);
    assert Taken([a, b], keep, 1) == if keep[0] then [a] else [];
  }

  lemma PickThree<T>(a: T, b: T, c: T, keep: seq<bool>)
    requires |keep| == 3 && keep[0] != keep[1] && keep[2]
    ensures Pick([a, b, c], keep) == [if keep[0] then a else b, c]
  {
    TakenIsPicked([a, b, c], keep, 3);
    assert Taken([a, b, c], keep, 1) == if keep[0] then [a] else [];
    assert Taken([a, b, c], keep, 2) == [if keep[0] then a else b];
  }
}
