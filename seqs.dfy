/** Order-preserving filtering and truncation of sequences, the two list
    operations the app's views are built from. */
module Seqs {
  import opened Types

  /** `a` can be obtained from `b` by deleting elements (order kept). */
  predicate IsSubsequence<T(==)>(a: seq<T>, b: seq<T>)
    decreases |b|
  {
    if a == [] then true
    else if b == [] then false
    else (a[0] == b[0] && IsSubsequence(a[1..], b[1..])) || IsSubsequence(a, b[1..])
  }

  /** The elements of `s` that `keep` accepts, in their original order. */
  function Filter<T>(s: seq<T>, keep: T -> bool): seq<T>
  {
    if s == [] then []
    else if keep(s[0]) then [s[0]] + Filter(s[1..], keep)
    else Filter(s[1..], keep)
  }

  /** The filtered sequence holds exactly the accepted elements, in their
      original order. */
  lemma {:induction false} FilterSpec<T>(s: seq<T>, keep: T -> bool)
    ensures forall i :: 0 <= i < |Filter(s, keep)| ==> Filter(s, keep)[i] in s && keep(Filter(s, keep)[i])
    ensures forall i :: 0 <= i < |s| && keep(s[i]) ==> s[i] in Filter(s, keep)
    ensures IsSubsequence(Filter(s, keep), s)
    ensures |Filter(s, keep)| <= |s|
  {
    if s != [] {
      FilterSpec(s[1..], keep);
      var r := Filter(s, keep);
      var t := Filter(s[1..], keep);
      forall i | 0 <= i < |s| && keep(s[i]) ensures s[i] in r {
        if i > 0 { assert s[i] == s[1..][i - 1]; }
      }
      if keep(s[0]) {
        assert r[1..] == t;
        forall i | 0 <= i < |r| ensures r[i] in s && keep(r[i]) {
          if i > 0 { assert r[i] == t[i - 1]; }
        }
      }
    }
  }

  /** The first `n` elements of `s`, or all of them when there are fewer. */
  function Take<T>(s: seq<T>, n: nat): (r: seq<T>)
    ensures |r| == if |s| < n then |s| else n
    ensures forall i :: 0 <= i < |r| ==> r[i] == s[i]
  {
    if |s| <= n then s else s[..n]
  }

  /** The index of the first element that `f` accepts, as `findIndex` gives it. */
  function FirstIndex<T>(s: seq<T>, f: T -> bool): (r: Option<nat>)
    ensures r.None? <==> forall i :: 0 <= i < |s| ==> !f(s[i])
    ensures r.Some? ==> r.value < |s| && f(s[r.value]) && forall j :: 0 <= j < r.value ==> !f(s[j])
  {
    if s == [] then None
    else if f(s[0]) then Some(0)
    else match FirstIndex(s[1..], f)
      case None => None
      case Some(i) => Some(i + 1)
  }

  /** Filtering keeps every accepted value as many times as it occurs, and
      no rejected value. */
  lemma {:induction false} FilterMultiset<T>(s: seq<T>, keep: T -> bool)
    ensures forall x :: multiset(Filter(s, keep))[x] == if keep(x) then multiset(s)[x] else 0
  {
    if s != [] {
      FilterMultiset(s[1..], keep);
      assert s == [s[0]] + s[1..];
      assert multiset(s) == multiset{s[0]} + multiset(s[1..]);
      if keep(s[0]) {
        assert multiset(Filter(s, keep)) == multiset{s[0]} + multiset(Filter(s[1..], keep));
      }
    }
  }

  /** The first `n` accepted elements are exactly the accepted elements of
      some prefix of `s`: filtering never skips an element to reach a later one. */
  lemma {:induction false} FilterPrefix<T>(s: seq<T>, keep: T -> bool, n: nat)
    requires n <= |Filter(s, keep)|
    ensures exists k :: 0 <= k <= |s| && Filter(s, keep)[..n] == Filter(s[..k], keep)
  {
    if n == 0 {
      assert s[..0] == [];
      assert Filter(s, keep)[..0] == Filter(s[..0], keep);
    } else {
      var t := s[1..];
      var m := if keep(s[0]) then n - 1 else n;
      FilterPrefix(t, keep, m);
      var k :| 0 <= k <= |t| && Filter(t, keep)[..m] == Filter(t[..k], keep);
      var u := s[..k + 1];
      assert u[0] == s[0] && u[1..] == t[..k];
      if keep(s[0]) {
        assert Filter(s, keep)[..n] == [s[0]] + Filter(t, keep)[..m];
      }
      assert Filter(s, keep)[..n] == Filter(u, keep);
    }
  }

  lemma {:induction false} FilterKeepsAll<T>(s: seq<T>, keep: T -> bool)
    requires forall i :: 0 <= i < |s| ==> keep(s[i])
    ensures Filter(s, keep) == s
  {
    if s != [] {
      FilterKeepsAll(s[1..], keep);
    }
  }

  lemma {:induction false} FilterAppend<T>(a: seq<T>, b: seq<T>, keep: T -> bool)
    ensures Filter(a + b, keep) == Filter(a, keep) + Filter(b, keep)
  {
    if a == [] {
      assert a + b == b;
    } else {
      assert (a + b)[1..] == a[1..] + b;
      FilterAppend(a[1..], b, keep);
    }
  }

  /** Overwriting a rejected element with another rejected element does not
      change the filtered sequence. */
  lemma {:induction false} FilterUpdateRejected<T>(s: seq<T>, i: nat, x: T, keep: T -> bool)
    requires i < |s| && !keep(s[i]) && !keep(x)
    ensures Filter(s[i := x], keep) == Filter(s, keep)
  {
    if i > 0 {
      assert s[i := x][1..] == s[1..][i - 1 := x];
      FilterUpdateRejected(s[1..], i - 1, x, keep);
    } else {
      assert s[i := x][1..] == s[1..];
    }
  }

  /** Filtering drops exactly the one element `keep` rejects. */
  lemma {:induction false} FilterRejectsOne<T>(s: seq<T>, i: nat, keep: T -> bool)
    requires i < |s| && !keep(s[i])
    requires forall j :: 0 <= j < |s| && j != i ==> keep(s[j])
    ensures Filter(s, keep) == s[..i] + s[i + 1..]
  {
    if i == 0 {
      FilterKeepsAll(s[1..], keep);
    } else {
      FilterRejectsOne(s[1..], i - 1, keep);
      assert s[1..][..i - 1] == s[1..i];
      assert s[1..][i..] == s[i + 1..];
      assert s[..i] == [s[0]] + s[1..i];
    }
  }

  lemma {:induction false} SubsequencePrefix<T>(a: seq<T>, b: seq<T>, k: nat)
    requires IsSubsequence(a, b) && k <= |a|
    ensures IsSubsequence(a[..k], b)
    decreases |b|
  {
    if k == 0 {
    } else if a[0] == b[0] && IsSubsequence(a[1..], b[1..]) {
      SubsequencePrefix(a[1..], b[1..], k - 1);
      assert a[..k][1..] == a[1..][..k - 1];
    } else {
      SubsequencePrefix(a, b[1..], k);
    }
  }
}
