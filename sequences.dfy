/**
 * `Array.prototype.filter` and the order-preservation facts the pages' list updates rely on.
 */
module Sequences {

  /** `s.filter(keep)`. */
  function Filter<T(!new)>(keep: T -> bool, s: seq<T>): (r: seq<T>)
    ensures |r| <= |s|
    ensures forall k :: 0 <= k < |r| ==> keep(r[k]) && r[k] in s
    ensures forall k :: 0 <= k < |s| && keep(s[k]) ==> s[k] in r
  {
    if s == [] then []
    else if keep(s[0]) then [s[0]] + Filter(keep, s[1..])
    else Filter(keep, s[1..])
  }

  /** `filter` keeps every passing element as many times as it occurs, and no other element. */
  lemma {:induction false} FilterCounts<T(!new)>(keep: T -> bool, s: seq<T>)
    ensures forall x :: multiset(Filter(keep, s))[x] == if keep(x) then multiset(s)[x] else 0
  {
    if s != [] {
      FilterCounts(keep, s[1..]);
      assert s == [s[0]] + s[1..];
    }
  }

  /** Filtering a list whose every element is kept changes nothing. */
  lemma {:induction false} FilterKeepsAll<T(!new)>(keep: T -> bool, s: seq<T>)
    requires forall k :: 0 <= k < |s| ==> keep(s[k])
    ensures Filter(keep, s) == s
  {
    if s != [] {
      FilterKeepsAll(keep, s[1..]);
    }
  }

  /** An element that fails the test is not kept. */
  lemma FilterSkipsHead<T(!new)>(keep: T -> bool, s: seq<T>)
    requires s != [] && !keep(s[0])
    ensures Filter(keep, s) == Filter(keep, s[1..])
  {
  }

  /** `a` is `b` with some elements left out and the rest in their order. */
  ghost predicate Subsequence<T>(a: seq<T>, b: seq<T>)
    decreases |b|
  {
    if a == [] then true
    else if b == [] then false
    else if a[0] == b[0] then Subsequence(a[1..], b[1..])
    else Subsequence(a, b[1..])
  }

  lemma {:induction false} SubsequenceOfTail<T>(a: seq<T>, b: seq<T>)
    requires b != [] && Subsequence(a, b[1..])
    ensures Subsequence(a, b)
    decreases |b|
  {
    if a != [] && a[0] == b[0] {
      SubsequenceDropHead(a, b[1..]);
      SubsequenceOfTail(a[1..], b[1..]);
    }
  }

  lemma {:induction false} SubsequenceDropHead<T>(a: seq<T>, b: seq<T>)
    requires a != [] && Subsequence(a, b)
    ensures b != [] && Subsequence(a[1..], b[1..])
    decreases |b|
  {
    if a[0] != b[0] {
      SubsequenceDropHead(a, b[1..]);
      SubsequenceOfTail(a[1..], b[1..]);
    }
  }

  lemma {:induction false} PrefixIsSubsequence<T>(a: seq<T>, n: nat)
    requires n <= |a|
    ensures Subsequence(a[..n], a)
  {
    if n > 0 {
      PrefixIsSubsequence(a[1..], n - 1);
      assert a[..n][1..] == a[1..][..n - 1];
    }
  }

  lemma {:induction false} SubsequenceTransitive<T>(a: seq<T>, b: seq<T>, c: seq<T>)
    requires Subsequence(a, b) && Subsequence(b, c)
    ensures Subsequence(a, c)
    decreases |c|
  {
    if a != [] {
      if b[0] == c[0] {
        if a[0] == b[0] {
          SubsequenceTransitive(a[1..], b[1..], c[1..]);
        } else {
          SubsequenceTransitive(a, b[1..], c[1..]);
          SubsequenceOfTail(a, c);
        }
      } else {
        SubsequenceTransitive(a, b, c[1..]);
        SubsequenceOfTail(a, c);
      }
    }
  }

  /** What `filter` keeps, it keeps in the original order. */
  lemma {:induction false} FilterIsSubsequence<T(!new)>(keep: T -> bool, s: seq<T>)
    ensures Subsequence(Filter(keep, s), s)
  {
    if s != [] {
      FilterIsSubsequence(keep, s[1..]);
      if !keep(s[0]) {
        SubsequenceOfTail(Filter(keep, s[1..]), s);
      }
    }
  }

  /** Orders are kept: two elements of a subsequence appear in the same order in the whole. */
  lemma {:induction false} SubsequenceKeepsOrder<T>(a: seq<T>, b: seq<T>, i: nat, j: nat)
    requires Subsequence(a, b) && i < j < |a|
    ensures exists i', j' :: 0 <= i' < j' < |b| && b[i'] == a[i] && b[j'] == a[j]
    decreases |b|
  {
    if a[0] == b[0] {
      if i == 0 {
        assert a[j] == a[1..][j - 1];
        SubsequenceHas(a[1..], b[1..], j - 1);
        var j'' :| 0 <= j'' < |b| - 1 && b[1..][j''] == a[j];
        assert b[j'' + 1] == a[j];
      } else {
        SubsequenceKeepsOrder(a[1..], b[1..], i - 1, j - 1);
        var i'', j'' :| 0 <= i'' < j'' < |b| - 1 && b[1..][i''] == a[1..][i - 1] && b[1..][j''] == a[1..][j - 1];
        assert b[i'' + 1] == a[i] && b[j'' + 1] == a[j];
      }
    } else {
      SubsequenceKeepsOrder(a, b[1..], i, j);
      var i'', j'' :| 0 <= i'' < j'' < |b| - 1 && b[1..][i''] == a[i] && b[1..][j''] == a[j];
      assert b[i'' + 1] == a[i] && b[j'' + 1] == a[j];
    }
  }

  lemma {:induction false} SubsequenceHas<T>(a: seq<T>, b: seq<T>, i: nat)
    requires Subsequence(a, b) && i < |a|
    ensures exists i' :: 0 <= i' < |b| && b[i'] == a[i]
    decreases |b|
  {
    if a[0] == b[0] {
      if i > 0 {
        SubsequenceHas(a[1..], b[1..], i - 1);
        var i'' :| 0 <= i'' < |b| - 1 && b[1..][i''] == a[1..][i - 1];
        assert b[i'' + 1] == a[i];
      }
    } else {
      SubsequenceHas(a, b[1..], i);
      var i'' :| 0 <= i'' < |b| - 1 && b[1..][i''] == a[i];
      assert b[i'' + 1] == a[i];
    }
  }
}
