/** Small generic building blocks shared by the model: an optional value (the
    source's `undefined`/`null`), the list filter used by every table update,
    and the facts about filtering that the table operations rely on. */
module Seqs {

  datatype Option<+T> = None | Some(value: T) {
    function GetOr(default: T): T {
      match this
      case Some(v) => v
      case None => default
    }
  }

  /** `xs.filter(p)`: the elements of `s` that satisfy `p`, in their order. */
  function Filter<T>(s: seq<T>, p: T -> bool): (r: seq<T>)
    ensures |r| <= |s|
  {
    if s == [] then []
    else (if p(s[0]) then [s[0]] else []) + Filter(s[1..], p)
  }

  /** `r` can be obtained from `s` by deleting elements (relative order kept). */
  ghost predicate IsSubsequence<T>(r: seq<T>, s: seq<T>)
    decreases |s|
  {
    if r == [] then true
    else if s == [] then false
    else (r[0] == s[0] && IsSubsequence(r[1..], s[1..])) || IsSubsequence(r, s[1..])
  }

  /** No two elements of `s` share a key. */
  ghost predicate DistinctBy<T, K>(s: seq<T>, key: T -> K)
  {
    forall i, j :: 0 <= i < j < |s| ==> key(s[i]) != key(s[j])
  }

  /** `s.slice(0, n)`. */
  function Take<T>(s: seq<T>, n: nat): (r: seq<T>)
    ensures |r| <= n && |r| <= |s| && r == s[..|r|]
    ensures |s| <= n ==> r == s
  {
    if |s| <= n then s else s[..n]
  }

  /** `s.map(f)`. */
  function Map<T, U>(s: seq<T>, f: T -> U): (r: seq<U>)
    ensures |r| == |s|
  {
    if s == [] then [] else [f(s[0])] + Map(s[1..], f)
  }

  /** The i-th mapped element is `f` of the i-th element. */
  lemma {:induction false} MapAt<T, U>(s: seq<T>, f: T -> U)
    ensures forall i :: 0 <= i < |s| ==> Map(s, f)[i] == f(s[i])
  {
    if s != [] {
      MapAt(s[1..], f);
      forall i | 1 <= i < |s| ensures Map(s, f)[i] == f(s[i]) {
        assert Map(s, f)[i] == Map(s[1..], f)[i - 1];
        assert s[1..][i - 1] == s[i];
      }
    }
  }

  lemma {:induction false} FilterMembership<T>(s: seq<T>, p: T -> bool, x: T)
    ensures x in Filter(s, p) <==> x in s && p(x)
  {
    if s != [] {
      FilterMembership(s[1..], p, x);
      assert s == [s[0]] + s[1..];
    }
  }

  /** Filtering keeps every copy of an element that satisfies `p` and no copy
      of one that does not. */
  lemma {:induction false} FilterMultiplicity<T>(s: seq<T>, p: T -> bool, x: T)
    ensures multiset(Filter(s, p))[x] == if p(x) then multiset(s)[x] else 0
  {
    if s != [] {
      FilterMultiplicity(s[1..], p, x);
      assert s == [s[0]] + s[1..];
      assert multiset(s) == multiset([s[0]]) + multiset(s[1..]);
      assert Filter(s, p) == (if p(s[0]) then [s[0]] else []) + Filter(s[1..], p);
    }
  }

  lemma {:induction false} FilterAllSatisfy<T>(s: seq<T>, p: T -> bool)
    ensures forall i :: 0 <= i < |Filter(s, p)| ==> p(Filter(s, p)[i])
  {
    var r := Filter(s, p);
    forall i | 0 <= i < |r| ensures p(r[i]) {
      FilterMembership(s, p, r[i]);
    }
  }

  lemma {:induction false} FilterIsSubsequence<T>(s: seq<T>, p: T -> bool)
    ensures IsSubsequence(Filter(s, p), s)
  {
    if s != [] {
      FilterIsSubsequence(s[1..], p);
      var rest := Filter(s[1..], p);
      if p(s[0]) {
        assert Filter(s, p) == [s[0]] + rest;
        assert (Filter(s, p))[1..] == rest;
      } else {
        assert Filter(s, p) == rest;
        if rest != [] {
          assert IsSubsequence(rest, s[1..]);
        }
      }
    }
  }

  /** Filtering with a test that every element passes is the identity. */
  lemma {:induction false} FilterKeepsAll<T>(s: seq<T>, p: T -> bool)
    requires forall i :: 0 <= i < |s| ==> p(s[i])
    ensures Filter(s, p) == s
  {
    if s != [] {
      FilterKeepsAll(s[1..], p);
      assert s == [s[0]] + s[1..];
    }
  }

  lemma {:induction false} SubsequenceMembership<T>(r: seq<T>, s: seq<T>, x: T)
    requires IsSubsequence(r, s)
    ensures x in r ==> x in s
    decreases |s|
  {
    if r != [] && s != [] {
      if r[0] == s[0] && IsSubsequence(r[1..], s[1..]) {
        SubsequenceMembership(r[1..], s[1..], x);
        assert r == [r[0]] + r[1..];
        assert s == [s[0]] + s[1..];
      } else {
        SubsequenceMembership(r, s[1..], x);
        assert s == [s[0]] + s[1..];
      }
    }
  }

  lemma {:induction false} SubsequenceKeepsDistinct<T, K>(r: seq<T>, s: seq<T>, key: T -> K)
    requires IsSubsequence(r, s) && DistinctBy(s, key)
    ensures DistinctBy(r, key)
    decreases |s|
  {
    if r != [] && s != [] {
      assert DistinctBy(s[1..], key) by {
        forall i, j | 0 <= i < j < |s[1..]| ensures key(s[1..][i]) != key(s[1..][j]) {
          assert s[1..][i] == s[i + 1] && s[1..][j] == s[j + 1];
        }
      }
      if r[0] == s[0] && IsSubsequence(r[1..], s[1..]) {
        SubsequenceKeepsDistinct(r[1..], s[1..], key);
        forall j | 0 < j < |r| ensures key(r[0]) != key(r[j]) {
          assert r[j] == r[1..][j - 1];
          SubsequenceMembership(r[1..], s[1..], r[j]);
          var k :| 0 <= k < |s[1..]| && s[1..][k] == r[j];
          assert s[k + 1] == r[j];
        }
      } else {
        SubsequenceKeepsDistinct(r, s[1..], key);
      }
    }
  }
}
