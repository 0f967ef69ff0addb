/** Generic sequence operations with JavaScript array semantics: `filter` and `find`. */
module Seqs {
  import opened Wrappers

  /** `s.filter(f)`: the elements satisfying `f`, in their original order. */
  function Keep<T(!new)>(s: seq<T>, f: T -> bool): (kept: seq<T>)
    ensures forall x :: x in kept <==> x in s && f(x)
    ensures |kept| <= |s|
  {
    if s == [] then []
    else (if f(s[0]) then [s[0]] else []) + Keep(s[1..], f)
  }

  /** Index of the first element satisfying `f`, or `|s|` when there is none. */
  function FirstWhere<T>(s: seq<T>, f: T -> bool): (i: nat)
    ensures i <= |s|
    ensures forall j :: 0 <= j < i ==> !f(s[j])
    ensures i < |s| ==> f(s[i])
  {
    if s == [] then 0
    else if f(s[0]) then 0
    else 1 + FirstWhere(s[1..], f)
  }

  /** `s.find(f)`: the first element satisfying `f`, or `undefined`. */
  function Find<T(!new)>(s: seq<T>, f: T -> bool): (r: Option<T>)
    ensures r.Some? <==> exists x :: x in s && f(x)
    ensures r.Some? ==> r.value in s && f(r.value)
  {
    var i := FirstWhere(s, f);
    if i < |s| then Some(s[i]) else None
  }

  /** `find` returns the element at the first index that satisfies the predicate. */
  lemma FindAt<T(!new)>(s: seq<T>, f: T -> bool, i: nat)
    requires i < |s| && f(s[i])
    requires forall j :: 0 <= j < i ==> !f(s[j])
    ensures Find(s, f) == Some(s[i])
  {
    var k := FirstWhere(s, f);
    assert k <= i;
    assert k == i;
  }

  /** `a` can be obtained from `b` by deleting elements. */
  ghost predicate IsSubsequence<T>(a: seq<T>, b: seq<T>)
    decreases |b|
  {
    a == [] || (b != [] && ((a[0] == b[0] && IsSubsequence(a[1..], b[1..])) || IsSubsequence(a, b[1..])))
  }

  // ---------------------------------------------------------------------------------------------
  // Lemmas

  /** Filtering never reorders: the result is a subsequence of the input. */
  lemma {:induction false} KeepIsSubsequence<T(!new)>(s: seq<T>, f: T -> bool)
    ensures IsSubsequence(Keep(s, f), s)
  {
    if s != [] {
      KeepIsSubsequence(s[1..], f);
      if f(s[0]) {
        assert Keep(s, f) == [s[0]] + Keep(s[1..], f);
        assert Keep(s, f)[1..] == Keep(s[1..], f);
      } else {
        assert Keep(s, f) == Keep(s[1..], f);
      }
    }
  }

  /** Filtering distributes over concatenation, so the relative order of kept elements is the
      order in which they occur in the input. */
  lemma {:induction false} KeepAppend<T(!new)>(a: seq<T>, b: seq<T>, f: T -> bool)
    ensures Keep(a + b, f) == Keep(a, f) + Keep(b, f)
  {
    if a != [] {
      KeepAppend(a[1..], b, f);
      assert (a + b)[1..] == a[1..] + b;
    } else {
      assert a + b == b;
    }
  }

  /** Filtering a list none of whose elements passes gives the empty list. */
  lemma {:induction false} KeepNone<T(!new)>(s: seq<T>, f: T -> bool)
    requires forall x :: x in s ==> !f(x)
    ensures Keep(s, f) == []
  {
    if s != [] {
      assert s[0] in s;
      assert forall x :: x in s[1..] ==> x in s;
      KeepNone(s[1..], f);
    }
  }

  /** Filtering a list whose every element passes is the identity. */
  lemma {:induction false} KeepAll<T(!new)>(s: seq<T>, f: T -> bool)
    requires forall x :: x in s ==> f(x)
    ensures Keep(s, f) == s
  {
    if s != [] {
      assert s[0] in s;
      assert forall x :: x in s[1..] ==> x in s;
      KeepAll(s[1..], f);
      assert [s[0]] + s[1..] == s;
    }
  }

  /** Two successive filters are one filter by the conjunction `both`. */
  lemma {:induction false} KeepKeep<T(!new)>(s: seq<T>, f: T -> bool, g: T -> bool, both: T -> bool)
    requires forall x :: both(x) == (f(x) && g(x))
    ensures Keep(Keep(s, f), g) == Keep(s, both)
  {
    if s != [] {
      KeepKeep(s[1..], f, g, both);
      if f(s[0]) {
        assert Keep(s, f) == [s[0]] + Keep(s[1..], f);
        assert ([s[0]] + Keep(s[1..], f))[1..] == Keep(s[1..], f);
      } else {
        assert Keep(s, f) == Keep(s[1..], f);
      }
    }
  }

  /** Filtering keeps every occurrence of a kept value and none of a dropped one. */
  lemma {:induction false} KeepCount<T(!new)>(s: seq<T>, f: T -> bool, x: T)
    ensures multiset(Keep(s, f))[x] == if f(x) then multiset(s)[x] else 0
  {
    if s != [] {
      KeepCount(s[1..], f, x);
      assert s == [s[0]] + s[1..];
      assert multiset(s) == multiset([s[0]]) + multiset(s[1..]);
    }
  }
}
