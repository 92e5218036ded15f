/** List operations the pages build from JavaScript array methods:
    `filter`, the include-or-append toggle, and the insertion-ordered
    de-duplication that `Array.from(new Set(...))` performs. */
module Lists {

  /** `a` can be obtained from `b` by deleting elements, so the elements of
      `a` appear in `b` in the same order. */
  predicate IsSubsequence<T(==,!new)>(a: seq<T>, b: seq<T>)
    decreases |b|
  {
    if a == [] then true
    else if b == [] then false
    else if a[0] == b[0] then IsSubsequence(a[1..], b[1..])
    else IsSubsequence(a, b[1..])
  }

  /** Every element occurs at most once. */
  predicate NoDup<T(==,!new)>(s: seq<T>)
  {
    s == [] || (s[0] !in s[1..] && NoDup(s[1..]))
  }

  /** `s.filter(p)`: keeps, in order, exactly the elements satisfying `p`,
      each as many times as it occurs in `s`. */
  function Filter<T(==,!new)>(s: seq<T>, p: T -> bool): (r: seq<T>)
    ensures IsSubsequence(r, s)
    ensures forall x :: x in r <==> x in s && p(x)
    ensures forall x {:trigger multiset(r)[x]} :: multiset(r)[x] == if p(x) then multiset(s)[x] else 0
  {
    if s == [] then []
    else
      var rest := Filter(s[1..], p);
      assert s == [s[0]] + s[1..];
      if p(s[0]) then [s[0]] + rest else rest
  }

  /** The shared shape of `handleDataCenterToggle` and `toggleTag`: an
      element already present is removed wherever it occurs; an absent one
      is appended. */
  function Toggle<T(==,!new)>(s: seq<T>, x: T): (r: seq<T>)
    ensures x in r <==> x !in s
    ensures forall y :: y != x ==> (y in r <==> y in s)
    ensures x !in s ==> r == s + [x]
    ensures x in s ==> IsSubsequence(r, s)
    ensures x in s ==> forall y {:trigger multiset(r)[y]} :: y != x ==> multiset(r)[y] == multiset(s)[y]
  {
    if x in s then Filter(s, y => y != x) else s + [x]
  }

  /** 0-based position of the first occurrence of `x` in `s`. */
  function FirstIndex<T(==,!new)>(s: seq<T>, x: T): (k: nat)
    requires x in s
    ensures k < |s| && s[k] == x && x !in s[..k]
  {
    if s[0] == x then 0
    else
      var k := FirstIndex(s[1..], x);
      assert s[1..][..k] == s[1..k+1];
      1 + k
  }

  /** De-duplication through a set: each element once, in order of first
      occurrence (a JavaScript Set iterates in insertion order). */
  function Dedup<T(==,!new)>(s: seq<T>): (r: seq<T>)
    ensures forall x :: x in r <==> x in s
    ensures NoDup(r)
    ensures forall i, j :: 0 <= i < j < |r| ==> FirstIndex(s, r[i]) < FirstIndex(s, r[j])
  {
    if s == [] then []
    else
      var init := s[..|s| - 1];
      var last := s[|s| - 1];
      var d := Dedup(init);
      FirstIndexOfPrefix(s, |s| - 1);
      assert s == init + [last];
      if last in d then d
      else
        NoDupAppend(d, last);
        FirstIndexOfNew(s);
        d + [last]
  }

  lemma FirstIndexOfPrefix<T(!new)>(s: seq<T>, n: nat)
    requires n <= |s|
    ensures forall x :: x in s[..n] ==> FirstIndex(s, x) == FirstIndex(s[..n], x)
  {
    forall x | x in s[..n]
      ensures FirstIndex(s, x) == FirstIndex(s[..n], x)
    {
    }
  }

  lemma FirstIndexOfNew<T(!new)>(s: seq<T>)
    requires |s| > 0 && s[|s| - 1] !in s[..|s| - 1]
    ensures FirstIndex(s, s[|s| - 1]) == |s| - 1
  {
  }

  lemma {:induction false} NoDupAppend<T(!new)>(s: seq<T>, x: T)
    requires NoDup(s) && x !in s
    ensures NoDup(s + [x])
  {
    if s != [] {
      assert (s + [x])[1..] == s[1..] + [x];
      NoDupAppend(s[1..], x);
    }
  }

  lemma {:induction false} NoDupFilter<T(!new)>(s: seq<T>, p: T -> bool)
    requires NoDup(s)
    ensures NoDup(Filter(s, p))
  {
    if s != [] {
      NoDupFilter(s[1..], p);
    }
  }

  /** On a duplicate-free list every element is counted at most once. */
  lemma {:induction false} NoDupCount<T(!new)>(s: seq<T>, x: T)
    requires NoDup(s)
    ensures multiset(s)[x] <= 1
  {
    if s != [] {
      assert s == [s[0]] + s[1..];
      NoDupCount(s[1..], x);
    }
  }

  /** Filtering with a predicate that holds of every element changes nothing. */
  lemma {:induction false} FilterKeepsAll<T(!new)>(s: seq<T>, p: T -> bool)
    requires forall x :: x in s ==> p(x)
    ensures Filter(s, p) == s
  {
    if s != [] {
      FilterKeepsAll(s[1..], p);
      assert s == [s[0]] + s[1..];
    }
  }

  /** Filtering depends only on the predicate's values on the list. */
  lemma {:induction false} FilterCongruent<T(!new)>(s: seq<T>, p: T -> bool, q: T -> bool)
    requires forall x :: x in s ==> p(x) == q(x)
    ensures Filter(s, p) == Filter(s, q)
  {
    if s != [] {
      FilterCongruent(s[1..], p, q);
    }
  }

  /** Toggling keeps a list duplicate-free. */
  lemma ToggleKeepsNoDup<T(!new)>(s: seq<T>, x: T)
    requires NoDup(s)
    ensures NoDup(Toggle(s, x))
  {
    if x in s {
      NoDupFilter(s, y => y != x);
    } else {
      NoDupAppend(s, x);
    }
  }

  /** Toggling keeps a list inside any set of allowed values that also holds
      the toggled value. */
  lemma ToggleStaysWithin<T(!new)>(s: seq<T>, x: T, allowed: seq<T>)
    requires forall y :: y in s ==> y in allowed
    requires x in allowed
    ensures forall y :: y in Toggle(s, x) ==> y in allowed
  {
  }

  /** Toggling the same value twice: an absent value leaves the list exactly
      as it was; a present one comes back at the end, so the list returns to
      the same elements, and on a duplicate-free list to a permutation of
      itself. */
  lemma ToggleTwice<T(!new)>(s: seq<T>, x: T)
    ensures x !in s ==> Toggle(Toggle(s, x), x) == s
    ensures x in s ==> Toggle(Toggle(s, x), x) == Filter(s, y => y != x) + [x]
    ensures forall y :: y in Toggle(Toggle(s, x), x) <==> y in s
    ensures NoDup(s) ==> multiset(Toggle(Toggle(s, x), x)) == multiset(s)
  {
    var t := Toggle(Toggle(s, x), x);
    if x !in s {
      FilterAppendRejected(s, x, y => y != x);
    } else if NoDup(s) {
      NoDupCount(s, x);
      assert forall y :: multiset(t)[y] == multiset(s)[y];
    }
  }

  /** Filtering a list with one rejected element appended. */
  lemma {:induction false} FilterAppendRejected<T(!new)>(s: seq<T>, x: T, p: T -> bool)
    requires !p(x)
    requires forall y :: y in s ==> p(y)
    ensures Filter(s + [x], p) == s
  {
    if s == [] {
      assert Filter([x], p) == Filter([x][1..], p);
    } else {
      assert (s + [x])[1..] == s[1..] + [x];
      FilterAppendRejected(s[1..], x, p);
      assert s == [s[0]] + s[1..];
    }
  }
}
