/**
 * Python list comprehensions with a condition (`[x for x in xs if p(x)]`)
 * and counting the items that satisfy a condition.
 */
module Seqs {

  /** `[x for x in s if f(x)]` */
  function Filter<T>(s: seq<T>, f: T -> bool): (r: seq<T>)
    ensures |r| <= |s|
  {
    if s == [] then []
    else if f(s[|s| - 1]) then Filter(s[..|s| - 1], f) + [s[|s| - 1]]
    else Filter(s[..|s| - 1], f)
  }

  /** The number of items of `s` satisfying `f`. */
  function Count<T>(s: seq<T>, f: T -> bool): nat {
    if s == [] then 0 else Count(s[..|s| - 1], f) + (if f(s[|s| - 1]) then 1 else 0)
  }

  /** An item is kept exactly when it is in the input and satisfies the condition. */
  lemma {:induction false} FilterMembers<T>(s: seq<T>, f: T -> bool)
    ensures forall x :: x in Filter(s, f) <==> x in s && f(x)
  {
    if s != [] {
      var n := |s|;
      FilterMembers(s[..n - 1], f);
      assert s == s[..n - 1] + [s[n - 1]];
    }
  }

  /** Filtering keeps the input order: it distributes over concatenation. */
  lemma {:induction false} FilterAppend<T>(a: seq<T>, b: seq<T>, f: T -> bool)
    ensures Filter(a + b, f) == Filter(a, f) + Filter(b, f)
    decreases |b|
  {
    if b != [] {
      var n := |b|;
      assert (a + b)[..|a + b| - 1] == a + b[..n - 1];
      FilterAppend(a, b[..n - 1], f);
    } else {
      assert a + b == a;
    }
  }

  /** The items kept and the items dropped together are the input, rearranged. */
  lemma {:induction false} FilterPartition<T>(s: seq<T>, f: T -> bool, g: T -> bool)
    requires forall x :: g(x) == !f(x)
    ensures multiset(Filter(s, f)) + multiset(Filter(s, g)) == multiset(s)
    ensures |Filter(s, f)| + |Filter(s, g)| == |s|
  {
    if s != [] {
      var p, x := s[..|s| - 1], s[|s| - 1];
      FilterPartition(p, f, g);
      assert s == p + [x];
      assert multiset(s) == multiset(p) + multiset{x};
      if f(x) {
        assert Filter(s, f) == Filter(p, f) + [x] && Filter(s, g) == Filter(p, g);
        assert multiset(Filter(s, f)) == multiset(Filter(p, f)) + multiset{x};
      } else {
        assert Filter(s, g) == Filter(p, g) + [x] && Filter(s, f) == Filter(p, f);
        assert multiset(Filter(s, g)) == multiset(Filter(p, g)) + multiset{x};
      }
    }
  }

  /** The length of a filter is the count of its condition. */
  lemma {:induction false} FilterCount<T>(s: seq<T>, f: T -> bool)
    ensures |Filter(s, f)| == Count(s, f)
  {
    if s != [] {
      FilterCount(s[..|s| - 1], f);
    }
  }

  /** Counting distributes over concatenation. */
  lemma {:induction false} CountAppend<T>(a: seq<T>, b: seq<T>, f: T -> bool)
    ensures Count(a + b, f) == Count(a, f) + Count(b, f)
    decreases |b|
  {
    if b != [] {
      var n := |b|;
      assert (a + b)[..|a + b| - 1] == a + b[..n - 1];
      CountAppend(a, b[..n - 1], f);
    } else {
      assert a + b == a;
    }
  }

  /** One more item adds one to the count exactly when it satisfies the condition. */
  lemma CountSnoc<T>(s: seq<T>, x: T, f: T -> bool)
    ensures Count(s + [x], f) == Count(s, f) + (if f(x) then 1 else 0)
  {
    assert (s + [x])[..|s|] == s;
  }
}
