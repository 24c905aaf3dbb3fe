/**
 * Python's `sorted(xs, key=...)` and `list.sort(key=...)` for the keys the
 * code uses: pairs of integers compared lexicographically (a one-component
 * key is a pair whose second component is 0). The sort is stable — items
 * with equal keys keep their input order — which is what Python guarantees.
 */
module Sorting {

  datatype Key = Key(a: int, b: int)

  /** Tuple comparison `(a1, b1) <= (a2, b2)`. */
  predicate KeyLe(x: Key, y: Key) {
    x.a < y.a || (x.a == y.a && x.b <= y.b)
  }

  predicate KeyLt(x: Key, y: Key) {
    KeyLe(x, y) && x != y
  }

  predicate SortedBy<T>(s: seq<T>, key: T -> Key) {
    forall i, j :: 0 <= i < j < |s| ==> KeyLe(key(s[i]), key(s[j]))
  }

  /** Puts `x` in front of the first item whose key is not smaller than its own. */
  function Insert<T>(x: T, s: seq<T>, key: T -> Key): (r: seq<T>)
    ensures |r| == |s| + 1
  {
    if s == [] then [x]
    else if KeyLe(key(x), key(s[0])) then [x] + s
    else [s[0]] + Insert(x, s[1..], key)
  }

  lemma {:induction false} InsertPermutes<T>(x: T, s: seq<T>, key: T -> Key)
    ensures multiset(Insert(x, s, key)) == multiset(s) + multiset{x}
    decreases |s|
  {
    if s != [] && !KeyLe(key(x), key(s[0])) {
      InsertPermutes(x, s[1..], key);
      assert s == [s[0]] + s[1..];
    }
  }

  lemma {:induction false} InsertSorted<T>(x: T, s: seq<T>, key: T -> Key)
    requires SortedBy(s, key)
    ensures SortedBy(Insert(x, s, key), key)
    decreases |s|
  {
    if s != [] && !KeyLe(key(x), key(s[0])) {
      var t := Insert(x, s[1..], key);
      InsertSorted(x, s[1..], key);
      InsertPermutes(x, s[1..], key);
      assert t[0] in multiset(s[1..]) + multiset{x};
    }
  }

  /** The stable sort: each item goes in front of the later items whose keys are not smaller. */
  function SortBy<T>(s: seq<T>, key: T -> Key): (r: seq<T>)
    ensures |r| == |s|
  {
    if s == [] then [] else Insert(s[0], SortBy(s[1..], key), key)
  }

  /** `sorted` returns a permutation of its input ... */
  lemma {:induction false} SortPermutes<T>(s: seq<T>, key: T -> Key)
    ensures multiset(SortBy(s, key)) == multiset(s)
    decreases |s|
  {
    if s != [] {
      SortPermutes(s[1..], key);
      InsertPermutes(s[0], SortBy(s[1..], key), key);
      assert s == [s[0]] + s[1..];
    }
  }

  /** ... in non-decreasing key order. */
  lemma {:induction false} SortSorted<T>(s: seq<T>, key: T -> Key)
    ensures SortedBy(SortBy(s, key), key)
    decreases |s|
  {
    if s != [] {
      SortSorted(s[1..], key);
      InsertSorted(s[0], SortBy(s[1..], key), key);
    }
  }

  /** The position of the first item with the smallest key. */
  function FirstMinIndex<T>(s: seq<T>, key: T -> Key): (m: nat)
    requires |s| > 0
    ensures m < |s|
    ensures forall i :: 0 <= i < |s| ==> KeyLe(key(s[m]), key(s[i]))
    ensures forall i :: 0 <= i < m ==> !KeyLe(key(s[i]), key(s[m]))
  {
    if |s| == 1 then 0
    else
      var m := FirstMinIndex(s[1..], key);
      if KeyLe(key(s[0]), key(s[1 + m])) then 0 else m + 1
  }

  function RemoveAt<T>(s: seq<T>, m: nat): (r: seq<T>)
    requires m < |s|
    ensures |r| == |s| - 1
  {
    s[..m] + s[m + 1..]
  }

  lemma SortByCons<T>(s: seq<T>, key: T -> Key)
    requires |s| > 0
    ensures SortBy(s, key) == Insert(s[0], SortBy(s[1..], key), key)
  {
  }

  lemma InsertBehind<T>(x: T, y: T, u: seq<T>, key: T -> Key)
    requires !KeyLe(key(x), key(y))
    ensures Insert(x, [y] + u, key) == [y] + Insert(x, u, key)
  {
    assert ([y] + u)[1..] == u;
  }

  /**
   * Sorting takes the first item with the smallest key to the front and
   * sorts the others: this is what makes the sort stable.
   */
  lemma {:induction false} SortHead<T>(s: seq<T>, key: T -> Key)
    requires |s| > 0
    ensures SortBy(s, key) == [s[FirstMinIndex(s, key)]] + SortBy(RemoveAt(s, FirstMinIndex(s, key)), key)
    decreases |s|
  {
    var m := FirstMinIndex(s, key);
    SortByCons(s, key);
    if |s| == 1 {
      assert RemoveAt(s, m) == [];
    } else {
      SortHead(s[1..], key);
      SortHeadStep(s, key);
    }
  }

  /** The inductive step of `SortHead`, from the tail to the whole sequence. */
  lemma SortHeadStep<T>(s: seq<T>, key: T -> Key)
    requires |s| > 1
    requires var m' := FirstMinIndex(s[1..], key);
      SortBy(s[1..], key) == [s[1..][m']] + SortBy(RemoveAt(s[1..], m'), key)
    ensures SortBy(s, key) == [s[FirstMinIndex(s, key)]] + SortBy(RemoveAt(s, FirstMinIndex(s, key)), key)
  {
    var m' := FirstMinIndex(s[1..], key);
    if KeyLe(key(s[0]), key(s[1..][m'])) {
      SortHeadStepFront(s, key, m');
    } else {
      SortHeadStepBehind(s, key, m');
    }
  }

  lemma SortHeadStepFront<T>(s: seq<T>, key: T -> Key, m': nat)
    requires |s| > 1 && m' == FirstMinIndex(s[1..], key)
    requires SortBy(s[1..], key) == [s[1..][m']] + SortBy(RemoveAt(s[1..], m'), key)
    requires KeyLe(key(s[0]), key(s[1..][m']))
    ensures FirstMinIndex(s, key) == 0
    ensures SortBy(s, key) == [s[0]] + SortBy(RemoveAt(s, 0), key)
  {
    SortByCons(s, key);
    SortHeadFront(s[0], s[1..][m'], SortBy(RemoveAt(s[1..], m'), key), key);
    assert RemoveAt(s, 0) == s[1..];
  }

  lemma SortHeadStepBehind<T>(s: seq<T>, key: T -> Key, m': nat)
    requires |s| > 1 && m' == FirstMinIndex(s[1..], key)
    requires SortBy(s[1..], key) == [s[1..][m']] + SortBy(RemoveAt(s[1..], m'), key)
    requires !KeyLe(key(s[0]), key(s[1..][m']))
    ensures FirstMinIndex(s, key) == m' + 1
    ensures SortBy(s, key) == [s[m' + 1]] + SortBy(RemoveAt(s, m' + 1), key)
  {
    SortByCons(s, key);
    var v := RemoveAt(s[1..], m');
    SortHeadBehind(s[0], s[1..][m'], v, key);
    RemoveAtCons(s, m');
  }

  lemma RemoveAtCons<T>(s: seq<T>, k: nat)
    requires k + 1 < |s|
    ensures [s[0]] + RemoveAt(s[1..], k) == RemoveAt(s, k + 1)
  {
    assert s[..k + 1] == [s[0]] + s[1..][..k];
    assert s[k + 2..] == s[1..][k + 1..];
  }

  lemma SortHeadFront<T>(x: T, y: T, u: seq<T>, key: T -> Key)
    requires KeyLe(key(x), key(y))
    ensures Insert(x, [y] + u, key) == [x] + ([y] + u)
  {
  }

  lemma SortHeadBehind<T>(x: T, y: T, v: seq<T>, key: T -> Key)
    requires !KeyLe(key(x), key(y))
    ensures Insert(x, [y] + SortBy(v, key), key) == [y] + SortBy([x] + v, key)
  {
    InsertBehind(x, y, SortBy(v, key), key);
    assert ([x] + v)[1..] == v;
    SortByCons([x] + v, key);
  }

  /** The head of a non-empty sort is the first item with the smallest key. */
  lemma SortFirst<T>(s: seq<T>, key: T -> Key)
    requires |s| > 0
    ensures SortBy(s, key)[0] == s[FirstMinIndex(s, key)]
  {
    SortHead(s, key);
  }

  /**
   * The second item of a sort has the same key as the first exactly when
   * some other position of the input carries the smallest key too.
   */
  lemma SortSecondTies<T>(s: seq<T>, key: T -> Key)
    requires |s| > 1
    ensures var r := SortBy(s, key);
      key(r[1]) == key(r[0]) <==>
        exists j :: 0 <= j < |s| && j != FirstMinIndex(s, key) && key(s[j]) == key(s[FirstMinIndex(s, key)])
  {
    var m := FirstMinIndex(s, key);
    var r := SortBy(s, key);
    SortFirst(s, key);
    var j2 := SecondOfSort(s, key);
    if key(r[1]) == key(r[0]) {
      assert j2 != m && key(s[j2]) == key(s[m]);
    }
    if exists j :: 0 <= j < |s| && j != m && key(s[j]) == key(s[m]) {
      var j :| 0 <= j < |s| && j != m && key(s[j]) == key(s[m]);
      assert KeyLe(key(s[j2]), key(s[j]));
    }
  }

  /** The second item of a sort is an item at another position than the first, with a key no larger than any other there. */
  lemma SecondOfSort<T>(s: seq<T>, key: T -> Key) returns (j2: nat)
    requires |s| > 1
    ensures j2 < |s| && j2 != FirstMinIndex(s, key) && SortBy(s, key)[1] == s[j2]
    ensures forall j :: 0 <= j < |s| && j != FirstMinIndex(s, key) ==> KeyLe(key(s[j2]), key(s[j]))
  {
    var m := FirstMinIndex(s, key);
    SortHead(s, key);
    var rest := RemoveAt(s, m);
    SortFirst(rest, key);
    var m2 := FirstMinIndex(rest, key);
    j2 := if m2 < m then m2 else m2 + 1;
    assert rest[m2] == s[j2];
    forall j | 0 <= j < |s| && j != m
      ensures KeyLe(key(s[j2]), key(s[j]))
    {
      var jr := if j < m then j else j - 1;
      assert rest[jr] == s[j];
    }
  }
}
