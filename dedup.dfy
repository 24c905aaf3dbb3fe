/**
 * Order-preserving deduplication of strings by a key, as the `seen`-set loops of the
 * metrics calculator and the citation extractor do it: an item is kept
 * unless an earlier kept item has the same key.
 */
module Dedup {
  import opened Text

  /** The items in order, each dropped when an earlier kept one has the same key. */
  function DedupBy(s: seq<string>, key: string -> string): (r: seq<string>)
    ensures |r| <= |s|
  {
    if s == [] then []
    else
      var d := DedupBy(s[..|s| - 1], key);
      var x := s[|s| - 1];
      if key(x) in KeysOf(d, key) then d else d + [x]
  }

  /** The keys of a list of items. */
  function KeysOf(s: seq<string>, key: string -> string): set<string> {
    if s == [] then {} else KeysOf(s[..|s| - 1], key) + {key(s[|s| - 1])}
  }

  lemma {:induction false} KeysOfMembers(s: seq<string>, key: string -> string, x: string)
    ensures x in KeysOf(s, key) <==> exists i :: 0 <= i < |s| && key(s[i]) == x
  {
    if s != [] {
      var n := |s|;
      KeysOfMembers(s[..n - 1], key, x);
      if x in KeysOf(s[..n - 1], key) {
        var i :| 0 <= i < n - 1 && key(s[..n - 1][i]) == x;
        assert s[i] == s[..n - 1][i];
      }
      if exists i :: 0 <= i < n && key(s[i]) == x {
        var i :| 0 <= i < n && key(s[i]) == x;
        if i < n - 1 {
          assert s[..n - 1][i] == s[i];
        }
      }
    }
  }

  /** One more item: kept exactly when its key is new. */
  lemma DedupSnoc(s: seq<string>, key: string -> string, k: nat)
    requires k < |s|
    ensures var d := DedupBy(s[..k], key);
      DedupBy(s[..k + 1], key) == if key(s[k]) in KeysOf(d, key) then d else d + [s[k]]
  {
    assert s[..k + 1][..k] == s[..k];
  }

  /** Deduplicating a prefix gives a prefix of the deduplicated whole. */
  lemma {:induction false} DedupPrefix(s: seq<string>, key: string -> string, k: nat)
    requires k <= |s|
    ensures var d := DedupBy(s[..k], key);
      |d| <= |DedupBy(s, key)| && DedupBy(s, key)[..|d|] == d
    decreases |s| - k
  {
    if k < |s| {
      DedupPrefix(s, key, k + 1);
      assert s[..k + 1][..k] == s[..k];
      var n := |s[..k + 1]|;
      assert s[..k + 1][..n - 1] == s[..k];
    } else {
      assert s[..k] == s;
    }
  }

  /**
   * `idx` lists increasing positions of `s` holding the items of `d`, and no
   * position before one of them has the same key: each item of `d` is the
   * first item with its key, and they come in input order.
   */
  predicate IsFirstOccurrences(s: seq<string>, d: seq<string>, idx: seq<nat>, key: string -> string) {
    && |idx| == |d|
    && (forall i :: 0 <= i < |d| ==> idx[i] < |s| && d[i] == s[idx[i]])
    && (forall i, k :: 0 <= i < |d| && 0 <= k < idx[i] ==> key(s[k]) != key(d[i]))
    && (forall i, j :: 0 <= i < j < |d| ==> idx[i] < idx[j])
  }

  /**
   * The deduplicated items are the first occurrences of their keys, in
   * input order, and every key of the input is kept.
   */
  lemma {:induction false} DedupFacts(s: seq<string>, key: string -> string) returns (idx: seq<nat>)
    ensures IsFirstOccurrences(s, DedupBy(s, key), idx, key)
    ensures KeysOf(DedupBy(s, key), key) == KeysOf(s, key)
  {
    if s == [] {
      idx := [];
    } else {
      var p := s[..|s| - 1];
      var idx0 := DedupFacts(p, key);
      idx := DedupFactsStep(s, key, idx0);
    }
  }

  /** The step of `DedupFacts` from the items before the last one to all of them. */
  lemma DedupFactsStep(s: seq<string>, key: string -> string, idx0: seq<nat>) returns (idx: seq<nat>)
    requires s != []
    requires IsFirstOccurrences(s[..|s| - 1], DedupBy(s[..|s| - 1], key), idx0, key)
    requires KeysOf(DedupBy(s[..|s| - 1], key), key) == KeysOf(s[..|s| - 1], key)
    ensures IsFirstOccurrences(s, DedupBy(s, key), idx, key)
    ensures KeysOf(DedupBy(s, key), key) == KeysOf(s, key)
  {
    var n := |s|;
    var d0 := DedupBy(s[..n - 1], key);
    var x := s[n - 1];
    assert KeysOf(s, key) == KeysOf(s[..n - 1], key) + {key(x)};
    FirstOccurrencesExtend(s, d0, idx0, key);
    if key(x) in KeysOf(d0, key) {
      assert DedupBy(s, key) == d0;
      idx := idx0;
    } else {
      assert DedupBy(s, key) == d0 + [x];
      KeysOfSnoc(d0, x, key);
      idx := idx0 + [n - 1];
      NewKeyUnseen(s, key);
      FirstOccurrencesAppend(s, d0, idx0, key);
    }
  }

  lemma FirstOccurrencesExtend(s: seq<string>, d: seq<string>, idx: seq<nat>, key: string -> string)
    requires s != [] && IsFirstOccurrences(s[..|s| - 1], d, idx, key)
    ensures IsFirstOccurrences(s, d, idx, key)
  {
    var p := s[..|s| - 1];
    assert forall k :: 0 <= k < |p| ==> p[k] == s[k];
  }

  lemma FirstOccurrencesAppend(s: seq<string>, d: seq<string>, idx: seq<nat>, key: string -> string)
    requires s != [] && IsFirstOccurrences(s, d, idx, key)
    requires forall i :: 0 <= i < |idx| ==> idx[i] < |s| - 1
    requires forall k :: 0 <= k < |s| - 1 ==> key(s[k]) != key(s[|s| - 1])
    ensures IsFirstOccurrences(s, d + [s[|s| - 1]], idx + [|s| - 1], key)
  {
  }

  /** An item whose key the earlier deduplicated items lack has a key no earlier item has. */
  lemma NewKeyUnseen(s: seq<string>, key: string -> string)
    requires s != []
    requires KeysOf(DedupBy(s[..|s| - 1], key), key) == KeysOf(s[..|s| - 1], key)
    requires key(s[|s| - 1]) !in KeysOf(s[..|s| - 1], key)
    ensures forall k :: 0 <= k < |s| - 1 ==> key(s[k]) != key(s[|s| - 1])
  {
    var n := |s|;
    forall k | 0 <= k < n - 1 ensures key(s[k]) != key(s[n - 1]) {
      KeysOfMembers(s[..n - 1], key, key(s[n - 1]));
      assert s[..n - 1][k] == s[k];
    }
  }

  /** No two deduplicated items share a key. */
  lemma DedupDistinct(s: seq<string>, key: string -> string)
    ensures var d := DedupBy(s, key);
      forall i, j :: 0 <= i < j < |d| ==> key(d[i]) != key(d[j])
  {
    var d := DedupBy(s, key);
    var idx := DedupFacts(s, key);
    forall i, j | 0 <= i < j < |d| ensures key(d[i]) != key(d[j]) {
      assert idx[i] < idx[j];
    }
  }

  /**
   * The first `n` deduplicated items keep all the facts of the whole: first
   * occurrences in input order, pairwise different keys.
   */
  lemma DedupTakeFacts(s: seq<string>, key: string -> string, n: nat) returns (idx: seq<nat>)
    ensures var top := PyTake(DedupBy(s, key), n);
      && |top| <= n
      && IsFirstOccurrences(s, top, idx, key)
      && (forall i, j :: 0 <= i < j < |top| ==> key(top[i]) != key(top[j]))
  {
    var all := DedupFacts(s, key);
    DedupDistinct(s, key);
    var top := PyTake(DedupBy(s, key), n);
    idx := all[..|top|];
  }

  /** One more item adds its key. */
  lemma KeysOfSnoc(s: seq<string>, x: string, key: string -> string)
    ensures KeysOf(s + [x], key) == KeysOf(s, key) + {key(x)}
  {
    assert (s + [x])[..|s|] == s;
  }

  /** The `seen`-set loop: each item is kept when its key has not been seen yet. */
  method DedupLoop(s: seq<string>, key: string -> string) returns (unique: seq<string>)
    ensures unique == DedupBy(s, key)
  {
    var seen: set<string> := {};
    unique := [];
    for k := 0 to |s|
      invariant unique == DedupBy(s[..k], key)
      invariant seen == KeysOf(unique, key)
    {
      var itemKey := key(s[k]);
      DedupSnoc(s, key, k);
      if itemKey !in seen {
        KeysOfSnoc(unique, s[k], key);
        seen := seen + {itemKey};
        unique := unique + [s[k]];
      }
    }
    assert s[..|s|] == s;
  }

  /**
   * The `seen`-set loop that stops as soon as `limit` items are kept: the
   * first `limit` items of the whole deduplication.
   */
  method DedupUpTo(s: seq<string>, key: string -> string, limit: nat) returns (top: seq<string>)
    requires limit > 0
    ensures top == PyTake(DedupBy(s, key), limit)
  {
    var seen: set<string> := {};
    top := [];
    for k := 0 to |s|
      invariant top == DedupBy(s[..k], key)
      invariant seen == KeysOf(top, key)
      invariant |top| < limit
    {
      var itemKey := key(s[k]);
      DedupSnoc(s, key, k);
      if itemKey !in seen {
        KeysOfSnoc(top, s[k], key);
        seen := seen + {itemKey};
        top := top + [s[k]];
        if |top| >= limit {
          StopAt(s, key, k + 1, limit);
          return;  // the `break` is followed directly by the `return`
        }
      }
    }
    assert s[..|s|] == s;
    AllKept(DedupBy(s, key), limit);
  }

  /** Once the items up to `k` give `limit` kept items, those are the first `limit` of the whole. */
  lemma StopAt(s: seq<string>, key: string -> string, k: nat, limit: nat)
    requires k <= |s| && |DedupBy(s[..k], key)| == limit
    ensures PyTake(DedupBy(s, key), limit) == DedupBy(s[..k], key)
  {
    DedupPrefix(s, key, k);
  }

  lemma AllKept(d: seq<string>, limit: nat)
    requires |d| < limit
    ensures PyTake(d, limit) == d
  {
  }
}
