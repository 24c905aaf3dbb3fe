/**
 * A parsed JSON document, as `json.loads` returns it in Python, together with
 * the two Python operations the code applies to such values: truthiness
 * (`if p:`) and `str(p)`.
 *
 * An object is kept as its list of members in document order; `Get` returns
 * the value of the last member with the key, as a Python `dict` built from
 * the document does.
 */
module Json {
  import opened Wrappers
  import Text

  datatype Json =
    | JNull
    | JBool(b: bool)
    | JInt(i: int)
    | JFloat(value: real, text: string)    // `text` is Python's `str()` of the float
    | JStr(s: string)
    | JArr(items: seq<Json>)
    | JObj(members: seq<(string, Json)>)
  {
    /** `isinstance(v, dict)` */
    predicate IsDict() { JObj? }

    /** `isinstance(v, list)` */
    predicate IsList() { JArr? }

    /** `isinstance(v, str)` */
    predicate IsStr() { JStr? }
  }

  /** `key in d` for a JSON object. */
  predicate HasKey(members: seq<(string, Json)>, key: string) {
    exists i :: 0 <= i < |members| && members[i].0 == key
  }

  /** `d.get(key)`: the value of the last member named `key`. */
  function Get(members: seq<(string, Json)>, key: string): (r: Option<Json>)
    ensures r.Some? <==> HasKey(members, key)
    ensures r.Some? ==> exists i :: 0 <= i < |members| && members[i] == (key, r.value)
  {
    if |members| == 0 then None
    else if members[|members| - 1].0 == key then Some(members[|members| - 1].1)
    else
      var r := Get(members[..|members| - 1], key);
      assert forall i :: 0 <= i < |members| - 1 ==> members[..|members| - 1][i] == members[i];
      r
  }

  /** `d.get(key, default)` */
  function GetOr(members: seq<(string, Json)>, key: string, default: Json): Json {
    Get(members, key).GetOr(default)
  }

  /**
   * `d[key] = v`: every member named `key` takes the new value in place
   * (keeping its position); with no such member, one is appended.
   */
  function Set(members: seq<(string, Json)>, key: string, v: Json): (r: seq<(string, Json)>)
    ensures Get(r, key) == Some(v)
    ensures forall k :: k != key ==> Get(r, k) == Get(members, k)
  {
    if HasKey(members, key) then
      var r := seq(|members|, i requires 0 <= i < |members| =>
        if members[i].0 == key then (key, v) else members[i]);
      SetInPlace(members, key, v, r);
      r
    else
      var r := members + [(key, v)];
      GetAppend(members, key, v);
      r
  }

  lemma GetAppend(members: seq<(string, Json)>, key: string, v: Json)
    ensures Get(members + [(key, v)], key) == Some(v)
    ensures forall k :: k != key ==> Get(members + [(key, v)], k) == Get(members, k)
  {
    assert (members + [(key, v)])[..|members|] == members;
  }

  lemma {:induction false} SetInPlace(members: seq<(string, Json)>, key: string, v: Json, r: seq<(string, Json)>)
    requires HasKey(members, key)
    requires |r| == |members|
    requires forall i :: 0 <= i < |members| ==> r[i] == if members[i].0 == key then (key, v) else members[i]
    ensures Get(r, key) == Some(v)
    ensures forall k :: k != key ==> Get(r, k) == Get(members, k)
    decreases |members|
  {
    var n := |members|;
    if members[n - 1].0 != key {
      var p, q := members[..n - 1], r[..n - 1];
      assert HasKey(p, key) by {
        var i :| 0 <= i < n && members[i].0 == key;
        assert i < n - 1 && p[i].0 == key;
      }
      assert forall i :: 0 <= i < |p| ==> q[i] == if p[i].0 == key then (key, v) else p[i];
      SetInPlace(p, key, v, q);
      SetBehindLast(members, key, v, r, p, q);
    } else {
      SetAtLast(members, key, v, r);
    }
  }

  /** The last member is not `key`: what holds of the fronts holds of the lists. */
  lemma SetBehindLast(members: seq<(string, Json)>, key: string, v: Json, r: seq<(string, Json)>,
                      p: seq<(string, Json)>, q: seq<(string, Json)>)
    requires |r| == |members| > 0 && members[|members| - 1].0 != key && r[|r| - 1] == members[|members| - 1]
    requires p == members[..|members| - 1] && q == r[..|r| - 1]
    requires Get(q, key) == Some(v)
    requires forall k :: k != key ==> Get(q, k) == Get(p, k)
    ensures Get(r, key) == Some(v)
    ensures forall k :: k != key ==> Get(r, k) == Get(members, k)
  {
    GetLast(r, key);
    forall k | k != key
      ensures Get(r, k) == Get(members, k)
    {
      GetLast(r, k);
      GetLast(members, k);
    }
  }

  /** The last member is `key`: it holds the new value, and the other keys are untouched. */
  lemma SetAtLast(members: seq<(string, Json)>, key: string, v: Json, r: seq<(string, Json)>)
    requires |r| == |members| > 0 && members[|members| - 1].0 == key
    requires forall i :: 0 <= i < |members| ==> r[i] == if members[i].0 == key then (key, v) else members[i]
    ensures Get(r, key) == Some(v)
    ensures forall k :: k != key ==> Get(r, k) == Get(members, k)
  {
    forall k | k != key
      ensures Get(r, k) == Get(members, k)
    {
      GetSameKeys(members, r, k);
    }
  }

  /** `Get` looks at the last member first. */
  lemma GetLast(a: seq<(string, Json)>, k: string)
    requires |a| > 0
    ensures Get(a, k) == if a[|a| - 1].0 == k then Some(a[|a| - 1].1) else Get(a[..|a| - 1], k)
  {
  }

  /** Two member lists that agree on every member named `k` give the same `Get(_, k)`. */
  lemma {:induction false} GetSameKeys(a: seq<(string, Json)>, b: seq<(string, Json)>, k: string)
    requires |a| == |b|
    requires forall i :: 0 <= i < |a| ==> (a[i].0 == k <==> b[i].0 == k)
    requires forall i :: 0 <= i < |a| && a[i].0 == k ==> a[i] == b[i]
    ensures Get(a, k) == Get(b, k)
    decreases |a|
  {
    if |a| > 0 {
      GetSameKeys(a[..|a| - 1], b[..|b| - 1], k);
    }
  }

  /** Python truthiness of a parsed JSON value. */
  predicate Truthy(v: Json) {
    match v
    case JNull => false
    case JBool(b) => b
    case JInt(i) => i != 0
    case JFloat(x, _) => x != 0.0
    case JStr(s) => s != ""
    case JArr(items) => items != []
    case JObj(members) => members != []
  }

  /**
   * `str(v)`. Strings are themselves; scalars print as Python prints them;
   * lists and dicts print in Python's repr style.
   */
  function Str(v: Json): string {
    match v
    case JStr(s) => s
    case _ => Repr(v)
  }

  /** `repr(v)`, with strings quoted in single quotes (no escaping). */
  function Repr(v: Json): string
    decreases v, 1
  {
    match v
    case JNull => "None"
    case JBool(b) => if b then "True" else "False"
    case JInt(i) => Text.IntToString(i)
    case JFloat(_, t) => t
    case JStr(s) => "'" + s + "'"
    case JArr(items) => "[" + ReprItems(v, items) + "]"
    case JObj(members) => "{" + ReprMembers(v, members) + "}"
  }

  function ReprItems(parent: Json, items: seq<Json>): string
    requires forall i :: 0 <= i < |items| ==> items[i] < parent
    decreases parent, 0, |items|
  {
    if |items| == 0 then ""
    else if |items| == 1 then Repr(items[0])
    else ReprItems(parent, items[..|items| - 1]) + ", " + Repr(items[|items| - 1])
  }

  function ReprMembers(parent: Json, members: seq<(string, Json)>): string
    requires forall i :: 0 <= i < |members| ==> members[i].1 < parent
    decreases parent, 0, |members|
  {
    if |members| == 0 then ""
    else
      var m := members[|members| - 1];
      var last := "'" + m.0 + "': " + Repr(m.1);
      if |members| == 1 then last
      else ReprMembers(parent, members[..|members| - 1]) + ", " + last
  }
}
