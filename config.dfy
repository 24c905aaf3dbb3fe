/**
 * The actor's input: the supported platforms, the parsed input record and
 * `from_raw_input`, which reads it from the raw JSON input object.
 */
module Config {
  import opened Wrappers
  import opened Text
  import opened Json

  /** `Platform`: the three supported platforms. */
  datatype Platform = ChatGPT | Gemini | Perplexity {
    /** The enum's value. */
    function Value(): string {
      match this
      case ChatGPT => "chatgpt"
      case Gemini => "gemini"
      case Perplexity => "perplexity"
    }
  }

  /** `Platform(s)`: the platform whose value is `s`, or `None` where Python raises `ValueError`. */
  function PlatformOf(s: string): (r: Option<Platform>)
    ensures r.Some? ==> r.value.Value() == s
    ensures forall p: Platform :: p.Value() == s ==> r == Some(p)
  {
    if s == "chatgpt" then Some(ChatGPT)
    else if s == "gemini" then Some(Gemini)
    else if s == "perplexity" then Some(Perplexity)
    else None
  }

  /** `ActorInput` */
  datatype ActorInput = ActorInput(
    category: string,
    myBrand: string,
    competitors: seq<string>,
    platforms: seq<Platform>,
    prompts: seq<string>)
  {
    /** `all_brands`: the user's brand followed by the competitors. */
    function AllBrands(): (r: seq<string>)
      ensures |r| == 1 + |competitors| && r[0] == myBrand && r[1..] == competitors
    {
      [myBrand] + competitors
    }
  }

  /**
   * What a `for` loop over a JSON value walks through: a list's items, a
   * string's characters, a dict's keys; iterating anything else raises
   * `TypeError`.
   */
  function Iterate(v: Json): Result<seq<Json>> {
    match v
    case JArr(items) => Success(items)
    case JStr(s) => Success(seq(|s|, i requires 0 <= i < |s| => JStr([s[i]])))
    case JObj(members) => Success(seq(|members|, i requires 0 <= i < |members| => JStr(members[i].0)))
    case _ => Failure("TypeError")
  }

  /** `raw.get(key, default)` */
  function Field(raw: seq<(string, Json)>, key: string, default: Json): Json {
    GetOr(raw, key, default)
  }

  /** `v.strip()`: only strings have it; anything else raises `AttributeError`. */
  function StripValue(v: Json): Result<string> {
    if v.JStr? then Success(Strip(v.s)) else Failure("AttributeError")
  }

  /**
   * The platforms loop of `from_raw_input`: each item lower-cased and kept
   * when it names a platform; an item that is not a string raises.
   */
  function PlatformsOf(items: seq<Json>): (r: Result<seq<Platform>>)
    ensures r.Success? <==> forall i :: 0 <= i < |items| ==> items[i].JStr?
    ensures r.Success? ==> |r.value| <= |items|
  {
    if items == [] then Success([])
    else
      var rest := PlatformsOf(items[..|items| - 1]);
      var last := items[|items| - 1];
      if rest.Failure? then rest
      else if !last.JStr? then Failure("AttributeError")
      else match PlatformOf(Lower(last.s))
        case Some(p) => Success(rest.value + [p])
        case None => rest
  }

  /** `[c.strip() for c in items if c.strip()]`: the stripped items, empty ones dropped. */
  function StrippedNonEmpty(items: seq<Json>): (r: Result<seq<string>>)
    ensures r.Success? <==> forall i :: 0 <= i < |items| ==> items[i].JStr?
  {
    if items == [] then Success([])
    else
      var p := items[..|items| - 1];
      var rest := StrippedNonEmpty(p);
      var last := items[|items| - 1];
      StringsSnoc(items, p);
      if rest.Failure? then rest
      else if !last.JStr? then Failure("AttributeError")
      else
        var t := Strip(last.s);
        if t == [] then rest else Success(rest.value + [t])
  }

  /** Every item is a string exactly when those before the last one are and the last one is. */
  lemma StringsSnoc(items: seq<Json>, p: seq<Json>)
    requires items != [] && p == items[..|items| - 1]
    ensures (forall i :: 0 <= i < |items| ==> items[i].JStr?) <==>
      (forall i :: 0 <= i < |p| ==> p[i].JStr?) && items[|items| - 1].JStr?
  {
    assert forall i :: 0 <= i < |p| ==> p[i] == items[i];
  }

  /** Each string is non-empty and has no surrounding whitespace. */
  predicate AllStripped(xs: seq<string>) {
    forall i :: 0 <= i < |xs| ==> xs[i] != [] && Strip(xs[i]) == xs[i]
  }

  lemma AllStrippedAppend(xs: seq<string>, s: string)
    requires AllStripped(xs) && Strip(s) != []
    ensures AllStripped(xs + [Strip(s)])
  {
    var r := xs + [Strip(s)];
    forall i | 0 <= i < |r| ensures r[i] != [] && Strip(r[i]) == r[i] {
      if i < |xs| {
        assert r[i] == xs[i];
      } else {
        StripIdempotent(s);
      }
    }
  }

  /** The kept items are stripped and non-empty, and there are no more of them than items. */
  lemma {:induction false} StrippedNonEmptyFacts(items: seq<Json>)
    ensures var r := StrippedNonEmpty(items); r.Success? ==> |r.value| <= |items| && AllStripped(r.value)
  {
    if items != [] {
      var p := items[..|items| - 1];
      StrippedNonEmptyFacts(p);
      var rest := StrippedNonEmpty(p);
      var last := items[|items| - 1];
      if rest.Success? && last.JStr? && Strip(last.s) != [] {
        AllStrippedAppend(rest.value, last.s);
      }
    }
  }

  /** A list field read as stripped non-empty strings, of which the first `limit` are kept. */
  function StrippedList(raw: seq<(string, Json)>, key: string, limit: nat): (r: Result<seq<string>>)
    ensures r.Success? ==> |r.value| <= limit
  {
    match Iterate(Field(raw, key, JArr([])))
    case Failure(e) => Failure(e)
    case Success(items) =>
      match StrippedNonEmpty(items)
      case Failure(e) => Failure(e)
      case Success(xs) => Success(PyTake(xs, limit))
  }

  /** The parsed platforms of the raw input. */
  function RawPlatforms(raw: seq<(string, Json)>): Result<seq<Platform>> {
    match Iterate(Field(raw, "platforms", JArr([])))
    case Failure(e) => Failure(e)
    case Success(items) => PlatformsOf(items)
  }

  /**
   * `from_raw_input`: the fields read in the order the source reads them
   * (platforms, category, brand, competitors, prompts); the first one that
   * raises makes the whole call raise.
   */
  function FromRawInput(raw: seq<(string, Json)>): Result<ActorInput> {
    match RawPlatforms(raw)
    case Failure(e) => Failure(e)
    case Success(platforms) =>
      match StripValue(Field(raw, "category", JStr("")))
      case Failure(e) => Failure(e)
      case Success(category) =>
        match StripValue(Field(raw, "myBrand", JStr("")))
        case Failure(e) => Failure(e)
        case Success(myBrand) =>
          match StrippedList(raw, "competitors", 5)
          case Failure(e) => Failure(e)
          case Success(competitors) =>
            match StrippedList(raw, "prompts", 3)
            case Failure(e) => Failure(e)
            case Success(prompts) => Success(ActorInput(category, myBrand, competitors, platforms, prompts))
  }

  /** The platforms loop of `from_raw_input`, with its `try`/`append`. */
  method ParsePlatforms(items: seq<Json>) returns (r: Result<seq<Platform>>)
    ensures r == PlatformsOf(items)
  {
    var platforms: seq<Platform> := [];
    var i := 0;
    while i < |items|
      invariant 0 <= i <= |items|
      invariant PlatformsOf(items[..i]) == Success(platforms)
    {
      var p := items[i];
      assert items[..i + 1][..i] == items[..i];
      if !p.JStr? {
        assert PlatformsOf(items[..i + 1]) == Failure("AttributeError");
        FailureSticks(items, i + 1);
        return Failure("AttributeError");
      }
      var platform := PlatformOf(Lower(p.s));
      if platform.Some? {
        platforms := platforms + [platform.value];
      }
      i := i + 1;
    }
    assert items[..i] == items;
    r := Success(platforms);
  }

  /** Once a prefix of the items has raised, the whole loop raises the same. */
  lemma {:induction false} FailureSticks(items: seq<Json>, k: nat)
    requires k <= |items| && PlatformsOf(items[..k]).Failure?
    ensures PlatformsOf(items) == PlatformsOf(items[..k])
  {
    var n := |items|;
    if k < n {
      assert items[..n - 1][..k] == items[..k];
      FailureSticks(items[..n - 1], k);
    } else {
      assert items[..k] == items;
    }
  }

  /**
   * A parsed input keeps at most five competitors and three prompts, each
   * stripped and non-empty, and a stripped category and brand.
   */
  lemma FromRawInputShape(raw: seq<(string, Json)>)
    ensures var r := FromRawInput(raw);
      r.Success? ==>
        && |r.value.competitors| <= 5 && |r.value.prompts| <= 3
        && (forall i :: 0 <= i < |r.value.competitors| ==> r.value.competitors[i] != [] && Strip(r.value.competitors[i]) == r.value.competitors[i])
        && (forall i :: 0 <= i < |r.value.prompts| ==> r.value.prompts[i] != [] && Strip(r.value.prompts[i]) == r.value.prompts[i])
        && Strip(r.value.category) == r.value.category && Strip(r.value.myBrand) == r.value.myBrand
  {
    var r := FromRawInput(raw);
    if r.Success? {
      FromRawInputParts(raw);
      StrippedListShape(raw, "competitors", 5);
      StrippedListShape(raw, "prompts", 3);
      StripValueShape(Field(raw, "category", JStr("")));
      StripValueShape(Field(raw, "myBrand", JStr("")));
    }
  }

  /** A parsed input is made of its successfully read fields. */
  lemma FromRawInputParts(raw: seq<(string, Json)>)
    requires FromRawInput(raw).Success?
    ensures var r := FromRawInput(raw).value;
      && StripValue(Field(raw, "category", JStr(""))) == Success(r.category)
      && StripValue(Field(raw, "myBrand", JStr(""))) == Success(r.myBrand)
      && StrippedList(raw, "competitors", 5) == Success(r.competitors)
      && StrippedList(raw, "prompts", 3) == Success(r.prompts)
  {
    var p, c, b := RawPlatforms(raw), StripValue(Field(raw, "category", JStr(""))), StripValue(Field(raw, "myBrand", JStr("")));
    var cs, ps := StrippedList(raw, "competitors", 5), StrippedList(raw, "prompts", 3);
    assert p.Success? && c.Success? && b.Success? && cs.Success? && ps.Success?;
    assert FromRawInput(raw) == Success(ActorInput(c.value, b.value, cs.value, p.value, ps.value));
  }

  lemma StrippedListShape(raw: seq<(string, Json)>, key: string, limit: nat)
    ensures var r := StrippedList(raw, key, limit);
      r.Success? ==> forall i :: 0 <= i < |r.value| ==> r.value[i] != [] && Strip(r.value[i]) == r.value[i]
  {
    var c := Iterate(Field(raw, key, JArr([])));
    if c.Success? {
      StrippedNonEmptyFacts(c.value);
    }
  }

  lemma StripValueShape(v: Json)
    ensures StripValue(v).Success? ==> Strip(StripValue(v).value) == StripValue(v).value
  {
    if v.JStr? {
      StripIdempotent(v.s);
    }
  }

  /** An empty input object parses to empty fields. */
  lemma FromRawInputDefaults()
    ensures FromRawInput([]) == Success(ActorInput("", "", [], [], []))
  {
    assert Field([], "platforms", JArr([])) == JArr([]) && RawPlatforms([]) == Success([]);
    assert Strip("") == "";
    assert StripValue(Field([], "category", JStr(""))) == Success("");
    assert StripValue(Field([], "myBrand", JStr(""))) == Success("");
    assert Iterate(Field([], "competitors", JArr([]))) == Success([]);
    assert StrippedList([], "competitors", 5) == Success([]);
    assert StrippedList([], "prompts", 3) == Success([]);
  }

  /** Platform names are matched ignoring case, unknown ones skipped and repeats kept. */
  lemma PlatformsExample()
    ensures PlatformsOf([JStr("ChatGPT"), JStr("bing"), JStr("chatgpt"), JStr("Gemini")]) == Success([ChatGPT, ChatGPT, Gemini])
  {
    var items := [JStr("ChatGPT"), JStr("bing"), JStr("chatgpt"), JStr("Gemini")];
    assert PlatformOf(Lower("ChatGPT")) == Some(ChatGPT) && PlatformOf(Lower("chatgpt")) == Some(ChatGPT);
    assert PlatformOf(Lower("bing")) == None && PlatformOf(Lower("Gemini")) == Some(Gemini);
    assert items[..1][..0] == [];
    var r1 := PlatformsOf(items[..1]);
    assert r1.value == [ChatGPT];
    assert items[..2][..1] == items[..1];
    var r2 := PlatformsOf(items[..2]);
    assert r2.value == [ChatGPT];
    assert items[..3][..2] == items[..2];
    var r3 := PlatformsOf(items[..3]);
    assert r3.value == [ChatGPT, ChatGPT];
    assert items[..3] == items[..|items| - 1];
    var r4 := PlatformsOf(items);
    assert r4.value == [ChatGPT, ChatGPT, Gemini];
  }

  /** A platform list holding a number raises, whatever else it holds. */
  lemma PlatformsNonStringRaises(items: seq<Json>, i: nat)
    requires i < |items| && !items[i].JStr?
    ensures PlatformsOf(items).Failure?
  {
  }

  /** Every parsed platform was named, ignoring case, by some string item, in the source's order. */
  lemma {:induction false} PlatformsNamed(items: seq<Json>)
    ensures var r := PlatformsOf(items);
      r.Success? ==> forall k :: 0 <= k < |r.value| ==> exists i :: 0 <= i < |items| && items[i].JStr? && Lower(items[i].s) == r.value[k].Value()
  {
    if items != [] {
      var n := |items|;
      PlatformsNamed(items[..n - 1]);
      var r := PlatformsOf(items);
      var rest := PlatformsOf(items[..n - 1]);
      if r.Success? {
        forall k | 0 <= k < |r.value|
          ensures exists i :: 0 <= i < n && items[i].JStr? && Lower(items[i].s) == r.value[k].Value()
        {
          if k < |rest.value| {
            var i :| 0 <= i < n - 1 && items[..n - 1][i].JStr? && Lower(items[..n - 1][i].s) == rest.value[k].Value();
            assert items[i] == items[..n - 1][i];
          } else {
            assert Lower(items[n - 1].s) == r.value[k].Value();
          }
        }
      }
    }
  }
}
