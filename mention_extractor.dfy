/**
 * `MentionExtractor`: an LLM is asked which of the given brands an answer
 * mentions; its reply is cut down to the JSON object it contains, decoded,
 * and turned into brand mentions and citations.
 *
 * The LLM call and `json.loads` are parameters: `llm(request)` is the
 * reply text, or `None` when the call raises; `decode(text)` is the parsed
 * document, or `None` for a `JSONDecodeError`.
 */
module MentionExtraction {
  import opened Wrappers
  import opened Text
  import opened Json
  import opened Config
  import Records

  /** `ExtractionResult` */
  datatype ExtractionResult = ExtractionResult(mentions: seq<Records.BrandMention>, citations: seq<string>)

  const NoExtraction := ExtractionResult([], [])

  const ContextLimit := 200

  const ResponseLimit := 3000

  /** The parts of the extraction request that depend on the input: the brand list and the answer, cut to 3000 characters. */
  datatype ExtractionRequest = ExtractionRequest(provider: Platform, brandsList: string, text: string)

  function Request(provider: Platform, responseText: string, brands: seq<string>): (r: ExtractionRequest)
    ensures |r.text| <= ResponseLimit && |r.text| <= |responseText| && r.text == responseText[..|r.text|]
    ensures |responseText| <= ResponseLimit ==> r.text == responseText
  {
    ExtractionRequest(provider, Join(brands, ", "), PyTake(responseText, ResponseLimit))
  }

  /** Some '{' is followed, later on, by a '}'. */
  predicate HasBraces(s: string) {
    exists i, j :: 0 <= i < j < |s| && s[i] == '{' && s[j] == '}'
  }

  /**
   * `re.search(r'\{.*\}', content, re.DOTALL)`: the text from the first '{'
   * through the last '}', when there is such a pair; the content itself otherwise.
   */
  function JsonCandidate(content: string): (r: string)
    ensures !HasBraces(content) ==> r == content
    ensures HasBraces(content) ==>
      exists i :: (0 <= i && i + |r| <= |content| && r == content[i..i + |r|]
        && |r| >= 2 && r[0] == '{' && r[|r| - 1] == '}'
        && '{' !in content[..i] && '}' !in content[i + |r|..])
  {
    var i := Find(content, '{');
    var j := RFind(content, '}');
    if HasBraces(content) then
      BraceSpan(content, i, j);
      var r := content[i..j + 1];
      assert |r| == j + 1 - i && r == content[i..i + |r|] && content[i + |r|..] == content[j + 1..];
      assert r[0] == '{' && r[|r| - 1] == '}';
      r
    else content
  }

  /** With a brace pair, the first '{' comes before the last '}', with no '{' before it and no '}' after that. */
  lemma BraceSpan(content: string, i: int, j: int)
    requires HasBraces(content) && i == Find(content, '{') && j == RFind(content, '}')
    ensures 0 <= i < j < |content| && content[i] == '{' && content[j] == '}'
    ensures '{' !in content[..i] && '}' !in content[j + 1..]
  {
    var i0, j0 :| 0 <= i0 < j0 < |content| && content[i0] == '{' && content[j0] == '}';
    assert 0 <= i <= i0 && j >= j0;
    assert forall k :: 0 <= k < i ==> content[..i][k] == content[k];
    assert forall k :: j + 1 <= k < |content| ==> content[j + 1..][k - j - 1] == content[k];
  }

  /** `next((b for b in valid_brands if b.lower() == brand.lower()), None)` */
  function MatchBrand(validBrands: seq<string>, brand: string): (r: Option<string>)
    ensures r.None? <==> forall k :: 0 <= k < |validBrands| ==> !EqualsIgnoreCase(validBrands[k], brand)
    ensures r.Some? ==>
      exists k :: (0 <= k < |validBrands| && validBrands[k] == r.value
        && EqualsIgnoreCase(r.value, brand)
        && forall k' :: 0 <= k' < k ==> !EqualsIgnoreCase(validBrands[k'], brand))
  {
    if validBrands == [] then None
    else if EqualsIgnoreCase(validBrands[0], brand) then Some(validBrands[0])
    else
      var r := MatchBrand(validBrands[1..], brand);
      assert forall k :: 0 < k < |validBrands| ==> validBrands[k] == validBrands[1..][k - 1];
      r
  }

  /**
   * `item.get(key, default)` for a number field; Python's `bool` counts as 0
   * or 1. A value of any other type is read as the default here, where the
   * source keeps it as it is.
   */
  function IntField(members: seq<(string, Json)>, key: string, default: int): (r: int)
    ensures !HasKey(members, key) ==> r == default
  {
    match GetOr(members, key, JInt(default))
    case JInt(i) => i
    case JBool(b) => if b then 1 else 0
    case _ => default
  }

  /**
   * `item.get("context", "")[:200]`: slicing a string keeps its first 200
   * characters; most other values raise. A list slices without raising and
   * is read as the empty context here.
   */
  function ContextOf(members: seq<(string, Json)>): (r: Result<string>)
    ensures r.Success? ==> |r.value| <= ContextLimit
    ensures Get(members, "context").None? ==> r == Success("")
  {
    match GetOr(members, "context", JStr(""))
    case JStr(s) => Success(PyTake(s, ContextLimit))
    case JArr(_) => Success("")
    case _ => Failure("TypeError")
  }

  /**
   * One entry of the "mentions" list, with `accepted` mentions kept so far:
   * skipped (`None`) unless it is a dict naming one of the brands; raises
   * when its brand is not a string or its context cannot be sliced.
   */
  function Entry(item: Json, validBrands: seq<string>, accepted: nat): Result<Option<Records.BrandMention>> {
    if !item.JObj? || validBrands == [] then Success(None)
    else
      var brand := GetOr(item.members, "brand", JStr(""));
      if !brand.JStr? then Failure("AttributeError")
      else
        match MatchBrand(validBrands, brand.s)
        case None => Success(None)
        case Some(b) =>
          if b == "" then Success(None)
          else
            match ContextOf(item.members)
            case Failure(e) => Failure(e)
            case Success(context) =>
              Success(Some(Records.BrandMention(
                b,
                IntField(item.members, "count", 1),
                IntField(item.members, "rank", accepted + 1),
                context,
                Truthy(GetOr(item.members, "isRecommended", JBool(false))))))
  }

  /** The mentions loop of `_parse_response` over a list of entries. */
  function ParseMentions(items: seq<Json>, validBrands: seq<string>): Result<seq<Records.BrandMention>> {
    if items == [] then Success([])
    else
      match ParseMentions(items[..|items| - 1], validBrands)
      case Failure(e) => Failure(e)
      case Success(ms) =>
        match Entry(items[|items| - 1], validBrands, |ms|)
        case Failure(e) => Failure(e)
        case Success(None) => Success(ms)
        case Success(Some(m)) => Success(ms + [m])
  }

  /** `[str(url) for url in citations_data if url and isinstance(url, str)]` */
  function CitationsOf(items: seq<Json>): seq<string> {
    if items == [] then []
    else
      var rest := CitationsOf(items[..|items| - 1]);
      var last := items[|items| - 1];
      if last.JStr? && last.s != "" then rest + [last.s] else rest
  }

  /** `_parse_response`: `Failure` is an exception other than `JSONDecodeError`, which `extract` catches. */
  function ParseResponse(content: string, validBrands: seq<string>, decode: string -> Option<Json>): Result<ExtractionResult> {
    match decode(JsonCandidate(content))
    case None => Success(NoExtraction)
    case Some(data) =>
      if !data.JObj? then Failure("AttributeError")
      else
        var md := GetOr(data.members, "mentions", JArr([]));
        match ParseMentions(if md.JArr? then md.items else [], validBrands)
        case Failure(e) => Failure(e)
        case Success(ms) =>
          var cd := GetOr(data.members, "citations", JArr([]));
          Success(ExtractionResult(ms, if cd.JArr? then CitationsOf(cd.items) else []))
  }

  /**
   * `extract(response_text, brands)`: nothing for an empty answer or brand
   * list, and nothing when the call or the parsing raises. A provider other
   * than Gemini or ChatGPT reaches `Platform.CLAUDE`, which the platform
   * enum lacks, so it raises as well.
   */
  function Extract(responseText: string, brands: seq<string>, provider: Platform,
                   llm: ExtractionRequest -> Option<string>, decode: string -> Option<Json>): (r: ExtractionResult)
    ensures responseText == "" || brands == [] ==> r == NoExtraction
    ensures provider == Perplexity ==> r == NoExtraction
    ensures llm(Request(provider, responseText, brands)).None? ==> r == NoExtraction
    ensures responseText != "" && brands != [] && provider != Perplexity && llm(Request(provider, responseText, brands)).Some? ==>
      var p := ParseResponse(llm(Request(provider, responseText, brands)).value, brands, decode);
      r == if p.Success? then p.value else NoExtraction
  {
    if responseText == "" || brands == [] then NoExtraction
    else if provider == Perplexity then NoExtraction
    else
      match llm(Request(provider, responseText, brands))
      case None => NoExtraction
      case Some(content) =>
        match ParseResponse(content, brands, decode)
        case Failure(_) => NoExtraction
        case Success(x) => x
  }

  /** A failure part-way through the entries is the failure of the whole list. */
  lemma {:induction false} FailureSticks(items: seq<Json>, validBrands: seq<string>, k: nat)
    requires k <= |items| && ParseMentions(items[..k], validBrands).Failure?
    ensures ParseMentions(items, validBrands) == ParseMentions(items[..k], validBrands)
    decreases |items| - k
  {
    if k < |items| {
      assert items[..k + 1][..k] == items[..k];
      FailureSticks(items, validBrands, k + 1);
    } else {
      assert items[..k] == items;
    }
  }

  /** The mentions loop of `_parse_response`. */
  method ParseMentionsLoop(items: seq<Json>, validBrands: seq<string>) returns (r: Result<seq<Records.BrandMention>>)
    ensures r == ParseMentions(items, validBrands)
  {
    var mentions: seq<Records.BrandMention> := [];
    for i := 0 to |items|
      invariant ParseMentions(items[..i], validBrands) == Success(mentions)
    {
      assert items[..i + 1][..i] == items[..i];
      var e := Entry(items[i], validBrands, |mentions|);
      if e.Failure? {
        FailureSticks(items, validBrands, i + 1);
        return Failure(e.error);
      }
      if e.value.Some? {
        mentions := mentions + [e.value.value];
      }
    }
    assert items[..|items|] == items;
    r := Success(mentions);
  }

  /**
   * Every kept mention names a valid, non-empty brand and holds at most 200
   * characters of context, and there are no more mentions than entries.
   */
  lemma {:induction false} MentionsFacts(items: seq<Json>, validBrands: seq<string>)
    ensures var r := ParseMentions(items, validBrands);
      r.Success? ==>
        (|r.value| <= |items|
         && forall k :: 0 <= k < |r.value| ==>
              r.value[k].brand in validBrands && r.value[k].brand != "" && |r.value[k].context| <= ContextLimit)
  {
    if items != [] {
      MentionsFacts(items[..|items| - 1], validBrands);
      var p := ParseMentions(items[..|items| - 1], validBrands);
      if p.Success? {
        var item := items[|items| - 1];
        var e := Entry(item, validBrands, |p.value|);
        if e.Success? && e.value.Some? {
          var b := MatchBrand(validBrands, GetOr(item.members, "brand", JStr("")).s);
          assert e.value.value.brand == b.value;
        }
      }
    }
  }

  /** An entry that is not a dict, or names no valid brand, is dropped and leaves the others as they were. */
  lemma DropsEntry(items: seq<Json>, x: Json, validBrands: seq<string>)
    requires !x.JObj? || (GetOr(x.members, "brand", JStr("")).JStr?
                          && MatchBrand(validBrands, GetOr(x.members, "brand", JStr("")).s).None?)
    ensures ParseMentions(items + [x], validBrands) == ParseMentions(items, validBrands)
  {
    assert (items + [x])[..|items|] == items;
  }

  /**
   * A dict naming a valid brand with no count and no rank gets count 1 and
   * the rank 1 + the number of mentions accepted before it.
   */
  lemma DefaultsApply(items: seq<Json>, x: Json, validBrands: seq<string>, ms: seq<Records.BrandMention>)
    requires ParseMentions(items, validBrands) == Success(ms)
    requires x.JObj? && GetOr(x.members, "brand", JStr("")).JStr?
    requires var b := MatchBrand(validBrands, GetOr(x.members, "brand", JStr("")).s); b.Some? && b.value != ""
    requires !HasKey(x.members, "count") && !HasKey(x.members, "rank") && !HasKey(x.members, "context")
    ensures var r := ParseMentions(items + [x], validBrands);
      r.Success? && |r.value| == |ms| + 1 && r.value[..|ms|] == ms
      && r.value[|ms|].count == 1 && r.value[|ms|].rank == |ms| + 1 && r.value[|ms|].context == ""
  {
    assert (items + [x])[..|items|] == items;
    assert validBrands != [];
  }

  /** A citation is kept exactly when it is a non-empty string entry, in the order of the entries. */
  lemma {:induction false} CitationsFacts(items: seq<Json>)
    ensures |CitationsOf(items)| <= |items|
    ensures forall s :: s in CitationsOf(items) <==> s != "" && JStr(s) in items
  {
    if items != [] {
      var p := items[..|items| - 1];
      CitationsFacts(p);
      assert items == p + [items[|items| - 1]];
    }
  }

  /** An undecodable reply gives no mentions and no citations. */
  lemma DecodeFailureIsEmpty(content: string, validBrands: seq<string>, decode: string -> Option<Json>)
    requires decode(JsonCandidate(content)).None?
    ensures ParseResponse(content, validBrands, decode) == Success(NoExtraction)
  {
  }

  /** A "mentions" value that is not a list counts as no mentions. */
  lemma NonListMentionsAreNone(content: string, validBrands: seq<string>, decode: string -> Option<Json>)
    requires var d := decode(JsonCandidate(content)); d.Some? && d.value.JObj? && !GetOr(d.value.members, "mentions", JArr([])).JArr?
    ensures var r := ParseResponse(content, validBrands, decode); r.Success? && r.value.mentions == []
  {
  }
}
