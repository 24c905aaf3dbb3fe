/**
 * `BrandAnalyzer`: one analysis call over all responses. The reply's text
 * blocks are joined, code fences are cut off, the JSON is parsed, and the
 * summary's category is replaced by the input category.
 */
module BrandAnalysis {
  import opened Wrappers
  import opened Text
  import opened Json
  import opened ResponseGrouping

  /** The parts of `_build_analysis_prompt`'s prompt that depend on the input. */
  datatype AnalyzerRequest = AnalyzerRequest(
    myBrand: string,
    competitors: seq<string>,
    platformCount: nat,
    promptsPerPlatform: nat,
    responsesText: string)

  /** What `_build_analysis_prompt` embeds: nothing is cut, and entries are headed `Prompt #i`. */
  function Request(myBrand: string, competitors: seq<string>, rs: seq<Exchange>): AnalyzerRequest {
    var g := Grouped(rs);
    AnalyzerRequest(myBrand, competitors, |g|, PerPlatformOrZero(|rs|, |g|),
      SectionsText("Prompt", Sections(g, NoLimits)))
  }

  /** `_build_analysis_prompt` */
  method BuildAnalysisPrompt(myBrand: string, competitors: seq<string>, rs: seq<Exchange>)
    returns (request: AnalyzerRequest)
    ensures request == Request(myBrand, competitors, rs)
  {
    var platformData := GroupByPlatform(rs);
    var perPlatform := PerPlatformOrZero(|rs|, |platformData|);
    var text := RenderSections(platformData, NoLimits, "Prompt");
    request := AnalyzerRequest(myBrand, competitors, |platformData|, perPlatform, text);
  }

  /**
   * The prompt embeds every question and answer whole, one section per
   * platform in order of first appearance, entries numbered from 1 in each;
   * the per-platform count is 0 exactly when there are no responses or
   * fewer responses than platforms.
   */
  lemma RequestFacts(myBrand: string, competitors: seq<string>, rs: seq<Exchange>)
    ensures var req := Request(myBrand, competitors, rs);
      var g := Grouped(rs);
      && req.platformCount == |g|
      && (req.platformCount == 0 <==> rs == [])
      && (rs == [] ==> req.promptsPerPlatform == 0)
      && (rs != [] ==> req.promptsPerPlatform == |rs| / req.platformCount)
      && (forall j :: 0 <= j < |g| ==> Sections(g, NoLimits)[j].platform == g[j].0)
      && (forall j, i :: 0 <= j < |g| && 0 <= i < |g[j].1| ==>
            Sections(g, NoLimits)[j].queries[i] == Query(i + 1, g[j].1[i].question, g[j].1[i].answer))
  {
    GroupedEmpty(rs);
    SectionsFacts(Grouped(rs), NoLimits);
  }

  // ---------------------------------------------------------------------------
  // The reply
  // ---------------------------------------------------------------------------

  /** A content block of the reply: its `type` and, for a text block, its `text`. */
  datatype ContentBlock = ContentBlock(kind: string, text: string)

  /** `result_text`: the texts of the blocks of type "text", in order. */
  function ResultText(blocks: seq<ContentBlock>): string {
    if blocks == [] then ""
    else
      var b := blocks[|blocks| - 1];
      ResultText(blocks[..|blocks| - 1]) + (if b.kind == "text" then b.text else "")
  }

  /** The loop that builds `result_text`; "thinking" blocks are only logged. */
  method JoinTextBlocks(blocks: seq<ContentBlock>) returns (resultText: string)
    ensures resultText == ResultText(blocks)
  {
    resultText := "";
    for i := 0 to |blocks|
      invariant resultText == ResultText(blocks[..i])
    {
      assert blocks[..i + 1][..i] == blocks[..i];
      if blocks[i].kind == "thinking" {
      } else if blocks[i].kind == "text" {
        resultText := resultText + blocks[i].text;
      }
    }
    assert blocks[..|blocks|] == blocks;
  }

  /** The text of two runs of blocks is the text of the first followed by that of the second. */
  lemma {:induction false} ResultTextAppend(a: seq<ContentBlock>, b: seq<ContentBlock>)
    ensures ResultText(a + b) == ResultText(a) + ResultText(b)
    decreases |b|
  {
    if b == [] {
      assert a + b == a;
    } else {
      var b', last := b[..|b| - 1], b[|b| - 1];
      var piece := if last.kind == "text" then last.text else "";
      assert (a + b)[..|a + b| - 1] == a + b' && (a + b)[|a + b| - 1] == last;
      ResultTextAppend(a, b');
      assert ResultText(a + b) == ResultText(a) + ResultText(b') + piece;
    }
  }

  /** Blocks of any other type, thinking blocks among them, add nothing. */
  lemma {:induction false} ResultTextNoText(blocks: seq<ContentBlock>)
    requires forall i :: 0 <= i < |blocks| ==> blocks[i].kind != "text"
    ensures ResultText(blocks) == ""
  {
    if blocks != [] {
      ResultTextNoText(blocks[..|blocks| - 1]);
    }
  }

  /** The fence cleaning: strip, drop a leading "```json", then a leading "```", then a trailing "```", strip. */
  function StripFences(text: string): string {
    Strip(DropSuffix(DropPrefix(DropPrefix(Strip(text), "```json"), "```"), "```"))
  }

  /** `s[len(p):] if s.startswith(p) else s` */
  function DropPrefix(s: string, p: string): string {
    if StartsWith(s, p) then s[|p|..] else s
  }

  /** `s[:-len(p)] if s.endswith(p) else s` */
  function DropSuffix(s: string, p: string): string {
    if EndsWith(s, p) then s[..|s| - |p|] else s
  }

  lemma DropPrefixOf(p: string, rest: string)
    ensures DropPrefix(p + rest, p) == rest
  {
    assert (p + rest)[..|p|] == p;
  }

  lemma DropSuffixOf(rest: string, p: string)
    ensures DropSuffix(rest + p, p) == rest
  {
    assert (rest + p)[|rest|..] == p;
  }

  /** Text that neither starts nor ends with a fence is only stripped. */
  lemma StripFencesUnfenced(text: string)
    requires !StartsWith(Strip(text), "```") && !EndsWith(Strip(text), "```")
    ensures StripFences(text) == Strip(text)
  {
    NoFenceNoJsonFence(Strip(text));
    StripIdempotent(text);
  }

  lemma NoFenceNoJsonFence(s: string)
    ensures StartsWith(s, "```json") ==> StartsWith(s, "```")
  {
    if |s| >= 7 {
      assert s[..3] == s[..7][..3];
    }
  }

  /** A body inside a "```json" fence or a bare "```" fence, each on its own line, comes out unchanged. */
  lemma StripFencesWrapped(body: string)
    requires body == [] || (!IsSpace(body[0]) && !IsSpace(body[|body| - 1]))
    ensures StripFences("```json\n" + body + "\n```") == body
    ensures StripFences("```\n" + body + "\n```") == body
  {
    StripFencesJson(body);
    StripFencesBare(body);
  }

  lemma StripFencesJson(body: string)
    requires body == [] || (!IsSpace(body[0]) && !IsSpace(body[|body| - 1]))
    ensures StripFences("```json\n" + body + "\n```") == body
  {
    var inner := "\n" + body + "\n";
    var a := "```json\n" + body + "\n```";
    calc {
      StripFences(a);
      { StripUnpadded(a); }
      Strip(DropSuffix(DropPrefix(DropPrefix(a, "```json"), "```"), "```"));
      { assert a == "```json" + (inner + "```"); DropPrefixOf("```json", inner + "```"); }
      Strip(DropSuffix(DropPrefix(inner + "```", "```"), "```"));
      { NewlineFirst(inner + "```"); }
      Strip(DropSuffix(inner + "```", "```"));
      { DropSuffixOf(inner, "```"); }
      Strip(inner);
      { StripNewlines(body); }
      body;
    }
  }

  lemma StripFencesBare(body: string)
    requires body == [] || (!IsSpace(body[0]) && !IsSpace(body[|body| - 1]))
    ensures StripFences("```\n" + body + "\n```") == body
  {
    var inner := "\n" + body + "\n";
    var b := "```\n" + body + "\n```";
    calc {
      StripFences(b);
      { StripUnpadded(b); }
      Strip(DropSuffix(DropPrefix(DropPrefix(b, "```json"), "```"), "```"));
      { NotJsonFence(b); }
      Strip(DropSuffix(DropPrefix(b, "```"), "```"));
      { assert b == "```" + (inner + "```"); DropPrefixOf("```", inner + "```"); }
      Strip(DropSuffix(inner + "```", "```"));
      { DropSuffixOf(inner, "```"); }
      Strip(inner);
      { StripNewlines(body); }
      body;
    }
  }

  lemma NotJsonFence(s: string)
    requires |s| > 3 && s[3] == '\n'
    ensures DropPrefix(s, "```json") == s
  {
    if |s| >= 7 {
      assert s[..7][3] == '\n';
    }
  }

  lemma NewlineFirst(s: string)
    requires |s| > 0 && s[0] == '\n'
    ensures DropPrefix(s, "```") == s
  {
  }

  lemma StripUnpadded(s: string)
    requires |s| > 0 && s[0] == '`' && s[|s| - 1] == '`'
    ensures Strip(s) == s
  {
    assert !IsSpace(s[0]) && !IsSpace(s[|s| - 1]);
  }

  lemma StripNewlines(body: string)
    requires body == [] || (!IsSpace(body[0]) && !IsSpace(body[|body| - 1]))
    ensures Strip("\n" + body + "\n") == body
  {
    var s := "\n" + body + "\n";
    var t := body + "\n";
    assert s[1..] == t;
    TrimStartOneSpace(s);
    if body == [] {
      TrimStartOneSpace(t);
      assert t[1..] == [];
    } else {
      assert t[0] == body[0];
      TrimEndOneSpace(t);
      assert t[..|t| - 1] == body;
    }
  }

  lemma TrimStartOneSpace(s: string)
    requires |s| > 0 && s[0] == '\n'
    ensures TrimStart(s) == TrimStart(s[1..])
  {
    assert IsSpace(s[0]);
  }

  lemma TrimEndOneSpace(s: string)
    requires |s| > 0 && s[|s| - 1] == '\n'
    ensures TrimEnd(s) == TrimEnd(s[..|s| - 1])
  {
    assert IsSpace(s[|s| - 1]);
  }

  /**
   * `if "summary" in output: output["summary"]["category"] = category`, with
   * `None` where Python raises: `in` on a value that is not a container, or
   * an index into something that is not a dictionary.
   */
  function ApplyCategory(output: Json, category: string): Option<Json> {
    match output
    case JObj(members) =>
      if !HasKey(members, "summary") then Some(output)
      else
        (match Get(members, "summary").value
         case JObj(summary) => Some(JObj(Set(members, "summary", JObj(Set(summary, "category", JStr(category))))))
         case _ => None)
    case JArr(items) => if JStr("summary") in items then None else Some(output)
    case JStr(s) => if Contains(s, "summary") then None else Some(output)
    case _ => None
  }

  /**
   * A dictionary with a dictionary "summary" gets the input category in that
   * summary and nothing else changes; a dictionary without one is returned
   * as it is; an output that is not a dictionary, list or string gives None.
   */
  lemma ApplyCategoryFacts(output: Json, category: string)
    ensures output.JObj? && !HasKey(output.members, "summary") ==> ApplyCategory(output, category) == Some(output)
    ensures output.JObj? && HasKey(output.members, "summary") ==>
      (ApplyCategory(output, category).Some? <==> Get(output.members, "summary").value.JObj?)
    ensures output.JObj? && HasKey(output.members, "summary") && ApplyCategory(output, category).Some? ==>
      var r := ApplyCategory(output, category).value;
      var summary := Get(output.members, "summary").value.members;
      && r.JObj?
      && Get(r.members, "summary").Some? && Get(r.members, "summary").value.JObj?
      && Get(Get(r.members, "summary").value.members, "category") == Some(JStr(category))
      && (forall k :: k != "category" ==> Get(Get(r.members, "summary").value.members, k) == Get(summary, k))
      && (forall k :: k != "summary" ==> Get(r.members, k) == Get(output.members, k))
    ensures ApplyCategory(output, category).Some? ==> output.JObj? || output.JArr? || output.JStr?
  {
  }

  /**
   * `analyze_all_responses`. `api` is the analysis call on the built prompt:
   * its content blocks, or the exception it raised; `decode` is
   * `json.loads`, `None` when the text is not JSON.
   */
  function AnalyzeAllResponses(myBrand: string, competitors: seq<string>, category: string, rs: seq<Exchange>,
                               api: AnalyzerRequest -> Result<seq<ContentBlock>>,
                               decode: string -> Option<Json>): Option<Json> {
    match api(Request(myBrand, competitors, rs))
    case Failure(_) => None
    case Success(blocks) =>
      match decode(StripFences(ResultText(blocks)))
      case None => None
      case Some(output) => ApplyCategory(output, category)
  }

  /**
   * A failed call or unparseable text gives None; otherwise the output is
   * the parsed, fence-cleaned text with the category applied.
   */
  lemma AnalyzeFacts(myBrand: string, competitors: seq<string>, category: string, rs: seq<Exchange>,
                     api: AnalyzerRequest -> Result<seq<ContentBlock>>, decode: string -> Option<Json>)
    ensures api(Request(myBrand, competitors, rs)).Failure? ==>
      AnalyzeAllResponses(myBrand, competitors, category, rs, api, decode).None?
    ensures api(Request(myBrand, competitors, rs)).Success? ==>
      var text := StripFences(ResultText(api(Request(myBrand, competitors, rs)).value));
      && (decode(text).None? ==> AnalyzeAllResponses(myBrand, competitors, category, rs, api, decode).None?)
      && (decode(text).Some? ==> AnalyzeAllResponses(myBrand, competitors, category, rs, api, decode) == ApplyCategory(decode(text).value, category))
      && (decode(text).Some? && decode(text).value.JObj? && !HasKey(decode(text).value.members, "summary") ==>
            AnalyzeAllResponses(myBrand, competitors, category, rs, api, decode) == decode(text))
  {
    ApplyCategoryFacts(if api(Request(myBrand, competitors, rs)).Success? && decode(StripFences(ResultText(api(Request(myBrand, competitors, rs)).value))).Some?
      then decode(StripFences(ResultText(api(Request(myBrand, competitors, rs)).value))).value else JNull, category);
  }
}
