/**
 * `build_analysis_prompt`: the values the brand analysis prompt embeds,
 * each cut to its length limit, and the per-platform response sections.
 */
module AnalysisPrompt {
  import opened Wrappers
  import opened ResponseGrouping

  /** The parts of the prompt that depend on the input; the surrounding prose is fixed. */
  datatype AnalysisRequest = AnalysisRequest(
    myBrand: string,
    competitors: seq<string>,   // the list `json.dumps` writes out
    category: string,
    platformCount: nat,
    promptsPerPlatform: nat,
    responsesText: string)

  /** Platform names at most 100 characters, questions 2000 and answers 50000. */
  const PromptLimits := Limits(Some(100), Some(2000), Some(50000))

  const BrandLimit: nat := 500
  const CategoryLimit: nat := 200

  /** `category[:200] if category else "General"` */
  function CategoryDisplay(category: string): string {
    if category != [] then Cut(category, Some(CategoryLimit)) else "General"
  }

  /** `[c[:500] for c in competitors]` */
  function CutCompetitors(competitors: seq<string>): seq<string> {
    seq(|competitors|, i requires 0 <= i < |competitors| => Cut(competitors[i], Some(BrandLimit)))
  }

  /** What `build_analysis_prompt` embeds for these inputs. */
  function Request(myBrand: string, competitors: seq<string>, rs: seq<Exchange>, category: string): AnalysisRequest {
    var g := Grouped(rs);
    AnalysisRequest(
      Cut(myBrand, Some(BrandLimit)),
      CutCompetitors(competitors),
      CategoryDisplay(category),
      |g|,
      PerPlatformGuarded(|rs|, |g|),
      SectionsText("Query", Sections(g, PromptLimits)))
  }

  /** `build_analysis_prompt` */
  method BuildAnalysisPrompt(myBrand: string, competitors: seq<string>, rs: seq<Exchange>, category: string)
    returns (request: AnalysisRequest)
    ensures request == Request(myBrand, competitors, rs, category)
  {
    var platformData := GroupByPlatform(rs);
    var promptsPerPlatform := PerPlatformGuarded(|rs|, |platformData|);
    var text := RenderSections(platformData, PromptLimits, "Query");
    var categoryDisplay := if category != [] then Cut(category, Some(CategoryLimit)) else "General";
    request := AnalysisRequest(Cut(myBrand, Some(BrandLimit)), CutCompetitors(competitors), categoryDisplay,
      |platformData|, promptsPerPlatform, text);
    assert categoryDisplay == CategoryDisplay(category);
  }

  /**
   * The brand and each competitor are their first 500 characters; the
   * category is its first 200 characters, or "General" when it is empty.
   */
  lemma RequestFieldFacts(myBrand: string, competitors: seq<string>, rs: seq<Exchange>, category: string)
    ensures var req := Request(myBrand, competitors, rs, category);
      && |req.myBrand| <= BrandLimit && req.myBrand == myBrand[..|req.myBrand|]
      && (|myBrand| <= BrandLimit ==> req.myBrand == myBrand)
      && |req.competitors| == |competitors|
      && (forall i :: 0 <= i < |competitors| ==>
            |req.competitors[i]| <= BrandLimit && req.competitors[i] == competitors[i][..|req.competitors[i]|]
            && (|competitors[i]| <= BrandLimit ==> req.competitors[i] == competitors[i]))
      && (category == [] ==> req.category == "General")
      && (category != [] ==> req.category == category[..Min(|category|, CategoryLimit)] && req.category != [])
  {
  }

  /**
   * There is one section per platform that has a response, in order of first
   * appearance; each platform's queries are numbered from 1 and every
   * embedded platform, question and answer is within its limit; the
   * per-platform count is the number of responses over the number of
   * platforms, and 0 when there are none.
   */
  lemma RequestSectionFacts(myBrand: string, competitors: seq<string>, rs: seq<Exchange>, category: string)
    ensures var req := Request(myBrand, competitors, rs, category);
      var g := Grouped(rs);
      && req.platformCount == |g|
      && (req.platformCount == 0 <==> rs == [])
      && (rs == [] ==> req.promptsPerPlatform == 0)
      && (rs != [] ==> req.promptsPerPlatform == |rs| / req.platformCount)
      && (forall k :: k in Keys(g) <==> k in Platforms(rs))
      && req.responsesText == SectionsText("Query", Sections(g, PromptLimits))
      && (forall j :: 0 <= j < |g| ==> |Sections(g, PromptLimits)[j].platform| <= 100)
      && (forall j, i :: 0 <= j < |g| && 0 <= i < |Sections(g, PromptLimits)[j].queries| ==>
            var q := Sections(g, PromptLimits)[j].queries[i];
            q.number == i + 1 && |q.question| <= 2000 && |q.answer| <= 50000)
  {
    GroupedEmpty(rs);
    GroupedKeys(rs);
    SectionsFacts(Grouped(rs), PromptLimits);
  }
}
