/**
 * The output records: `prompt_result`, `brand_summary`, `leaderboard` and
 * `run_summary`. The prompt-result formatter picks its own winner and loser,
 * with rules that differ from the metrics calculator's.
 */
module Formatters {
  import opened Wrappers
  import opened Text
  import opened Seqs
  import opened Sorting
  import opened Records
  import opened Metrics
  import opened Leaderboards

  // ---------------------------------------------------------------------------
  // prompt_result
  // ---------------------------------------------------------------------------

  /** One entry of the record's `mentions` list. */
  datatype MentionRecord = MentionRecord(
    brand: string,
    count: int,
    rank: int,
    context: string,
    isRecommended: bool)

  datatype PromptResultRecord = PromptResultRecord(
    kind: string,
    promptId: string,
    promptText: string,
    platform: string,
    platformModel: string,
    rawResponse: string,
    mentions: seq<MentionRecord>,
    citations: seq<string>,
    promptWinner: Option<string>,
    promptLoser: Option<string>,
    myBrandMentioned: bool,
    myBrandRank: Option<int>,
    competitorsMentioned: seq<string>,
    competitorsMissed: seq<string>)

  /** The loser's sort key here: the count alone. */
  function CountKey(m: BrandMention): Key {
    Key(m.count, 0)
  }

  /**
   * The formatter's winner: the first mention under `(-count, rank)`, so a
   * full tie goes to the mention that comes first; `None` only without mentions.
   */
  function FormatWinner(ms: seq<BrandMention>): (r: Option<string>)
    ensures r.None? <==> |ms| == 0
    ensures r.Some? ==> exists i :: IsFirstBest(ms, WinKey, i) && ms[i].brand == r.value
  {
    if |ms| == 0 then None
    else
      SortFirst(ms, WinKey);
      Some(SortBy(ms, WinKey)[0].brand)
  }

  /**
   * The formatter's loser, with two mentions or more: the first mention with
   * the smallest count (the rank plays no part).
   */
  function FormatLoser(ms: seq<BrandMention>): (r: Option<string>)
    ensures r.None? <==> |ms| < 2
    ensures r.Some? ==> exists i :: IsFirstBest(ms, CountKey, i) && ms[i].brand == r.value
  {
    if |ms| < 2 then None
    else
      SortFirst(ms, CountKey);
      Some(SortBy(ms, CountKey)[0].brand)
  }

  /**
   * The two winner rules agree except on a true tie, where the metrics
   * calculator gives no winner and the formatter still names one.
   */
  lemma WinnerRulesCompared(ms: seq<BrandMention>)
    requires |ms| > 0
    ensures TopTied(ms) ==> DetermineWinner(ms).None? && FormatWinner(ms).Some?
    ensures !TopTied(ms) ==> DetermineWinner(ms) == FormatWinner(ms)
  {
    WinnerFacts(ms);
  }

  /** On a full tie the rules part: the calculator names no winner, the formatter the first mention. */
  lemma WinnerRulesDiffer()
    ensures var ms := [BrandMention("Nike", 2, 1, "", false), BrandMention("Adidas", 2, 1, "", false)];
      DetermineWinner(ms) == None && FormatWinner(ms) == Some("Nike")
  {
    var ms := [BrandMention("Nike", 2, 1, "", false), BrandMention("Adidas", 2, 1, "", false)];
    assert SortBy(ms, WinKey) == [ms[0], ms[1]];
  }

  /** On a count tie the calculator's loser is the later rank, the formatter's the first mention. */
  lemma LoserRulesDiffer()
    ensures var ms := [BrandMention("Nike", 1, 1, "", false), BrandMention("Adidas", 1, 2, "", false)];
      DetermineLoser(ms) == Some("Adidas") && FormatLoser(ms) == Some("Nike")
  {
    var ms := [BrandMention("Nike", 1, 1, "", false), BrandMention("Adidas", 1, 2, "", false)];
    assert SortBy(ms, LoseKey) == [ms[1], ms[0]];
    assert SortBy(ms, CountKey) == [ms[0], ms[1]];
  }

  /** The lower-cased brands of the mentions. */
  function MentionedBrands(ms: seq<BrandMention>): set<string> {
    set i | 0 <= i < |ms| :: Lower(ms[i].brand)
  }

  /** Some mention names `c`, ignoring case. */
  predicate NamedIn(ms: seq<BrandMention>, c: string) {
    exists i :: 0 <= i < |ms| && EqualsIgnoreCase(ms[i].brand, c)
  }

  lemma MentionedBrandsMembers(ms: seq<BrandMention>, c: string)
    ensures Lower(c) in MentionedBrands(ms) <==> NamedIn(ms, c)
  {
  }

  /** The competitors, in their order, that some mention names. */
  function CompetitorsMentioned(cs: seq<string>, ms: seq<BrandMention>): seq<string> {
    Filter(cs, c => Lower(c) in MentionedBrands(ms))
  }

  /** The competitors, in their order, that no mention names. */
  function CompetitorsMissed(cs: seq<string>, ms: seq<BrandMention>): seq<string> {
    Filter(cs, c => Lower(c) !in MentionedBrands(ms))
  }

  /**
   * The two competitor lists split the competitors: together they are the
   * competitors rearranged, the first holds exactly those some mention
   * names, the second exactly the others.
   */
  lemma CompetitorSplit(cs: seq<string>, ms: seq<BrandMention>)
    ensures multiset(CompetitorsMentioned(cs, ms)) + multiset(CompetitorsMissed(cs, ms)) == multiset(cs)
    ensures forall c :: c in CompetitorsMentioned(cs, ms) <==> c in cs && NamedIn(ms, c)
    ensures forall c :: c in CompetitorsMissed(cs, ms) <==> c in cs && !NamedIn(ms, c)
  {
    var f := c => Lower(c) in MentionedBrands(ms);
    var g := c => Lower(c) !in MentionedBrands(ms);
    FilterPartition(cs, f, g);
    FilterMembers(cs, f);
    FilterMembers(cs, g);
    forall c ensures Lower(c) in MentionedBrands(ms) <==> NamedIn(ms, c) {
      MentionedBrandsMembers(ms, c);
    }
  }

  /** Both lists keep the competitors' order: each distributes over a split of the competitors. */
  lemma CompetitorOrder(cs1: seq<string>, cs2: seq<string>, ms: seq<BrandMention>)
    ensures CompetitorsMentioned(cs1 + cs2, ms) == CompetitorsMentioned(cs1, ms) + CompetitorsMentioned(cs2, ms)
    ensures CompetitorsMissed(cs1 + cs2, ms) == CompetitorsMissed(cs1, ms) + CompetitorsMissed(cs2, ms)
  {
    FilterAppend(cs1, cs2, c => Lower(c) in MentionedBrands(ms));
    FilterAppend(cs1, cs2, c => Lower(c) !in MentionedBrands(ms));
  }

  function FormatMention(m: BrandMention): MentionRecord {
    MentionRecord(m.brand, m.count, m.rank, m.context, m.isRecommended)
  }

  /** A mention record read back as a mention. */
  function MentionOf(r: MentionRecord): BrandMention {
    BrandMention(r.brand, r.count, r.rank, r.context, r.isRecommended)
  }

  /** The output mention list: one record per mention, in order. */
  function FormatMentions(ms: seq<BrandMention>): (r: seq<MentionRecord>)
    ensures |r| == |ms|
  {
    seq(|ms|, i requires 0 <= i < |ms| => FormatMention(ms[i]))
  }

  /** The output mentions lose nothing: they read back as the input mentions, in order. */
  lemma FormatMentionsRoundTrip(ms: seq<BrandMention>)
    ensures var r := FormatMentions(ms);
      seq(|r|, i requires 0 <= i < |r| => MentionOf(r[i])) == ms
  {
  }

  /** The rank of the first mention naming the brand, ignoring case. */
  function RankOf(mention: Option<BrandMention>): Option<int> {
    match mention
    case None => None
    case Some(m) => Some(m.rank)
  }

  /** `format_prompt_result` */
  function FormatPromptResult(
    promptId: string, promptText: string, platform: string, platformModel: string,
    rawResponse: string, mentions: seq<BrandMention>, citations: seq<string>,
    myBrand: string, competitors: seq<string>): (r: PromptResultRecord)
    ensures r.kind == "prompt_result"
    ensures r.promptWinner.None? <==> mentions == []
    ensures r.promptLoser.Some? <==> |mentions| >= 2
    ensures r.myBrandMentioned <==> exists i :: 0 <= i < |mentions| && EqualsIgnoreCase(mentions[i].brand, myBrand)
    ensures r.myBrandRank.Some? <==> r.myBrandMentioned
    ensures multiset(r.competitorsMentioned) + multiset(r.competitorsMissed) == multiset(competitors)
    ensures forall c :: c in r.competitorsMentioned <==> c in competitors && NamedIn(mentions, c)
    ensures |r.mentions| == |mentions| && forall i :: 0 <= i < |mentions| ==> MentionOf(r.mentions[i]) == mentions[i]
  {
    var mine := FirstMention(mentions, myBrand);
    CompetitorSplit(competitors, mentions);
    PromptResultRecord(
      "prompt_result", promptId, promptText, platform, platformModel, rawResponse,
      FormatMentions(mentions), citations,
      FormatWinner(mentions), FormatLoser(mentions),
      mine.Some?, RankOf(mine),
      CompetitorsMentioned(competitors, mentions), CompetitorsMissed(competitors, mentions))
  }

  /** The brand's rank in a record is the rank of its first case-insensitive match. */
  lemma MyBrandRank(mentions: seq<BrandMention>, myBrand: string, i: nat)
    requires i < |mentions| && EqualsIgnoreCase(mentions[i].brand, myBrand)
    requires forall j :: 0 <= j < i ==> !EqualsIgnoreCase(mentions[j].brand, myBrand)
    ensures FormatPromptResult("", "", "", "", "", mentions, [], myBrand, []).myBrandRank == Some(mentions[i].rank)
  {
    var m := FirstMention(mentions, myBrand);
    var k :| 0 <= k < |mentions| && mentions[k] == m.value && EqualsIgnoreCase(mentions[k].brand, myBrand)
      && forall j :: 0 <= j < k ==> !EqualsIgnoreCase(mentions[j].brand, myBrand);
    assert k == i;
  }

  // ---------------------------------------------------------------------------
  // brand_summary
  // ---------------------------------------------------------------------------

  datatype OverallMetrics = OverallMetrics(
    visibilityScore: int,
    citationShare: int,
    totalMentions: int,
    totalPromptsAnalyzed: int,
    promptsWithMention: int,
    promptsMissed: int)

  datatype CompetitivePosition = CompetitivePosition(
    rank: int,
    totalBrands: int,
    promptsWon: int,
    promptsLost: int,
    promptsTied: int)

  datatype BrandSummary = BrandSummary(
    kind: string,
    brand: string,
    overallMetrics: OverallMetrics,
    platformBreakdown: map<string, PlatformStats>,
    competitivePosition: CompetitivePosition,
    topContexts: seq<string>)

  /** The metrics a summary carries. */
  function MetricsOfSummary(s: BrandSummary): BrandMetrics {
    var o := s.overallMetrics;
    var c := s.competitivePosition;
    BrandMetrics(s.brand, o.visibilityScore, o.citationShare, o.totalMentions, o.totalPromptsAnalyzed,
      o.promptsWithMention, o.promptsMissed, c.promptsWon, c.promptsLost, c.promptsTied,
      s.platformBreakdown, s.topContexts)
  }

  /** `format_brand_summary`: every metric copied unchanged, rank and brand count left at 0. */
  function FormatBrandSummary(m: BrandMetrics): (r: BrandSummary)
    ensures r.kind == "brand_summary"
    ensures MetricsOfSummary(r) == m
    ensures r.competitivePosition.rank == 0 && r.competitivePosition.totalBrands == 0
  {
    BrandSummary(
      "brand_summary", m.brand,
      OverallMetrics(m.visibilityScore, m.citationShare, m.totalMentions, m.totalPromptsAnalyzed,
        m.promptsWithMention, m.promptsMissed),
      m.platformBreakdown,
      CompetitivePosition(0, 0, m.promptsWon, m.promptsLost, m.promptsTied),
      m.topContexts)
  }

  // ---------------------------------------------------------------------------
  // leaderboard and run_summary
  // ---------------------------------------------------------------------------

  datatype LeaderboardRecord = LeaderboardRecord(
    kind: string,
    rankings: seq<LeaderboardEntry>,
    platformLeaderboards: map<string, seq<PlatformEntry>>)

  /** `format_leaderboard`: both rankings wrapped unchanged. */
  function FormatLeaderboard(rankings: seq<LeaderboardEntry>, boards: map<string, seq<PlatformEntry>>): (r: LeaderboardRecord)
    ensures r.kind == "leaderboard" && r.rankings == rankings && r.platformLeaderboards == boards
  {
    LeaderboardRecord("leaderboard", rankings, boards)
  }

  datatype RunInput = RunInput(
    category: string,
    myBrand: string,
    competitors: seq<string>,
    platforms: seq<string>,
    promptCount: int)

  datatype Execution = Execution(promptsProcessed: int, responsesCollected: int)

  datatype Billing = Billing(eventType: string, eventsCharged: int)

  datatype RunSummary = RunSummary(
    kind: string,
    status: string,
    input: RunInput,
    execution: Execution,
    billing: Billing)

  /** `format_run_summary` without its timestamps, duration and price. */
  function FormatRunSummary(
    status: string, category: string, myBrand: string, competitors: seq<string>,
    platforms: seq<string>, promptCount: int,
    promptsProcessed: int, responsesCollected: int, eventsCharged: int): (r: RunSummary)
    ensures r.kind == "run_summary" && r.status == status
    ensures r.input == RunInput(category, myBrand, competitors, platforms, promptCount)
    ensures r.execution == Execution(promptsProcessed, responsesCollected)
    ensures r.billing == Billing("prompt_analyzed", eventsCharged)
  {
    RunSummary("run_summary", status,
      RunInput(category, myBrand, competitors, platforms, promptCount),
      Execution(promptsProcessed, responsesCollected),
      Billing("prompt_analyzed", eventsCharged))
  }
}
