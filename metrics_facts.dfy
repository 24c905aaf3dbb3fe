/**
 * What `calculate_brand_metrics` promises about its counts, stated against
 * independent definitions: a count of the results with a property, the sum
 * of the brand's first-match counts, and the metrics of the results of one
 * platform taken on their own.
 */
module MetricsFacts {
  import opened Wrappers
  import opened Text
  import opened Records
  import opened Metrics
  import opened Seqs
  import opened Dedup

  /** The results whose mentions name `brand`. */
  predicate Mentions(r: PromptResult, brand: string) {
    FirstMention(r.mentions, brand).Some?
  }

  /** The results won by `brand`: a truthy winner equal to it, ignoring case. */
  predicate WonBy(r: PromptResult, brand: string) {
    Truthy(r.promptWinner) && EqualsIgnoreCase(r.promptWinner.value, brand)
  }

  /** The results with a truthy winner other than `brand` that mention `brand`. */
  predicate LostOrTiedBy(r: PromptResult, brand: string) {
    Truthy(r.promptWinner) && !EqualsIgnoreCase(r.promptWinner.value, brand) && Mentions(r, brand)
  }

  /** The count of the first mention of `brand` in `r`, 0 when there is none. */
  function BrandCount(r: PromptResult, brand: string): int {
    match FirstMention(r.mentions, brand)
    case None => 0
    case Some(m) => m.count
  }

  /** The sum of `BrandCount` over the results. */
  function BrandTotal(rs: seq<PromptResult>, brand: string): int {
    if rs == [] then 0 else BrandTotal(rs[..|rs| - 1], brand) + BrandCount(rs[|rs| - 1], brand)
  }

  /** The results on one platform, in order. */
  function OnPlatform(rs: seq<PromptResult>, p: string): (r: seq<PromptResult>)
    ensures |r| <= |rs|
  {
    if rs == [] then []
    else if rs[|rs| - 1].platform == p then OnPlatform(rs[..|rs| - 1], p) + [rs[|rs| - 1]]
    else OnPlatform(rs[..|rs| - 1], p)
  }

  /** The figures of one result's platform entry, read from metrics computed on that platform alone. */
  function AsPlatformStats(m: BrandMetrics): PlatformStats {
    PlatformStats(m.visibilityScore, m.citationShare, m.totalMentions, m.promptsWithMention)
  }

  // ---------------------------------------------------------------------------
  // Counts
  // ---------------------------------------------------------------------------

  /**
   * Every prompt is analysed; each is either a mention or a miss; the wins
   * are exactly the results the brand won; losses and ties together are the
   * mentioned results won by someone else; the total is the sum of the
   * brand's first-match counts.
   */
  lemma {:induction false} TallyCounts(rs: seq<PromptResult>, brand: string)
    ensures var t := TallyOf(rs, brand);
      && t.prompts == |rs|
      && t.withMention == Count(rs, r => Mentions(r, brand))
      && t.missed == |rs| - t.withMention
      && t.won == Count(rs, r => WonBy(r, brand))
      && t.lost + t.tied == Count(rs, r => LostOrTiedBy(r, brand))
      && t.brandMentions == BrandTotal(rs, brand)
  {
    if rs != [] {
      TallyCounts(rs[..|rs| - 1], brand);
    }
  }

  /** Losses and ties together never exceed the results that mention the brand. */
  lemma {:induction false} LostTiedBound(rs: seq<PromptResult>, brand: string)
    ensures Count(rs, r => LostOrTiedBy(r, brand)) <= Count(rs, r => Mentions(r, brand))
  {
    if rs != [] {
      LostTiedBound(rs[..|rs| - 1], brand);
    }
  }

  /** A result without a truthy winner adds no win, loss or tie. */
  lemma NoWinnerCountsNothing(t: Tally, r: PromptResult, brand: string)
    requires !Truthy(r.promptWinner)
    ensures var t' := Step(t, r, brand);
      t'.won == t.won && t'.lost == t.lost && t'.tied == t.tied
  {
  }

  /** The headline counts of `calculate_brand_metrics`. */
  lemma BrandMetricsCounts(brand: string, rs: seq<PromptResult>)
    ensures var m := BrandMetricsOf(brand, rs);
      && m.brand == brand
      && m.totalPromptsAnalyzed == |rs|
      && m.promptsWithMention + m.promptsMissed == m.totalPromptsAnalyzed
      && m.promptsWithMention == Count(rs, r => Mentions(r, brand))
      && m.promptsWon == Count(rs, r => WonBy(r, brand))
      && 0 <= m.promptsLost && 0 <= m.promptsTied
      && m.promptsLost + m.promptsTied <= m.promptsWithMention
      && m.totalMentions == BrandTotal(rs, brand)
      && 0 <= m.visibilityScore <= 1000
  {
    TallyCounts(rs, brand);
    LostTiedBound(rs, brand);
    TallyNonNegative(rs, brand);
    CountBound(rs, r => Mentions(r, brand));
  }

  lemma {:induction false} TallyNonNegative(rs: seq<PromptResult>, brand: string)
    ensures var t := TallyOf(rs, brand); t.won >= 0 && t.lost >= 0 && t.tied >= 0
  {
    if rs != [] {
      TallyNonNegative(rs[..|rs| - 1], brand);
    }
  }

  lemma {:induction false} CountBound<T>(s: seq<T>, f: T -> bool)
    ensures Count(s, f) <= |s|
  {
    if s != [] {
      CountBound(s[..|s| - 1], f);
    }
  }

  // ---------------------------------------------------------------------------
  // Citation share bounds
  // ---------------------------------------------------------------------------

  /** The counts of one result's mentions are non-negative. */
  predicate NonNegative(ms: seq<BrandMention>) {
    forall j :: 0 <= j < |ms| ==> ms[j].count >= 0
  }

  /** The mention counts of all results are non-negative. */
  predicate CountsNonNegative(rs: seq<PromptResult>) {
    forall i :: 0 <= i < |rs| ==> NonNegative(rs[i].mentions)
  }

  lemma {:induction false} SumCountsCons(m: BrandMention, ms: seq<BrandMention>)
    ensures SumCounts([m] + ms) == m.count + SumCounts(ms)
    decreases |ms|
  {
    if ms != [] {
      var n := |ms|;
      assert ([m] + ms)[..n] == [m] + ms[..n - 1];
      SumCountsCons(m, ms[..n - 1]);
    }
  }

  /** The brand's first-match count is part of the sum of all counts. */
  lemma {:induction false} SumCountsBound(ms: seq<BrandMention>, brand: string)
    requires NonNegative(ms)
    ensures 0 <= SumCounts(ms)
    ensures FirstMention(ms, brand).Some? ==> FirstMention(ms, brand).value.count <= SumCounts(ms)
    decreases |ms|
  {
    if ms != [] {
      assert ms == [ms[0]] + ms[1..];
      SumCountsCons(ms[0], ms[1..]);
      SumCountsBound(ms[1..], brand);
    }
  }

  lemma {:induction false} TotalsBound(rs: seq<PromptResult>, brand: string)
    requires CountsNonNegative(rs)
    ensures var t := TallyOf(rs, brand); 0 <= t.brandMentions <= t.allMentions
  {
    if rs != [] {
      var n := |rs|;
      var q := rs[..n - 1];
      assert CountsNonNegative(q) by {
        forall i | 0 <= i < |q| ensures NonNegative(q[i].mentions) {
          assert q[i] == rs[i];
        }
      }
      TotalsBound(rs[..n - 1], brand);
      SumCountsBound(rs[n - 1].mentions, brand);
    }
  }

  /** With non-negative counts the citation share is a percentage between 0 and 100. */
  lemma CitationShareBounds(brand: string, rs: seq<PromptResult>)
    requires CountsNonNegative(rs)
    ensures 0 <= BrandMetricsOf(brand, rs).citationShare <= 1000
  {
    TotalsBound(rs, brand);
  }

  // ---------------------------------------------------------------------------
  // Platform breakdown
  // ---------------------------------------------------------------------------

  /** The breakdown has an entry for exactly the platforms of the results. */
  lemma BreakdownPlatforms(brand: string, rs: seq<PromptResult>)
    ensures BrandMetricsOf(brand, rs).platformBreakdown.Keys == Platforms(rs)
  {
    TallyPlatforms(rs, brand);
  }

  /** The per-platform totals are the overall totals of that platform's results. */
  lemma PlatformTallies(rs: seq<PromptResult>, brand: string, p: string)
    ensures var t := TallyOf(rs, brand);
      var u := TallyOf(OnPlatform(rs, p), brand);
      && Lookup(t.promptsBy, p) == u.prompts
      && Lookup(t.withMentionBy, p) == u.withMention
      && Lookup(t.mentionsBy, p) == u.brandMentions
      && PlatformTotalMentions(rs, p) == u.allMentions
  {
    PlatformPrompts(rs, brand, p);
    PlatformWithMention(rs, brand, p);
    PlatformMentions(rs, brand, p);
    PlatformAllMentions(rs, brand, p);
  }

  /** The platform's prompt count is the number of its results. */
  lemma {:induction false} PlatformPrompts(rs: seq<PromptResult>, brand: string, p: string)
    ensures Lookup(TallyOf(rs, brand).promptsBy, p) == TallyOf(OnPlatform(rs, p), brand).prompts
  {
    if rs != [] {
      var front, r := rs[..|rs| - 1], rs[|rs| - 1];
      PlatformPrompts(front, brand, p);
      TallyPlatforms(front, brand);
      var t, u := TallyOf(front, brand), TallyOf(OnPlatform(front, p), brand);
      if r.platform == p {
        PlatformTalliesOn(rs, front, r, brand, p);
        OnStep(t, u, r, brand, p);
      } else {
        assert OnPlatform(rs, p) == OnPlatform(front, p);
        StepOnPlatform(t, r, brand, p);
      }
    }
  }

  /** The platform's count of results that mention the brand. */
  lemma {:induction false} PlatformWithMention(rs: seq<PromptResult>, brand: string, p: string)
    ensures Lookup(TallyOf(rs, brand).withMentionBy, p) == TallyOf(OnPlatform(rs, p), brand).withMention
  {
    if rs != [] {
      var front, r := rs[..|rs| - 1], rs[|rs| - 1];
      PlatformWithMention(front, brand, p);
      TallyPlatforms(front, brand);
      var t, u := TallyOf(front, brand), TallyOf(OnPlatform(front, p), brand);
      if r.platform == p {
        PlatformTalliesOn(rs, front, r, brand, p);
        OnStep(t, u, r, brand, p);
      } else {
        assert OnPlatform(rs, p) == OnPlatform(front, p);
        StepOnPlatform(t, r, brand, p);
      }
    }
  }

  /** The platform's count of the brand's mentions. */
  lemma {:induction false} PlatformMentions(rs: seq<PromptResult>, brand: string, p: string)
    ensures Lookup(TallyOf(rs, brand).mentionsBy, p) == TallyOf(OnPlatform(rs, p), brand).brandMentions
  {
    if rs != [] {
      var front, r := rs[..|rs| - 1], rs[|rs| - 1];
      PlatformMentions(front, brand, p);
      TallyPlatforms(front, brand);
      var t, u := TallyOf(front, brand), TallyOf(OnPlatform(front, p), brand);
      if r.platform == p {
        PlatformTalliesOn(rs, front, r, brand, p);
        OnStep(t, u, r, brand, p);
      } else {
        assert OnPlatform(rs, p) == OnPlatform(front, p);
        StepOnPlatform(t, r, brand, p);
      }
    }
  }

  /** A result on platform `p` moves the platform's entries of `t` as much as it moves the totals of `u`. */
  lemma OnStep(t: Tally, u: Tally, r: PromptResult, brand: string, p: string)
    requires t.promptsBy.Keys == t.mentionsBy.Keys == t.withMentionBy.Keys
    requires r.platform == p
    ensures var t', u' := Step(t, r, brand), Step(u, r, brand);
      && Lookup(t'.promptsBy, p) - Lookup(t.promptsBy, p) == u'.prompts - u.prompts
      && Lookup(t'.withMentionBy, p) - Lookup(t.withMentionBy, p) == u'.withMention - u.withMention
      && Lookup(t'.mentionsBy, p) - Lookup(t.mentionsBy, p) == u'.brandMentions - u.brandMentions
  {
    StepOnPlatform(t, r, brand, p);
    StepTotals(u, r, brand);
  }

  /** The platform's count of all mentions. */
  lemma {:induction false} PlatformAllMentions(rs: seq<PromptResult>, brand: string, p: string)
    ensures PlatformTotalMentions(rs, p) == TallyOf(OnPlatform(rs, p), brand).allMentions
  {
    if rs != [] {
      var front, r := rs[..|rs| - 1], rs[|rs| - 1];
      PlatformAllMentions(front, brand, p);
      if r.platform == p {
        PlatformTalliesOn(rs, front, r, brand, p);
        StepTotals(TallyOf(OnPlatform(front, p), brand), r, brand);
      } else {
        assert OnPlatform(rs, p) == OnPlatform(front, p);
      }
    }
  }

  /** The step of `PlatformTallies` for a result on platform `p`: the platform's own totals take the same step. */
  lemma PlatformTalliesOn(rs: seq<PromptResult>, front: seq<PromptResult>, r: PromptResult, brand: string, p: string)
    requires rs == front + [r] && r.platform == p
    ensures TallyOf(OnPlatform(rs, p), brand) == Step(TallyOf(OnPlatform(front, p), brand), r, brand)
  {
    var f := OnPlatform(front, p);
    assert rs[..|rs| - 1] == front && rs[|rs| - 1] == r;
    assert OnPlatform(rs, p) == f + [r];
    assert (f + [r])[..|f|] == f;
  }

  /** One step adds the result to the overall totals. */
  lemma StepTotals(t: Tally, r: PromptResult, brand: string)
    ensures var t' := Step(t, r, brand);
      && t'.prompts == t.prompts + 1
      && t'.withMention == t.withMention + CountIf(Mentions(r, brand))
      && t'.brandMentions == t.brandMentions + BrandCount(r, brand)
      && t'.allMentions == t.allMentions + SumCounts(r.mentions)
  {
  }

  /** One step moves the totals of the result's own platform and of no other platform. */
  lemma StepOnPlatform(t: Tally, r: PromptResult, brand: string, p: string)
    requires t.promptsBy.Keys == t.mentionsBy.Keys == t.withMentionBy.Keys
    ensures var t' := Step(t, r, brand);
      var on := r.platform == p;
      && Lookup(t'.promptsBy, p) == Lookup(t.promptsBy, p) + CountIf(on)
      && Lookup(t'.withMentionBy, p) == Lookup(t.withMentionBy, p) + CountIf(on && Mentions(r, brand))
      && Lookup(t'.mentionsBy, p) == Lookup(t.mentionsBy, p) + (if on then BrandCount(r, brand) else 0)
  {
  }

  /**
   * Each entry of the breakdown holds the figures the whole calculation
   * gives when it is run on that platform's results alone.
   */
  lemma BreakdownIsPlatformMetrics(brand: string, rs: seq<PromptResult>, p: string)
    requires p in Platforms(rs)
    ensures p in BrandMetricsOf(brand, rs).platformBreakdown
    ensures BrandMetricsOf(brand, rs).platformBreakdown[p] == AsPlatformStats(BrandMetricsOf(brand, OnPlatform(rs, p)))
  {
    TallyPlatforms(rs, brand);
    PlatformTallies(rs, brand, p);
  }

  // ---------------------------------------------------------------------------
  // Top contexts
  // ---------------------------------------------------------------------------

  /**
   * `top_contexts`: at most five contexts, pairwise different in their
   * lower-cased first 50 characters, each the first context with its key and
   * in the order the contexts came.
   */
  lemma TopContextsFacts(cs: seq<string>) returns (idx: seq<nat>)
    ensures var top := TopContexts(cs);
      && |top| <= 5
      && IsFirstOccurrences(cs, top, idx, ContextKey)
      && (forall i, j :: 0 <= i < j < |top| ==> ContextKey(top[i]) != ContextKey(top[j]))
  {
    idx := DedupTakeFacts(cs, ContextKey, 5);
  }

  /** Fewer than five distinct keys: every key of the input is represented. */
  lemma TopContextsComplete(cs: seq<string>)
    requires |DedupBy(cs, ContextKey)| < 5
    ensures KeysOf(TopContexts(cs), ContextKey) == KeysOf(cs, ContextKey)
  {
    var _ := DedupFacts(cs, ContextKey);
  }

  /** The brand's metrics carry these top contexts: those of its contexts that were not empty. */
  lemma BrandTopContexts(brand: string, rs: seq<PromptResult>)
    ensures |BrandMetricsOf(brand, rs).topContexts| <= 5
    ensures forall i :: 0 <= i < |BrandMetricsOf(brand, rs).topContexts| ==> BrandMetricsOf(brand, rs).topContexts[i] != ""
  {
    var t := TallyOf(rs, brand);
    var idx := TopContextsFacts(t.contexts);
    ContextsNonEmpty(rs, brand);
  }

  lemma {:induction false} ContextsNonEmpty(rs: seq<PromptResult>, brand: string)
    ensures forall i :: 0 <= i < |TallyOf(rs, brand).contexts| ==> TallyOf(rs, brand).contexts[i] != ""
  {
    if rs != [] {
      ContextsNonEmpty(rs[..|rs| - 1], brand);
    }
  }
}
