/**
 * The metrics calculator: visibility score and citation share, the winner
 * and loser of one prompt, the per-brand tally over all prompt results, and
 * the overall and per-platform leaderboards.
 *
 * Percentages are kept as whole numbers of tenths of a percent (`80.0` is
 * 800), which is exactly the precision `round(x, 1)` leaves.
 */
module Metrics {
  import opened Wrappers
  import opened Text
  import opened Sorting
  import opened Records
  import opened Dedup

  // ---------------------------------------------------------------------------
  // Visibility score and citation share
  // ---------------------------------------------------------------------------

  function Abs(x: int): nat {
    if x < 0 then -x else x
  }

  /** `r` is the integer nearest to `n / d`, an exact half going to the even neighbour. */
  predicate IsRoundedQuotient(r: int, n: int, d: int)
    requires d > 0
  {
    2 * Abs(n - r * d) <= d && (2 * Abs(n - r * d) == d ==> r % 2 == 0)
  }

  /** Division rounded half to even, as Python's `round` does. */
  function RoundDiv(n: int, d: int): (r: int)
    requires d > 0
    ensures IsRoundedQuotient(r, n, d)
  {
    var q := n / d;
    var rem := n % d;
    assert n - q * d == rem;
    assert n - (q + 1) * d == rem - d;
    if 2 * rem < d then q
    else if 2 * rem > d then q + 1
    else if q % 2 == 0 then q
    else q + 1
  }

  /**
   * `calculate_visibility_score` and `calculate_citation_share`:
   * `round(part / total * 100, 1)` in tenths of a percent, and 0 when the
   * total is 0.
   */
  function Percent(part: int, total: int): (r: int)
    ensures total == 0 ==> r == 0
    ensures total > 0 ==> IsRoundedQuotient(r, 1000 * part, total)
    ensures total < 0 ==> IsRoundedQuotient(r, -1000 * part, -total)
    ensures 0 <= part <= total ==> 0 <= r <= 1000
  {
    if total == 0 then 0
    else
      var r := if total > 0 then RoundDiv(1000 * part, total) else RoundDiv(-1000 * part, -total);
      PercentBounds(part, total, r);
      r
  }

  lemma MulMonotone(a: int, b: int, c: int)
    requires a <= b && c >= 0
    ensures a * c <= b * c
  {
  }

  lemma PercentBounds(part: int, total: int, r: int)
    requires total != 0
    requires total > 0 ==> IsRoundedQuotient(r, 1000 * part, total)
    requires total < 0 ==> IsRoundedQuotient(r, -1000 * part, -total)
    ensures 0 <= part <= total ==> 0 <= r <= 1000
  {
    if 0 <= part <= total {
      var n := 1000 * part;
      assert 2 * Abs(n - r * total) <= total;
      if r < 0 {
        MulMonotone(r, -1, total);
      }
      if r > 1000 {
        MulMonotone(1001, r, total);
        MulMonotone(part, total, 1000);
      }
    }
  }

  /** The figures of the unit tests: 8 of 10 is 80.0, 25 of 100 is 25.0, 0 of 0 is 0.0. */
  lemma PercentExamples()
    ensures Percent(8, 10) == 800
    ensures Percent(25, 100) == 250
    ensures Percent(0, 0) == 0
    ensures Percent(1, 3) == 333
    ensures Percent(2, 3) == 667
  {
    assert IsRoundedQuotient(333, 1000, 3);
    assert IsRoundedQuotient(667, 2000, 3);
  }

  // ---------------------------------------------------------------------------
  // Winner and loser of one prompt
  // ---------------------------------------------------------------------------

  /** The sort key `(-m.count, m.rank)`: more mentions first, then the earlier rank. */
  function WinKey(m: BrandMention): Key {
    Key(-m.count, m.rank)
  }

  /** The sort key `(m.count, -m.rank)`: fewer mentions first, then the later rank. */
  function LoseKey(m: BrandMention): Key {
    Key(m.count, -m.rank)
  }

  /** Mention `i` has a key no other mention beats. */
  predicate IsBest(ms: seq<BrandMention>, key: BrandMention -> Key, i: int) {
    0 <= i < |ms| && forall k :: 0 <= k < |ms| ==> KeyLe(key(ms[i]), key(ms[k]))
  }

  /** Some best mention shares its key with another mention: a true tie. */
  predicate TopTied(ms: seq<BrandMention>) {
    exists i, j :: 0 <= i < |ms| && 0 <= j < |ms| && IsBest(ms, WinKey, i) && j != i && WinKey(ms[j]) == WinKey(ms[i])
  }

  /**
   * `determine_winner`: the brand with the most mentions, a count tie going
   * to the earlier rank; `None` for no mentions and for a true tie, where
   * the two leaders share both count and rank.
   */
  function DetermineWinner(ms: seq<BrandMention>): (r: Option<string>)
    ensures r.None? <==> |ms| == 0 || TopTied(ms)
    ensures r.Some? ==> exists i :: IsBest(ms, WinKey, i) && ms[i].brand == r.value
  {
    if |ms| == 0 then None
    else
      var sorted := SortBy(ms, WinKey);
      var top := sorted[0];
      WinnerFacts(ms);
      if |sorted| > 1 && sorted[1].count == top.count then
        var second := sorted[1];
        if second.rank < top.rank then
          assert false;
          Some(second.brand)
        else if second.rank == top.rank then None
        else Some(top.brand)
      else Some(top.brand)
  }

  lemma WinnerFacts(ms: seq<BrandMention>)
    requires |ms| > 0
    ensures var sorted := SortBy(ms, WinKey);
      && IsBest(ms, WinKey, FirstMinIndex(ms, WinKey))
      && sorted[0] == ms[FirstMinIndex(ms, WinKey)]
      && (|ms| > 1 ==> KeyLe(WinKey(sorted[0]), WinKey(sorted[1])))
      && (TopTied(ms) <==> |ms| > 1 && WinKey(sorted[1]) == WinKey(sorted[0]))
  {
    SortFirst(ms, WinKey);
    if |ms| > 1 {
      SortSorted(ms, WinKey);
      TopTiedIffSecondTies(ms);
    } else {
      assert !TopTied(ms);
    }
  }

  lemma TopTiedIffSecondTies(ms: seq<BrandMention>)
    requires |ms| > 1
    ensures var sorted := SortBy(ms, WinKey);
      TopTied(ms) <==> WinKey(sorted[1]) == WinKey(sorted[0])
  {
    var m := FirstMinIndex(ms, WinKey);
    var sorted := SortBy(ms, WinKey);
    SortFirst(ms, WinKey);
    SortSecondTies(ms, WinKey);
    if TopTied(ms) {
      var i, j :| 0 <= i < |ms| && 0 <= j < |ms| && IsBest(ms, WinKey, i) && j != i && WinKey(ms[j]) == WinKey(ms[i]);
      assert KeyLe(WinKey(ms[i]), WinKey(ms[m])) && KeyLe(WinKey(ms[m]), WinKey(ms[i]));
      assert WinKey(ms[i]) == WinKey(ms[m]);
      var k := if i != m then i else j;
      assert k != m && WinKey(ms[k]) == WinKey(ms[m]);
    }
    if WinKey(sorted[1]) == WinKey(sorted[0]) {
      var j :| 0 <= j < |ms| && j != m && WinKey(ms[j]) == WinKey(ms[m]);
      assert IsBest(ms, WinKey, m);
    }
  }

  /**
   * The branch of `determine_winner` that returns the second mention never
   * fires: after the sort, a mention with the same count as the first never
   * has a smaller rank.
   */
  lemma WinnerSecondBranchUnreachable(ms: seq<BrandMention>)
    requires |ms| > 1
    ensures var sorted := SortBy(ms, WinKey);
      sorted[1].count == sorted[0].count ==> sorted[1].rank >= sorted[0].rank
  {
    SortSorted(ms, WinKey);
  }

  /** A mention is first among the best: nothing before it is as good. */
  predicate IsFirstBest(ms: seq<BrandMention>, key: BrandMention -> Key, i: int) {
    IsBest(ms, key, i) && forall k :: 0 <= k < i ==> !KeyLe(key(ms[k]), key(ms[i]))
  }

  /**
   * `determine_loser`: `None` below two mentions; otherwise the brand with
   * the fewest mentions, a count tie going to the later rank and a full tie
   * to the mention that comes first.
   */
  function DetermineLoser(ms: seq<BrandMention>): (r: Option<string>)
    ensures r.None? <==> |ms| < 2
    ensures r.Some? ==> exists i :: IsFirstBest(ms, LoseKey, i) && ms[i].brand == r.value
  {
    if |ms| < 2 then None
    else
      SortFirst(ms, LoseKey);
      Some(SortBy(ms, LoseKey)[0].brand)
  }

  /** The unit-test cases of `determine_winner` and `determine_loser`. */
  lemma WinnerLoserExamples()
    ensures DetermineWinner([]) == None
    ensures DetermineWinner([BrandMention("Nike", 3, 1, "", false), BrandMention("Adidas", 2, 2, "", false)]) == Some("Nike")
    ensures DetermineWinner([BrandMention("Nike", 2, 2, "", false), BrandMention("Adidas", 2, 1, "", false)]) == Some("Adidas")
    ensures DetermineWinner([BrandMention("Nike", 2, 1, "", false), BrandMention("Adidas", 2, 1, "", false)]) == None
    ensures DetermineLoser([BrandMention("Nike", 3, 1, "", false)]) == None
    ensures DetermineLoser([BrandMention("Nike", 3, 1, "", false), BrandMention("Adidas", 1, 2, "", false)]) == Some("Adidas")
  {
    var a := [BrandMention("Nike", 3, 1, "", false), BrandMention("Adidas", 2, 2, "", false)];
    assert SortBy(a, WinKey) == [a[0], a[1]];
    var b := [BrandMention("Nike", 2, 2, "", false), BrandMention("Adidas", 2, 1, "", false)];
    assert SortBy(b, WinKey) == [b[1], b[0]];
    var c := [BrandMention("Nike", 2, 1, "", false), BrandMention("Adidas", 2, 1, "", false)];
    assert SortBy(c, WinKey) == [c[0], c[1]];
    var d := [BrandMention("Nike", 3, 1, "", false), BrandMention("Adidas", 1, 2, "", false)];
    assert SortBy(d, LoseKey) == [d[1], d[0]];
  }

  // ---------------------------------------------------------------------------
  // Per-brand metrics
  // ---------------------------------------------------------------------------

  /** One platform's entry of `platform_breakdown`. */
  datatype PlatformStats = PlatformStats(
    visibilityScore: int,
    citationShare: int,
    mentions: int,
    promptsWithMention: int)

  /** `BrandMetrics`: everything `calculate_brand_metrics` fills in for one brand. */
  datatype BrandMetrics = BrandMetrics(
    brand: string,
    visibilityScore: int,
    citationShare: int,
    totalMentions: int,
    totalPromptsAnalyzed: int,
    promptsWithMention: int,
    promptsMissed: int,
    promptsWon: int,
    promptsLost: int,
    promptsTied: int,
    platformBreakdown: map<string, PlatformStats>,
    topContexts: seq<string>)

  /**
   * The running totals of the main loop of `calculate_brand_metrics`, one
   * field per accumulator of the source (the three per-platform dictionaries
   * always share their keys).
   */
  datatype Tally = Tally(
    prompts: int,
    withMention: int,
    missed: int,
    won: int,
    lost: int,
    tied: int,
    allMentions: int,
    brandMentions: int,
    promptsBy: map<string, int>,
    mentionsBy: map<string, int>,
    withMentionBy: map<string, int>,
    contexts: seq<string>)

  function Lookup(m: map<string, int>, k: string): int {
    if k in m then m[k] else 0
  }

  /** How one prompt result counts for the brand's wins, losses and ties. */
  datatype Outcome = Won | Lost | Tied | NotCounted

  /**
   * The win/loss check: a truthy winner equal to the brand is a win;
   * otherwise, if the brand was mentioned, it lost when it is the truthy
   * loser and tied when not; with no truthy winner nothing is counted.
   */
  function OutcomeOf(r: PromptResult, brand: string, found: bool): Outcome {
    if !Truthy(r.promptWinner) then NotCounted
    else if EqualsIgnoreCase(r.promptWinner.value, brand) then Won
    else if !found then NotCounted
    else if Truthy(r.promptLoser) && EqualsIgnoreCase(r.promptLoser.value, brand) then Lost
    else Tied
  }

  function CountIf(b: bool): int {
    if b then 1 else 0
  }

  /** How one prompt result moves the totals for `brand`. */
  function Step(t: Tally, r: PromptResult, brand: string): Tally {
    var p := r.platform;
    var isNew := p !in t.promptsBy;
    var bm := FirstMention(r.mentions, brand);
    var found := bm.Some?;
    var count := if found then bm.value.count else 0;
    var outcome := OutcomeOf(r, brand, found);
    Tally(
      t.prompts + 1,
      t.withMention + CountIf(found),
      t.missed + CountIf(!found),
      t.won + CountIf(outcome == Won),
      t.lost + CountIf(outcome == Lost),
      t.tied + CountIf(outcome == Tied),
      t.allMentions + SumCounts(r.mentions),
      t.brandMentions + count,
      Bump(Register(t.promptsBy, p, isNew), p, 1),
      if found then Bump(Register(t.mentionsBy, p, isNew), p, count) else Register(t.mentionsBy, p, isNew),
      if found then Bump(Register(t.withMentionBy, p, isNew), p, 1) else Register(t.withMentionBy, p, isNew),
      if found && bm.value.context != "" then t.contexts + [bm.value.context] else t.contexts)
  }

  /** `if platform not in ...: ...[platform] = 0` */
  function Register(m: map<string, int>, p: string, isNew: bool): map<string, int> {
    if isNew then m[p := 0] else m
  }

  /** `...[platform] += d` */
  function Bump(m: map<string, int>, p: string, d: int): map<string, int> {
    m[p := Lookup(m, p) + d]
  }

  const NoTally := Tally(0, 0, 0, 0, 0, 0, 0, 0, map[], map[], map[], [])

  /** The totals after the first `|rs|` prompt results. */
  function TallyOf(rs: seq<PromptResult>, brand: string): Tally {
    if rs == [] then NoTally else Step(TallyOf(rs[..|rs| - 1], brand), rs[|rs| - 1], brand)
  }

  /** The platforms of a list of results. */
  function Platforms(rs: seq<PromptResult>): set<string> {
    set i | 0 <= i < |rs| :: rs[i].platform
  }

  /** The three per-platform totals have an entry for exactly the platforms seen. */
  lemma {:induction false} TallyPlatforms(rs: seq<PromptResult>, brand: string)
    ensures var t := TallyOf(rs, brand);
      t.promptsBy.Keys == t.mentionsBy.Keys == t.withMentionBy.Keys == Platforms(rs)
  {
    if rs != [] {
      var n := |rs|;
      TallyPlatforms(rs[..n - 1], brand);
      PlatformsSnoc(rs);
      StepPlatforms(TallyOf(rs[..n - 1], brand), rs[n - 1], brand);
    }
  }

  lemma StepPlatforms(t: Tally, r: PromptResult, brand: string)
    ensures var t' := Step(t, r, brand);
      && t'.promptsBy.Keys == t.promptsBy.Keys + {r.platform}
      && (t.mentionsBy.Keys == t.promptsBy.Keys ==> t'.mentionsBy.Keys == t'.promptsBy.Keys)
      && (t.withMentionBy.Keys == t.promptsBy.Keys ==> t'.withMentionBy.Keys == t'.promptsBy.Keys)
  {
  }

  lemma PlatformsSnoc(rs: seq<PromptResult>)
    requires rs != []
    ensures Platforms(rs) == Platforms(rs[..|rs| - 1]) + {rs[|rs| - 1].platform}
  {
    var n := |rs|;
    forall x | x in Platforms(rs) ensures x in Platforms(rs[..n - 1]) + {rs[n - 1].platform} {
      var i :| 0 <= i < n && rs[i].platform == x;
      if i < n - 1 {
        assert rs[..n - 1][i] == rs[i];
      }
    }
    forall x | x in Platforms(rs[..n - 1]) ensures x in Platforms(rs) {
      var i :| 0 <= i < n - 1 && rs[..n - 1][i].platform == x;
      assert rs[i] == rs[..n - 1][i];
    }
  }

  /** The sum of all mention counts of the results on `platform`. */
  function PlatformTotalMentions(rs: seq<PromptResult>, platform: string): int {
    if rs == [] then 0
    else
      var last := rs[|rs| - 1];
      PlatformTotalMentions(rs[..|rs| - 1], platform) + (if last.platform == platform then SumCounts(last.mentions) else 0)
  }

  /** The deduplication key of a context: its first 50 characters, lower-cased. */
  function ContextKey(c: string): string {
    PyTake(Lower(c), 50)
  }

  /** `top_contexts`: the first five deduplicated contexts. */
  function TopContexts(cs: seq<string>): seq<string> {
    PyTake(DedupBy(cs, ContextKey), 5)
  }

  function Breakdown(rs: seq<PromptResult>, t: Tally): map<string, PlatformStats> {
    map p | p in t.promptsBy :: PlatformStats(
      Percent(Lookup(t.withMentionBy, p), t.promptsBy[p]),
      Percent(Lookup(t.mentionsBy, p), PlatformTotalMentions(rs, p)),
      Lookup(t.mentionsBy, p),
      Lookup(t.withMentionBy, p))
  }

  /** The metrics `calculate_brand_metrics` returns for `brand`. */
  function BrandMetricsOf(brand: string, rs: seq<PromptResult>): BrandMetrics {
    var t := TallyOf(rs, brand);
    BrandMetrics(
      brand,
      Percent(t.withMention, t.prompts),
      Percent(t.brandMentions, t.allMentions),
      t.brandMentions,
      t.prompts,
      t.withMention,
      t.missed,
      t.won,
      t.lost,
      t.tied,
      Breakdown(rs, t),
      TopContexts(t.contexts))
  }

  /** One entry of `platform_breakdown`, from the platform's totals. */
  function StatsFor(rs: seq<PromptResult>, p: string, prompts: int, withMention: int, mentions: int): PlatformStats {
    PlatformStats(Percent(withMention, prompts), Percent(mentions, PlatformTotalMentions(rs, p)), mentions, withMention)
  }

  /** `calculate_brand_metrics` (`allBrands` is accepted and unused, as in the source). */
  method CalculateBrandMetrics(brand: string, promptResults: seq<PromptResult>, allBrands: seq<string>)
    returns (metrics: BrandMetrics)
    ensures metrics == BrandMetricsOf(brand, promptResults)
  {
    var t := TallyResults(brand, promptResults);
    var breakdown := BuildBreakdown(promptResults, t);
    var topContexts := SelectTopContexts(t.contexts);
    metrics := BrandMetrics(
      brand,
      Percent(t.withMention, t.prompts),
      Percent(t.brandMentions, t.allMentions),
      t.brandMentions, t.prompts, t.withMention, t.missed, t.won, t.lost, t.tied,
      breakdown, topContexts);
  }

  /** The main loop of `calculate_brand_metrics`, over all prompt results. */
  method TallyResults(brand: string, promptResults: seq<PromptResult>) returns (t: Tally)
    ensures t == TallyOf(promptResults, brand)
    ensures t.promptsBy.Keys == t.mentionsBy.Keys == t.withMentionBy.Keys
  {
    t := NoTally;
    var i := 0;
    while i < |promptResults|
      invariant 0 <= i <= |promptResults|
      invariant t == TallyOf(promptResults[..i], brand)
      invariant t.promptsBy.Keys == t.mentionsBy.Keys == t.withMentionBy.Keys
    {
      t := AddResult(t, promptResults[i], brand);
      assert promptResults[..i + 1][..i] == promptResults[..i];
      i := i + 1;
      TallyPlatforms(promptResults[..i], brand);
    }
    assert promptResults[..i] == promptResults;
  }

  /** One iteration of the main loop: the totals after also counting `result`. */
  method AddResult(t0: Tally, result: PromptResult, brand: string) returns (t: Tally)
    requires t0.promptsBy.Keys == t0.mentionsBy.Keys == t0.withMentionBy.Keys
    ensures t == Step(t0, result, brand)
  {
    var totalAllMentions, brandTotalMentions, contexts := t0.allMentions, t0.brandMentions, t0.contexts;
    var totalPrompts, withMention, missed, won, lost, tied := t0.prompts, t0.withMention, t0.missed, t0.won, t0.lost, t0.tied;

    totalPrompts := totalPrompts + 1;
    var resultMentions := SumMentionCounts(result.mentions);
    totalAllMentions := totalAllMentions + resultMentions;

    var brandMention := FirstMention(result.mentions, brand);
    var promptsBy, mentionsBy, withMentionBy := CountForPlatform(t0, result, brand, brandMention);
    if brandMention.Some? {
      withMention := withMention + 1;
      brandTotalMentions := brandTotalMentions + brandMention.value.count;
      if brandMention.value.context != "" {
        contexts := contexts + [brandMention.value.context];
      }
    } else {
      missed := missed + 1;
    }

    won, lost, tied := CountOutcome(won, lost, tied, result, brand, brandMention.Some?);

    t := Tally(totalPrompts, withMention, missed, won, lost, tied,
      totalAllMentions, brandTotalMentions, promptsBy, mentionsBy, withMentionBy, contexts);
    ghost var s := Step(t0, result, brand);
    assert t.withMention == s.withMention && t.missed == s.missed && t.brandMentions == s.brandMentions;
    assert t.contexts == s.contexts;
    assert t.won == s.won && t.lost == s.lost && t.tied == s.tied;
    assert t.prompts == s.prompts && t.allMentions == s.allMentions;
  }

  /** The per-platform part of the main loop: register the platform, then count the result on it. */
  method CountForPlatform(t0: Tally, result: PromptResult, brand: string, brandMention: Option<BrandMention>)
    returns (promptsBy: map<string, int>, mentionsBy: map<string, int>, withMentionBy: map<string, int>)
    requires t0.promptsBy.Keys == t0.mentionsBy.Keys == t0.withMentionBy.Keys
    requires brandMention == FirstMention(result.mentions, brand)
    ensures var s := Step(t0, result, brand);
      promptsBy == s.promptsBy && mentionsBy == s.mentionsBy && withMentionBy == s.withMentionBy
  {
    promptsBy, mentionsBy, withMentionBy := t0.promptsBy, t0.mentionsBy, t0.withMentionBy;
    var platform := result.platform;
    ghost var isNew := platform !in promptsBy;
    if platform !in promptsBy {
      promptsBy := promptsBy[platform := 0];
      mentionsBy := mentionsBy[platform := 0];
      withMentionBy := withMentionBy[platform := 0];
    }
    assert promptsBy == Register(t0.promptsBy, platform, isNew);
    assert mentionsBy == Register(t0.mentionsBy, platform, isNew);
    assert withMentionBy == Register(t0.withMentionBy, platform, isNew);
    assert platform in promptsBy && platform in mentionsBy && platform in withMentionBy;
    promptsBy := promptsBy[platform := promptsBy[platform] + 1];
    if brandMention.Some? {
      withMentionBy := withMentionBy[platform := withMentionBy[platform] + 1];
      mentionsBy := mentionsBy[platform := mentionsBy[platform] + brandMention.value.count];
    }
  }

  /** The win/loss check of the main loop of `calculate_brand_metrics`. */
  method CountOutcome(won0: int, lost0: int, tied0: int, result: PromptResult, brand: string, found: bool)
    returns (won: int, lost: int, tied: int)
    ensures var o := OutcomeOf(result, brand, found);
      won == won0 + CountIf(o == Won) && lost == lost0 + CountIf(o == Lost) && tied == tied0 + CountIf(o == Tied)
  {
    won, lost, tied := won0, lost0, tied0;
    if Truthy(result.promptWinner) {
      if EqualsIgnoreCase(result.promptWinner.value, brand) {
        won := won + 1;
      } else if found {
        if Truthy(result.promptLoser) && EqualsIgnoreCase(result.promptLoser.value, brand) {
          lost := lost + 1;
        } else {
          tied := tied + 1;
        }
      }
    }
  }

  /** The inner loop of `calculate_brand_metrics`: the sum of all mention counts of one result. */
  method SumMentionCounts(mentions: seq<BrandMention>) returns (total: int)
    ensures total == SumCounts(mentions)
  {
    total := 0;
    var j := 0;
    while j < |mentions|
      invariant 0 <= j <= |mentions|
      invariant total == SumCounts(mentions[..j])
    {
      assert mentions[..j + 1][..j] == mentions[..j];
      total := total + mentions[j].count;
      j := j + 1;
    }
    assert mentions[..j] == mentions;
  }

  /** The loop that fills `platform_breakdown`, one platform seen in the results at a time. */
  method BuildBreakdown(promptResults: seq<PromptResult>, t: Tally) returns (breakdown: map<string, PlatformStats>)
    requires t.promptsBy.Keys == t.mentionsBy.Keys == t.withMentionBy.Keys
    ensures breakdown == Breakdown(promptResults, t)
  {
    breakdown := map[];
    var remaining := t.promptsBy.Keys;
    while remaining != {}
      invariant remaining <= t.promptsBy.Keys
      invariant breakdown == map p | p in t.promptsBy.Keys - remaining ::
        StatsFor(promptResults, p, t.promptsBy[p], t.withMentionBy[p], t.mentionsBy[p])
      decreases |remaining|
    {
      var platform :| platform in remaining;
      var totalPrompts := t.promptsBy[platform];
      var promptsMentioned := t.withMentionBy[platform];
      var mentions := t.mentionsBy[platform];
      var platformTotalMentions := PlatformTotalMentions(promptResults, platform);
      breakdown := breakdown[platform := PlatformStats(
        Percent(promptsMentioned, totalPrompts),
        Percent(mentions, platformTotalMentions),
        mentions,
        promptsMentioned)];
      remaining := remaining - {platform};
    }
    assert t.promptsBy.Keys - remaining == t.promptsBy.Keys;
  }

  /** The `seen_contexts` loop of `calculate_brand_metrics`, which stops at five contexts. */
  method SelectTopContexts(contexts: seq<string>) returns (top: seq<string>)
    ensures top == TopContexts(contexts)
  {
    top := DedupUpTo(contexts, ContextKey, 5);
  }
}
