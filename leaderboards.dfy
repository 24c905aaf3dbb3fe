/**
 * The leaderboards of the metrics calculator: the overall ranking of all
 * brands and one ranking per platform, each sorted stably and numbered from 1.
 */
module Leaderboards {
  import opened Sorting
  import opened Metrics

  /** One row of `build_leaderboard`. */
  datatype LeaderboardEntry = LeaderboardEntry(
    rank: int,
    brand: string,
    visibilityScore: int,
    citationShare: int,
    totalMentions: int,
    promptsWon: int)

  /** One row of a platform leaderboard; `rank` is 0 until the ranks are written. */
  datatype PlatformEntry = PlatformEntry(
    brand: string,
    citationShare: int,
    mentions: int,
    rank: int)

  /** The sort key `(-m.total_mentions, -m.visibility_score)`. */
  function LeaderKey(m: BrandMetrics): Key {
    Key(-m.totalMentions, -m.visibilityScore)
  }

  /** The sort key `-x["citationShare"]`. */
  function ShareKey(e: PlatformEntry): Key {
    Key(-e.citationShare, 0)
  }

  function EntryOf(m: BrandMetrics, rank: int): LeaderboardEntry {
    LeaderboardEntry(rank, m.brand, m.visibilityScore, m.citationShare, m.totalMentions, m.promptsWon)
  }

  /** `build_leaderboard`: the metrics sorted by mentions and then visibility, numbered from 1. */
  function Leaderboard(ms: seq<BrandMetrics>): seq<LeaderboardEntry> {
    var sorted := SortBy(ms, LeaderKey);
    seq(|sorted|, i requires 0 <= i < |sorted| => EntryOf(sorted[i], i + 1))
  }

  /**
   * The leaderboard lists every brand's metrics once (a permutation of the
   * input), with more mentions first and, among equal mentions, higher
   * visibility first; the ranks are 1, 2, ..., n.
   */
  lemma LeaderboardFacts(ms: seq<BrandMetrics>) returns (sorted: seq<BrandMetrics>)
    ensures multiset(sorted) == multiset(ms)
    ensures SortedBy(sorted, LeaderKey)
    ensures |Leaderboard(ms)| == |ms| == |sorted|
    ensures forall i :: 0 <= i < |ms| ==> Leaderboard(ms)[i] == EntryOf(sorted[i], i + 1)
    ensures forall i :: 0 <= i < |ms| ==> Leaderboard(ms)[i].rank == i + 1
  {
    sorted := SortBy(ms, LeaderKey);
    SortPermutes(ms, LeaderKey);
    SortSorted(ms, LeaderKey);
  }

  /** `build_leaderboard` */
  method BuildLeaderboard(brandMetrics: seq<BrandMetrics>) returns (leaderboard: seq<LeaderboardEntry>)
    ensures leaderboard == Leaderboard(brandMetrics)
  {
    var sortedMetrics := SortBy(brandMetrics, LeaderKey);
    leaderboard := [];
    for i := 0 to |sortedMetrics|
      invariant |leaderboard| == i
      invariant forall k :: 0 <= k < i ==> leaderboard[k] == EntryOf(sortedMetrics[k], k + 1)
    {
      leaderboard := leaderboard + [EntryOf(sortedMetrics[i], i + 1)];
    }
  }

  /** The rows of the brands whose breakdown has `platform`, in input order, unranked. */
  function PlatformRows(ms: seq<BrandMetrics>, platform: string): (r: seq<PlatformEntry>)
    ensures |r| <= |ms|
  {
    if ms == [] then []
    else
      var rest := PlatformRows(ms[..|ms| - 1], platform);
      var m := ms[|ms| - 1];
      if platform in m.platformBreakdown then
        var pb := m.platformBreakdown[platform];
        rest + [PlatformEntry(m.brand, pb.citationShare, pb.mentions, 0)]
      else rest
  }

  /** Numbers the rows from 1. */
  function Ranked(rows: seq<PlatformEntry>): (r: seq<PlatformEntry>)
    ensures |r| == |rows|
    ensures forall i :: 0 <= i < |rows| ==> r[i] == rows[i].(rank := i + 1)
  {
    seq(|rows|, i requires 0 <= i < |rows| => rows[i].(rank := i + 1))
  }

  /** One platform's leaderboard: its rows sorted by citation share, highest first, and numbered. */
  function PlatformBoard(ms: seq<BrandMetrics>, platform: string): seq<PlatformEntry> {
    Ranked(SortBy(PlatformRows(ms, platform), ShareKey))
  }

  /** `build_platform_leaderboards`: a board for every requested platform. */
  function PlatformBoards(ms: seq<BrandMetrics>, platforms: seq<string>): map<string, seq<PlatformEntry>> {
    map p | p in platforms :: PlatformBoard(ms, p)
  }

  /** A row is taken from a brand whose breakdown has the platform, with its share and mentions. */
  predicate RowOf(ms: seq<BrandMetrics>, platform: string, e: PlatformEntry) {
    exists j :: 0 <= j < |ms| && platform in ms[j].platformBreakdown
      && e == PlatformEntry(ms[j].brand, ms[j].platformBreakdown[platform].citationShare,
                            ms[j].platformBreakdown[platform].mentions, 0)
  }

  /** The number of brands whose breakdown has the platform. */
  function WithPlatform(ms: seq<BrandMetrics>, platform: string): nat {
    if ms == [] then 0
    else WithPlatform(ms[..|ms| - 1], platform) + (if platform in ms[|ms| - 1].platformBreakdown then 1 else 0)
  }

  /** There is one row per brand having the platform, and each row comes from such a brand. */
  lemma {:induction false} PlatformRowsFacts(ms: seq<BrandMetrics>, platform: string)
    ensures |PlatformRows(ms, platform)| == WithPlatform(ms, platform)
    ensures forall i :: 0 <= i < |PlatformRows(ms, platform)| ==> RowOf(ms, platform, PlatformRows(ms, platform)[i])
  {
    if ms != [] {
      var n := |ms|;
      var p := ms[..n - 1];
      PlatformRowsFacts(p, platform);
      var rows := PlatformRows(ms, platform);
      var rest := PlatformRows(p, platform);
      forall i | 0 <= i < |rows| ensures RowOf(ms, platform, rows[i]) {
        if i < |rest| {
          assert rows[i] == rest[i];
          var j :| 0 <= j < |p| && platform in p[j].platformBreakdown
            && rest[i] == PlatformEntry(p[j].brand, p[j].platformBreakdown[platform].citationShare,
                                        p[j].platformBreakdown[platform].mentions, 0);
          assert ms[j] == p[j];
        } else {
          assert platform in ms[n - 1].platformBreakdown;
        }
      }
    }
  }

  /**
   * A platform board holds exactly the rows of the brands having that
   * platform (a permutation of them), sorted by citation share from the
   * highest, with ranks 1, 2, ..., k.
   */
  lemma PlatformBoardFacts(ms: seq<BrandMetrics>, platform: string) returns (sorted: seq<PlatformEntry>)
    ensures multiset(sorted) == multiset(PlatformRows(ms, platform))
    ensures SortedBy(sorted, ShareKey)
    ensures |PlatformBoard(ms, platform)| == |sorted| == WithPlatform(ms, platform)
    ensures forall i :: 0 <= i < |sorted| ==> PlatformBoard(ms, platform)[i] == sorted[i].(rank := i + 1)
    ensures forall i :: 0 <= i < |sorted| ==> RowOf(ms, platform, sorted[i])
  {
    var rows := PlatformRows(ms, platform);
    sorted := SortBy(rows, ShareKey);
    SortPermutes(rows, ShareKey);
    SortSorted(rows, ShareKey);
    PlatformRowsFacts(ms, platform);
    forall i | 0 <= i < |sorted| ensures RowOf(ms, platform, sorted[i]) {
      assert sorted[i] in multiset(rows);
      var k :| 0 <= k < |rows| && rows[k] == sorted[i];
    }
  }

  /** Every requested platform has a board, possibly empty, and no other key appears. */
  lemma PlatformBoardsKeys(ms: seq<BrandMetrics>, platforms: seq<string>)
    ensures PlatformBoards(ms, platforms).Keys == set p | p in platforms
    ensures forall p :: p in platforms ==> PlatformBoards(ms, platforms)[p] == PlatformBoard(ms, p)
  {
  }

  /** `build_platform_leaderboards` */
  method BuildPlatformLeaderboards(brandMetrics: seq<BrandMetrics>, platforms: seq<string>)
    returns (boards: map<string, seq<PlatformEntry>>)
    ensures boards == PlatformBoards(brandMetrics, platforms)
  {
    boards := map[];
    for k := 0 to |platforms|
      invariant boards == map p | p in platforms[..k] :: PlatformBoard(brandMetrics, p)
    {
      var platform := platforms[k];
      var platformData := CollectRows(brandMetrics, platform);
      platformData := SortBy(platformData, ShareKey);
      platformData := AssignRanks(platformData);
      boards := boards[platform := platformData];
      assert platforms[..k + 1] == platforms[..k] + [platform];
    }
    assert platforms[..|platforms|] == platforms;
  }

  /** The loop of `build_platform_leaderboards` that gathers one platform's rows. */
  method CollectRows(brandMetrics: seq<BrandMetrics>, platform: string) returns (rows: seq<PlatformEntry>)
    ensures rows == PlatformRows(brandMetrics, platform)
  {
    rows := [];
    for j := 0 to |brandMetrics|
      invariant rows == PlatformRows(brandMetrics[..j], platform)
    {
      var m := brandMetrics[j];
      if platform in m.platformBreakdown {
        var pb := m.platformBreakdown[platform];
        rows := rows + [PlatformEntry(m.brand, pb.citationShare, pb.mentions, 0)];
      }
      assert brandMetrics[..j + 1][..j] == brandMetrics[..j];
    }
    assert brandMetrics[..|brandMetrics|] == brandMetrics;
  }

  /** The loop that writes `rank` into each row. */
  method AssignRanks(rows0: seq<PlatformEntry>) returns (rows: seq<PlatformEntry>)
    ensures rows == Ranked(rows0)
  {
    rows := rows0;
    for i := 0 to |rows|
      invariant |rows| == |rows0|
      invariant forall k :: 0 <= k < i ==> rows[k] == rows0[k].(rank := k + 1)
      invariant forall k :: i <= k < |rows| ==> rows[k] == rows0[k]
    {
      rows := rows[i := rows[i].(rank := i + 1)];
    }
  }
}
