/**
 * The records that flow between extraction, metrics and output: one brand
 * mention found in an answer, and the analysed result of one prompt on one
 * platform (the fields `main.py` fills in).
 */
module Records {
  import opened Wrappers
  import opened Text

  /** One brand found in one answer. `context` is a sentence describing the brand. */
  datatype BrandMention = BrandMention(
    brand: string,
    count: int,
    rank: int,
    context: string,
    isRecommended: bool)

  /** The analysed answer of one prompt on one platform. */
  datatype PromptResult = PromptResult(
    promptId: string,
    promptText: string,
    platform: string,
    platformModel: string,
    rawResponse: string,
    mentions: seq<BrandMention>,
    citations: seq<string>,
    promptWinner: Option<string>,
    promptLoser: Option<string>,
    yourBrandMentioned: bool,
    yourBrandRank: Option<int>,
    competitorsMentioned: seq<string>,
    competitorsMissed: seq<string>)

  /** Python truthiness of an optional string: present and non-empty. */
  predicate Truthy(s: Option<string>) {
    s.Some? && s.value != ""
  }

  /**
   * `next((m for m in mentions if m.brand.lower() == brand.lower()), None)`:
   * the first mention naming `brand`, ignoring case.
   */
  function FirstMention(mentions: seq<BrandMention>, brand: string): (r: Option<BrandMention>)
    ensures r.None? <==> forall i :: 0 <= i < |mentions| ==> !EqualsIgnoreCase(mentions[i].brand, brand)
    ensures r.Some? ==> exists i :: (0 <= i < |mentions| && mentions[i] == r.value
      && EqualsIgnoreCase(mentions[i].brand, brand)
      && forall j :: 0 <= j < i ==> !EqualsIgnoreCase(mentions[j].brand, brand))
  {
    if mentions == [] then None
    else if EqualsIgnoreCase(mentions[0].brand, brand) then Some(mentions[0])
    else
      var r := FirstMention(mentions[1..], brand);
      assert forall i :: 0 < i < |mentions| ==> mentions[i] == mentions[1..][i - 1];
      r
  }

  /** The sum of the counts of a list of mentions. */
  function SumCounts(mentions: seq<BrandMention>): int {
    if mentions == [] then 0 else SumCounts(mentions[..|mentions| - 1]) + mentions[|mentions| - 1].count
  }
}
