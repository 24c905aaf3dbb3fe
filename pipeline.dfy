/**
 * The run of the actor (`main`): every prompt is sent to every platform in
 * batches of five, the successful answers are analysed into prompt results,
 * the brands are scored and ranked, and the run is billed and summarised.
 */
module Pipeline {
  import opened Wrappers
  import opened Text
  import opened Seqs
  import opened Records
  import opened ErrorTracking
  import opened Metrics
  import opened Leaderboards
  import opened Formatters
  import Json
  import Retry
  import Config
  import MentionExtraction

  function Min(a: int, b: int): int {
    if a <= b then a else b
  }

  // ---------------------------------------------------------------------------
  // Querying the platforms
  // ---------------------------------------------------------------------------

  /** `BATCH_SIZE` */
  const BatchSize := 5

  /** `f"{platform.value}_prompt_{prompt_idx:03d}"` */
  function PromptId(platform: string, idx: nat): string {
    platform + "_prompt_" + ZeroPadded(idx, 3)
  }

  /** Two prompts of one platform share an id exactly when they have the same index. */
  lemma PromptIdInjective(platform: string, i: nat, j: nat)
    ensures PromptId(platform, i) == PromptId(platform, j) <==> i == j
  {
    if PromptId(platform, i) == PromptId(platform, j) {
      var n := |platform + "_prompt_"|;
      assert ZeroPadded(i, 3) == PromptId(platform, i)[n..];
      assert ZeroPadded(j, 3) == PromptId(platform, j)[n..];
      ZeroPaddedInjective(i, j, 3);
    }
  }

  /** The number of batches, `len(range(0, n, BATCH_SIZE))`. */
  function BatchCount(n: nat): nat {
    (n + BatchSize - 1) / BatchSize
  }

  /** `batch_start` of batch `k`. */
  function BatchStart(k: nat): nat {
    BatchSize * k
  }

  /** `batch_end = min(batch_start + BATCH_SIZE, len(all_prompts))` of batch `k`. */
  function BatchEnd(n: nat, k: nat): int {
    Min(BatchStart(k) + BatchSize, n)
  }

  /** Prompt `i` of `n` is sent in batch `k`. */
  predicate InBatch(n: nat, k: nat, i: nat) {
    BatchStart(k) <= i < BatchEnd(n, k)
  }

  /**
   * The batches are consecutive, non-empty slices of at most five prompts
   * that start at 0 and end at `n`, and prompt `i` lies in batch `i / 5` and
   * in no other.
   */
  lemma BatchesPartition(n: nat)
    ensures n == 0 <==> BatchCount(n) == 0
    ensures n > 0 ==> BatchEnd(n, BatchCount(n) - 1) == n
    ensures forall k :: 0 <= k < BatchCount(n) ==> BatchStart(k) < BatchEnd(n, k) <= BatchStart(k) + BatchSize
    ensures forall k :: 0 <= k < BatchCount(n) - 1 ==> BatchEnd(n, k) == BatchStart(k + 1)
    ensures forall i: nat, k: nat :: i < n && k < BatchCount(n) ==> (InBatch(n, k, i) <==> k == i / BatchSize)
  {
    var c := BatchCount(n);
    assert 5 * c <= n + 4 < 5 * c + 5;
    forall i: nat, k: nat | i < n && k < c
      ensures InBatch(n, k, i) <==> k == i / BatchSize
    {
      BatchOfPrompt(i, k);
    }
  }

  lemma BatchOfPrompt(i: nat, k: nat)
    ensures BatchStart(k) <= i < BatchStart(k) + BatchSize <==> k == i / BatchSize
  {
    var q := i / 5;
    assert 5 * q <= i < 5 * q + 5;
    if 5 * k <= i < 5 * k + 5 {
      assert 5 * k < 5 * q + 5 && 5 * q < 5 * k + 5;
    }
  }

  /** The dict `query_single_prompt` returns; a successful one has no `error`, shown here as `None`. */
  datatype ResponseRecord = ResponseRecord(
    promptId: string,
    promptText: string,
    platform: string,
    model: string,
    response: string,
    success: bool,
    error: Option<string>)

  /** What `client.query_with_retry(prompt_text, max_retries=2)` did: returned a result, or raised. */
  datatype Attempt = Answered(result: Retry.QueryResult) | Raised(message: string)

  /** The record `query_single_prompt` returns for one prompt. */
  function ResponseOf(platform: string, promptText: string, promptId: string, a: Attempt): ResponseRecord {
    match a
    case Answered(res) =>
      if res.success then ResponseRecord(promptId, promptText, platform, res.model, res.response, true, None)
      else ResponseRecord(promptId, promptText, platform, res.model, "", false, res.error)
    case Raised(message) => ResponseRecord(promptId, promptText, platform, "", "", false, Some(message))
  }

  /** `f"{platform.value}:{prompt_id}"`, the context of the tracker entries. */
  function Operation(platform: string, promptId: string): string {
    platform + ":" + promptId
  }

  /** The error `query_single_prompt` records: one for a failed result or an exception. */
  function QueryErrors(platform: string, promptId: string, a: Attempt): seq<ErrorRecord> {
    match a
    case Answered(res) =>
      if res.success then []
      else
        var message := if Truthy(res.error) then res.error.value else "Unknown error";
        [ErrorRecord("query_failed", message, Some(Operation(platform, promptId)), true)]
    case Raised(message) => [ErrorRecord("query_exception", message, Some(Operation(platform, promptId)), true)]
  }

  /** The success `query_single_prompt` records, with the first 50 characters of the prompt. */
  function QuerySuccesses(platform: string, promptText: string, promptId: string, a: Attempt): seq<SuccessRecord> {
    if a.Answered? && a.result.success then
      [SuccessRecord(Operation(platform, promptId), Some(Json.JObj([("prompt", Json.JStr(PyTake(promptText, 50)))])))]
    else []
  }

  /**
   * Every prompt gets one record, successful exactly when the client
   * returned a successful result and with an empty answer otherwise, and
   * exactly one tracker entry: a success, or a recoverable error about this
   * prompt whose message is the client's error when it has one.
   */
  lemma QueryOutcome(platform: string, promptText: string, promptId: string, a: Attempt)
    ensures var r := ResponseOf(platform, promptText, promptId, a);
      && r.promptId == promptId && r.promptText == promptText && r.platform == platform
      && (r.success <==> a.Answered? && a.result.success)
      && (r.success ==> r.response == a.result.response && r.model == a.result.model && r.error.None?)
      && (!r.success ==> r.response == "")
    ensures var es := QueryErrors(platform, promptId, a);
      var ss := QuerySuccesses(platform, promptText, promptId, a);
      && |es| + |ss| == 1
      && (|ss| == 1 <==> ResponseOf(platform, promptText, promptId, a).success)
      && forall i :: 0 <= i < |es| ==> es[i].recoverable && es[i].context == Some(Operation(platform, promptId))
    ensures a.Answered? && !a.result.success && Truthy(a.result.error) ==>
      QueryErrors(platform, promptId, a) == [ErrorRecord("query_failed", a.result.error.value, Some(Operation(platform, promptId)), true)]
  {
  }

  /** `query_single_prompt` */
  method QuerySinglePrompt(tracker: ErrorTracker, platform: string, promptText: string, promptId: string, a: Attempt)
    returns (r: ResponseRecord)
    modifies tracker
    ensures r == ResponseOf(platform, promptText, promptId, a)
    ensures tracker.errors == old(tracker.errors) + QueryErrors(platform, promptId, a)
    ensures tracker.successes == old(tracker.successes) + QuerySuccesses(platform, promptText, promptId, a)
    ensures tracker.warnings == old(tracker.warnings)
  {
    match a
    case Answered(result) =>
      if result.success {
        tracker.AddSuccess(Operation(platform, promptId),
          Some(Json.JObj([("prompt", Json.JStr(PyTake(promptText, 50)))])));
        r := ResponseRecord(promptId, promptText, platform, result.model, result.response, true, None);
      } else {
        var message := if Truthy(result.error) then result.error.value else "Unknown error";
        tracker.AddError("query_failed", message, context := Some(Operation(platform, promptId)));
        r := ResponseRecord(promptId, promptText, platform, result.model, "", false, result.error);
      }
    case Raised(message) =>
      tracker.AddError("query_exception", message, context := Some(Operation(platform, promptId)));
      r := ResponseRecord(promptId, promptText, platform, "", "", false, Some(message));
  }

  /** The records of prompts `lo` to `hi` of one platform, each with its index in its id. */
  function Responses(platform: string, prompts: seq<string>, answers: (string, nat) -> Attempt, lo: nat, hi: nat): (rs: seq<ResponseRecord>)
    requires lo <= hi <= |prompts|
    ensures |rs| == hi - lo
    decreases hi
  {
    if hi == lo then []
    else
      Responses(platform, prompts, answers, lo, hi - 1)
      + [ResponseOf(platform, prompts[hi - 1], PromptId(platform, hi - 1), answers(platform, hi - 1))]
  }

  /** The errors recorded for prompts `lo` to `hi` of one platform, in prompt order. */
  function Errors(platform: string, answers: (string, nat) -> Attempt, lo: nat, hi: nat): seq<ErrorRecord>
    requires lo <= hi
    decreases hi
  {
    if hi == lo then []
    else
      Errors(platform, answers, lo, hi - 1) + QueryErrors(platform, PromptId(platform, hi - 1), answers(platform, hi - 1))
  }

  /** The successes recorded for prompts `lo` to `hi` of one platform, in prompt order. */
  function Successes(platform: string, prompts: seq<string>, answers: (string, nat) -> Attempt, lo: nat, hi: nat): seq<SuccessRecord>
    requires lo <= hi <= |prompts|
    decreases hi
  {
    if hi == lo then []
    else
      Successes(platform, prompts, answers, lo, hi - 1)
      + QuerySuccesses(platform, prompts[hi - 1], PromptId(platform, hi - 1), answers(platform, hi - 1))
  }

  /** The records, errors and successes of consecutive ranges of prompts add up. */
  lemma RangesJoin(platform: string, prompts: seq<string>, answers: (string, nat) -> Attempt, a: nat, b: nat, c: nat)
    requires a <= b <= c <= |prompts|
    ensures Responses(platform, prompts, answers, a, b) + Responses(platform, prompts, answers, b, c)
      == Responses(platform, prompts, answers, a, c)
    ensures Errors(platform, answers, a, b) + Errors(platform, answers, b, c) == Errors(platform, answers, a, c)
    ensures Successes(platform, prompts, answers, a, b) + Successes(platform, prompts, answers, b, c)
      == Successes(platform, prompts, answers, a, c)
  {
    ResponsesJoin(platform, prompts, answers, a, b, c);
    ErrorsJoin(platform, answers, a, b, c);
    SuccessesJoin(platform, prompts, answers, a, b, c);
  }

  lemma {:induction false} ResponsesJoin(platform: string, prompts: seq<string>, answers: (string, nat) -> Attempt, a: nat, b: nat, c: nat)
    requires a <= b <= c <= |prompts|
    ensures Responses(platform, prompts, answers, a, b) + Responses(platform, prompts, answers, b, c)
      == Responses(platform, prompts, answers, a, c)
    decreases c
  {
    if b < c {
      ResponsesJoin(platform, prompts, answers, a, b, c - 1);
      AppendAssociates(Responses(platform, prompts, answers, a, b), Responses(platform, prompts, answers, b, c - 1),
                       [ResponseOf(platform, prompts[c - 1], PromptId(platform, c - 1), answers(platform, c - 1))]);
    }
  }

  lemma {:induction false} ErrorsJoin(platform: string, answers: (string, nat) -> Attempt, a: nat, b: nat, c: nat)
    requires a <= b <= c
    ensures Errors(platform, answers, a, b) + Errors(platform, answers, b, c) == Errors(platform, answers, a, c)
    decreases c
  {
    if b < c {
      ErrorsJoin(platform, answers, a, b, c - 1);
      AppendAssociates(Errors(platform, answers, a, b), Errors(platform, answers, b, c - 1),
                       QueryErrors(platform, PromptId(platform, c - 1), answers(platform, c - 1)));
    }
  }

  lemma {:induction false} SuccessesJoin(platform: string, prompts: seq<string>, answers: (string, nat) -> Attempt, a: nat, b: nat, c: nat)
    requires a <= b <= c <= |prompts|
    ensures Successes(platform, prompts, answers, a, b) + Successes(platform, prompts, answers, b, c)
      == Successes(platform, prompts, answers, a, c)
    decreases c
  {
    if b < c {
      SuccessesJoin(platform, prompts, answers, a, b, c - 1);
      AppendAssociates(Successes(platform, prompts, answers, a, b), Successes(platform, prompts, answers, b, c - 1),
                       QuerySuccesses(platform, prompts[c - 1], PromptId(platform, c - 1), answers(platform, c - 1)));
    }
  }

  lemma AppendAssociates<T>(x: seq<T>, a: seq<T>, b: seq<T>)
    ensures x + a + b == x + (a + b)
  {
  }

  /** The `i`-th record of a range is the record of prompt `lo + i`, under the id of that index. */
  lemma {:induction false} ResponsesAt(platform: string, prompts: seq<string>, answers: (string, nat) -> Attempt, lo: nat, hi: nat)
    requires lo <= hi <= |prompts|
    ensures forall i :: 0 <= i < hi - lo ==>
      Responses(platform, prompts, answers, lo, hi)[i]
        == ResponseOf(platform, prompts[lo + i], PromptId(platform, lo + i), answers(platform, lo + i))
    decreases hi
  {
    if lo < hi {
      ResponsesAt(platform, prompts, answers, lo, hi - 1);
    }
  }

  /** The records of one platform: one per prompt, in prompt order. */
  function PlatformResponses(platform: string, prompts: seq<string>, answers: (string, nat) -> Attempt): seq<ResponseRecord> {
    Responses(platform, prompts, answers, 0, |prompts|)
  }

  /** The records, errors and successes up to prompt `k + 1` are those up to `k` and those of prompt `k`. */
  lemma BatchStep(platform: string, prompts: seq<string>, answers: (string, nat) -> Attempt, lo: nat, k: nat)
    requires lo <= k < |prompts|
    ensures Responses(platform, prompts, answers, lo, k + 1)
      == Responses(platform, prompts, answers, lo, k) + [ResponseOf(platform, prompts[k], PromptId(platform, k), answers(platform, k))]
    ensures Errors(platform, answers, lo, k + 1)
      == Errors(platform, answers, lo, k) + QueryErrors(platform, PromptId(platform, k), answers(platform, k))
    ensures Successes(platform, prompts, answers, lo, k + 1)
      == Successes(platform, prompts, answers, lo, k) + QuerySuccesses(platform, prompts[k], PromptId(platform, k), answers(platform, k))
  {
  }

  /** One batch of `query_platform`: the prompts from `batchStart` to `batchEnd`, one after the other. */
  method QueryBatch(tracker: ErrorTracker, platform: string, allPrompts: seq<string>, answers: (string, nat) -> Attempt,
                    batchStart: nat, batchEnd: nat)
    returns (batchResults: seq<ResponseRecord>)
    requires batchStart <= batchEnd <= |allPrompts|
    modifies tracker
    ensures batchResults == Responses(platform, allPrompts, answers, batchStart, batchEnd)
    ensures tracker.errors == old(tracker.errors) + Errors(platform, answers, batchStart, batchEnd)
    ensures tracker.successes == old(tracker.successes) + Successes(platform, allPrompts, answers, batchStart, batchEnd)
    ensures tracker.warnings == old(tracker.warnings)
  {
    var batchPrompts := allPrompts[batchStart..batchEnd];
    batchResults := [];
    for i := 0 to |batchPrompts|
      invariant batchResults == Responses(platform, allPrompts, answers, batchStart, batchStart + i)
      invariant tracker.errors == old(tracker.errors) + Errors(platform, answers, batchStart, batchStart + i)
      invariant tracker.successes == old(tracker.successes) + Successes(platform, allPrompts, answers, batchStart, batchStart + i)
      invariant tracker.warnings == old(tracker.warnings)
    {
      var promptIdx := batchStart + i;
      var promptId := PromptId(platform, promptIdx);
      assert batchPrompts[i] == allPrompts[promptIdx];
      var result := QuerySinglePrompt(tracker, platform, batchPrompts[i], promptId, answers(platform, promptIdx));
      batchResults := batchResults + [result];
      BatchStep(platform, allPrompts, answers, batchStart, promptIdx);
      AppendAssociates(old(tracker.errors), Errors(platform, answers, batchStart, promptIdx),
                       QueryErrors(platform, promptId, answers(platform, promptIdx)));
      AppendAssociates(old(tracker.successes), Successes(platform, allPrompts, answers, batchStart, promptIdx),
                       QuerySuccesses(platform, allPrompts[promptIdx], promptId, answers(platform, promptIdx)));
    }
  }

  /**
   * `query_platform`: the prompts in batches of five, each batch's records
   * appended in prompt order (the queries of one batch run one after the
   * other here).
   */
  method QueryPlatform(tracker: ErrorTracker, platform: string, allPrompts: seq<string>, answers: (string, nat) -> Attempt)
    returns (platformResponses: seq<ResponseRecord>)
    modifies tracker
    ensures platformResponses == PlatformResponses(platform, allPrompts, answers)
    ensures tracker.errors == old(tracker.errors) + Errors(platform, answers, 0, |allPrompts|)
    ensures tracker.successes == old(tracker.successes) + Successes(platform, allPrompts, answers, 0, |allPrompts|)
    ensures tracker.warnings == old(tracker.warnings)
  {
    var n := |allPrompts|;
    platformResponses := [];
    var batchStart := 0;
    while batchStart < n
      invariant batchStart <= n
      invariant platformResponses == Responses(platform, allPrompts, answers, 0, batchStart)
      invariant tracker.errors == old(tracker.errors) + Errors(platform, answers, 0, batchStart)
      invariant tracker.successes == old(tracker.successes) + Successes(platform, allPrompts, answers, 0, batchStart)
      invariant tracker.warnings == old(tracker.warnings)
      decreases n - batchStart
    {
      var batchEnd := Min(batchStart + BatchSize, n);
      var batchResults := QueryBatch(tracker, platform, allPrompts, answers, batchStart, batchEnd);
      RangesJoin(platform, allPrompts, answers, 0, batchStart, batchEnd);
      AppendAssociates(old(tracker.errors), Errors(platform, answers, 0, batchStart), Errors(platform, answers, batchStart, batchEnd));
      AppendAssociates(old(tracker.successes), Successes(platform, allPrompts, answers, 0, batchStart),
                       Successes(platform, allPrompts, answers, batchStart, batchEnd));
      platformResponses := platformResponses + batchResults;
      batchStart := batchEnd;
    }
  }

  /** The records of all platforms, platform after platform. */
  function AllResponses(platforms: seq<string>, prompts: seq<string>, answers: (string, nat) -> Attempt): seq<ResponseRecord> {
    if platforms == [] then []
    else AllResponses(platforms[..|platforms| - 1], prompts, answers) + PlatformResponses(platforms[|platforms| - 1], prompts, answers)
  }

  /** Where platform `p`'s block of `n` records starts in the records of all platforms: `p * n`. */
  function BlockStart(p: nat, n: nat): nat {
    if p == 0 then 0 else BlockStart(p - 1, n) + n
  }

  lemma {:induction false} BlockStartProduct(p: nat, n: nat)
    ensures BlockStart(p, n) == p * n
  {
    if p > 0 {
      BlockStartProduct(p - 1, n);
      assert p * n == (p - 1) * n + n;
    }
  }

  /** Block `p` of `n` records of `all` is `block`. */
  predicate BlockIs(all: seq<ResponseRecord>, p: nat, n: nat, block: seq<ResponseRecord>) {
    BlockStart(p, n) + n <= |all| && all[BlockStart(p, n)..BlockStart(p, n) + n] == block
  }

  lemma BlockInPrefix(a: seq<ResponseRecord>, b: seq<ResponseRecord>, p: nat, n: nat, block: seq<ResponseRecord>)
    requires BlockIs(a, p, n, block)
    ensures BlockIs(a + b, p, n, block)
  {
    var start := BlockStart(p, n);
    assert (a + b)[start..start + n] == a[start..start + n];
  }

  lemma BlockAtEnd(a: seq<ResponseRecord>, b: seq<ResponseRecord>, m: nat, n: nat)
    requires |a| == BlockStart(m, n) && |b| == n
    ensures BlockIs(a + b, m, n, b)
  {
    assert (a + b)[|a|..|a| + n] == b;
  }

  lemma ElementOfBlock(all: seq<ResponseRecord>, p: nat, n: nat, block: seq<ResponseRecord>, i: nat)
    requires BlockIs(all, p, n, block) && i < n
    ensures BlockStart(p, n) + i < |all| && all[BlockStart(p, n) + i] == block[i]
  {
    var start := BlockStart(p, n);
    assert all[start + i] == all[start..start + n][i];
  }

  /**
   * The records of all platforms are their blocks of records one after the
   * other, each as long as the prompts: the block of platform `p` starts at
   * `p * n`, where `n` is the number of prompts.
   */
  lemma {:induction false} AllResponsesFacts(platforms: seq<string>, prompts: seq<string>, answers: (string, nat) -> Attempt)
    ensures |AllResponses(platforms, prompts, answers)| == BlockStart(|platforms|, |prompts|)
    ensures forall p :: 0 <= p < |platforms| ==>
      BlockIs(AllResponses(platforms, prompts, answers), p, |prompts|, PlatformResponses(platforms[p], prompts, answers))
  {
    if platforms != [] {
      var n := |prompts|;
      var m := |platforms| - 1;
      var front := platforms[..m];
      AllResponsesFacts(front, prompts, answers);
      var a := AllResponses(front, prompts, answers);
      var b := PlatformResponses(platforms[m], prompts, answers);
      var all := AllResponses(platforms, prompts, answers);
      assert all == a + b;
      forall p | 0 <= p < |platforms|
        ensures BlockIs(all, p, n, PlatformResponses(platforms[p], prompts, answers))
      {
        if p < m {
          assert platforms[p] == front[p];
          BlockInPrefix(a, b, p, n, PlatformResponses(front[p], prompts, answers));
        } else {
          BlockAtEnd(a, b, m, n);
        }
      }
    }
  }

  /** The record of prompt `i` on platform `p` is at `BlockStart(p, n) + i`, that is `p * n + i`. */
  lemma RecordOfPrompt(platforms: seq<string>, prompts: seq<string>, answers: (string, nat) -> Attempt, p: nat, i: nat)
    requires p < |platforms| && i < |prompts|
    ensures var all := AllResponses(platforms, prompts, answers);
      BlockStart(p, |prompts|) + i < |all|
      && all[BlockStart(p, |prompts|) + i] == ResponseOf(platforms[p], prompts[i], PromptId(platforms[p], i), answers(platforms[p], i))
  {
    var all := AllResponses(platforms, prompts, answers);
    AllResponsesBlock(platforms, prompts, answers, p);
    RecordInBlock(all, platforms[p], prompts, answers, p, i);
  }

  lemma AllResponsesBlock(platforms: seq<string>, prompts: seq<string>, answers: (string, nat) -> Attempt, p: nat)
    requires p < |platforms|
    ensures BlockIs(AllResponses(platforms, prompts, answers), p, |prompts|, PlatformResponses(platforms[p], prompts, answers))
  {
    AllResponsesFacts(platforms, prompts, answers);
  }

  lemma RecordInBlock(all: seq<ResponseRecord>, platform: string, prompts: seq<string>, answers: (string, nat) -> Attempt, p: nat, i: nat)
    requires i < |prompts| && BlockIs(all, p, |prompts|, PlatformResponses(platform, prompts, answers))
    ensures BlockStart(p, |prompts|) + i < |all|
      && all[BlockStart(p, |prompts|) + i] == ResponseOf(platform, prompts[i], PromptId(platform, i), answers(platform, i))
  {
    ElementOfBlock(all, p, |prompts|, PlatformResponses(platform, prompts, answers), i);
    PlatformResponseAt(platform, prompts, answers, i);
  }

  lemma PlatformResponseAt(platform: string, prompts: seq<string>, answers: (string, nat) -> Attempt, i: nat)
    requires i < |prompts|
    ensures PlatformResponses(platform, prompts, answers)[i] == ResponseOf(platform, prompts[i], PromptId(platform, i), answers(platform, i))
  {
    ResponsesAt(platform, prompts, answers, 0, |prompts|);
    assert Responses(platform, prompts, answers, 0, |prompts|)[i - 0]
      == ResponseOf(platform, prompts[0 + i], PromptId(platform, 0 + i), answers(platform, 0 + i));
  }

  /** The errors recorded for all platforms, platform after platform, with `n` prompts each. */
  function AllErrors(platforms: seq<string>, answers: (string, nat) -> Attempt, n: nat): seq<ErrorRecord> {
    if platforms == [] then []
    else AllErrors(platforms[..|platforms| - 1], answers, n) + Errors(platforms[|platforms| - 1], answers, 0, n)
  }

  /** The successes recorded for all platforms, platform after platform. */
  function AllSuccesses(platforms: seq<string>, prompts: seq<string>, answers: (string, nat) -> Attempt): seq<SuccessRecord> {
    if platforms == [] then []
    else AllSuccesses(platforms[..|platforms| - 1], prompts, answers) + Successes(platforms[|platforms| - 1], prompts, answers, 0, |prompts|)
  }

  /** The `all_responses.extend(result)` loop over the platforms queried. */
  method QueryAllPlatforms(tracker: ErrorTracker, platforms: seq<string>, allPrompts: seq<string>, answers: (string, nat) -> Attempt)
    returns (allResponses: seq<ResponseRecord>)
    modifies tracker
    ensures allResponses == AllResponses(platforms, allPrompts, answers)
    ensures tracker.errors == old(tracker.errors) + AllErrors(platforms, answers, |allPrompts|)
    ensures tracker.successes == old(tracker.successes) + AllSuccesses(platforms, allPrompts, answers)
    ensures tracker.warnings == old(tracker.warnings)
  {
    allResponses := [];
    for k := 0 to |platforms|
      invariant allResponses == AllResponses(platforms[..k], allPrompts, answers)
      invariant tracker.errors == old(tracker.errors) + AllErrors(platforms[..k], answers, |allPrompts|)
      invariant tracker.successes == old(tracker.successes) + AllSuccesses(platforms[..k], allPrompts, answers)
      invariant tracker.warnings == old(tracker.warnings)
    {
      var result := QueryPlatform(tracker, platforms[k], allPrompts, answers);
      allResponses := allResponses + result;
      assert platforms[..k + 1][..k] == platforms[..k];
      AppendAssociates(old(tracker.errors), AllErrors(platforms[..k], answers, |allPrompts|),
                       Errors(platforms[k], answers, 0, |allPrompts|));
      AppendAssociates(old(tracker.successes), AllSuccesses(platforms[..k], allPrompts, answers),
                       Successes(platforms[k], allPrompts, answers, 0, |allPrompts|));
    }
    assert platforms[..|platforms|] == platforms;
  }

  /** The records that report a successful answer. */
  predicate Succeeded(r: ResponseRecord) {
    r.success
  }

  /** One prompt leaves one tracker entry: a success when its record is successful, otherwise a recoverable error. */
  lemma PromptEntries(platform: string, promptText: string, promptId: string, a: Attempt)
    ensures |QueryErrors(platform, promptId, a)| + |QuerySuccesses(platform, promptText, promptId, a)| == 1
    ensures |QuerySuccesses(platform, promptText, promptId, a)| == if Succeeded(ResponseOf(platform, promptText, promptId, a)) then 1 else 0
    ensures forall e :: e in QueryErrors(platform, promptId, a) ==> e.recoverable
  {
  }

  /**
   * Every prompt of one platform leaves exactly one tracker entry: a success
   * for each successful record and an error for each other one.
   */
  lemma {:induction false} RangeEntries(platform: string, prompts: seq<string>, answers: (string, nat) -> Attempt, lo: nat, hi: nat)
    requires lo <= hi <= |prompts|
    ensures |Errors(platform, answers, lo, hi)| + |Successes(platform, prompts, answers, lo, hi)| == hi - lo
    ensures |Successes(platform, prompts, answers, lo, hi)| == Count(Responses(platform, prompts, answers, lo, hi), Succeeded)
    decreases hi
  {
    if lo < hi {
      var k := hi - 1;
      RangeEntries(platform, prompts, answers, lo, k);
      var a := answers(platform, k);
      PromptEntries(platform, prompts[k], PromptId(platform, k), a);
      BatchStep(platform, prompts, answers, lo, k);
      CountSnoc(Responses(platform, prompts, answers, lo, k), ResponseOf(platform, prompts[k], PromptId(platform, k), a), Succeeded);
    }
  }

  /** The errors recorded for a platform's prompts are all recoverable. */
  lemma {:induction false} RangeErrorsRecoverable(platform: string, answers: (string, nat) -> Attempt, lo: nat, hi: nat)
    requires lo <= hi
    ensures forall e :: e in Errors(platform, answers, lo, hi) ==> e.recoverable
    decreases hi
  {
    if lo < hi {
      RangeErrorsRecoverable(platform, answers, lo, hi - 1);
      PromptEntries(platform, "", PromptId(platform, hi - 1), answers(platform, hi - 1));
    }
  }

  /**
   * Querying all platforms leaves one tracker entry per record: as many
   * successes as successful records, and one recoverable error for each of
   * the others.
   */
  lemma {:induction false} TrackerEntriesPerRecord(platforms: seq<string>, prompts: seq<string>, answers: (string, nat) -> Attempt)
    ensures var all := AllResponses(platforms, prompts, answers);
      |AllErrors(platforms, answers, |prompts|)| + |AllSuccesses(platforms, prompts, answers)| == |all|
      && |AllSuccesses(platforms, prompts, answers)| == Count(all, Succeeded)
    ensures forall e :: e in AllErrors(platforms, answers, |prompts|) ==> e.recoverable
  {
    if platforms != [] {
      var front, last := platforms[..|platforms| - 1], platforms[|platforms| - 1];
      TrackerEntriesPerRecord(front, prompts, answers);
      RangeEntries(last, prompts, answers, 0, |prompts|);
      RangeErrorsRecoverable(last, answers, 0, |prompts|);
      CountAppend(AllResponses(front, prompts, answers), PlatformResponses(last, prompts, answers), Succeeded);
    }
  }

  // ---------------------------------------------------------------------------
  // ---------------------------------------------------------------------------
  // Analysing the answers
  // ---------------------------------------------------------------------------

  /** The answers that are analysed: successful and not empty. */
  predicate Analysable(r: ResponseRecord) {
    r.success && r.response != ""
  }

  function Brands(ms: seq<BrandMention>): (bs: seq<string>)
    ensures |bs| == |ms| && forall i :: 0 <= i < |ms| ==> bs[i] == ms[i].brand
  {
    seq(|ms|, i requires 0 <= i < |ms| => ms[i].brand)
  }

  function LowerAll(cs: seq<string>): (ls: seq<string>)
    ensures |ls| == |cs| && forall i :: 0 <= i < |cs| ==> ls[i] == Lower(cs[i])
  {
    seq(|cs|, i requires 0 <= i < |cs| => Lower(cs[i]))
  }

  /** `[m.brand for m in mentions if m.brand.lower() in [c.lower() for c in competitors]]` */
  function NamedCompetitors(ms: seq<BrandMention>, competitors: seq<string>): seq<string> {
    Filter(Brands(ms), b => Lower(b) in LowerAll(competitors))
  }

  /** The `PromptResult` built from one analysed record and its extraction. */
  function ResultOf(r: ResponseRecord, e: MentionExtraction.ExtractionResult, myBrand: string, competitors: seq<string>): PromptResult {
    var mine := FirstMention(e.mentions, myBrand);
    PromptResult(
      r.promptId, r.promptText, r.platform, r.model, r.response,
      e.mentions, e.citations,
      DetermineWinner(e.mentions), DetermineLoser(e.mentions),
      mine.Some?, RankOf(mine),
      NamedCompetitors(e.mentions, competitors),
      CompetitorsMissed(competitors, e.mentions))
  }

  /** The extraction `mention_extractor.extract(response, all_brands)` gives for one answer. */
  function ExtractionOf(r: ResponseRecord, allBrands: seq<string>, provider: Config.Platform,
                        llm: MentionExtraction.ExtractionRequest -> Option<string>,
                        decode: string -> Option<Json.Json>): MentionExtraction.ExtractionResult {
    MentionExtraction.Extract(r.response, allBrands, provider, llm, decode)
  }

  /** The prompt results of the analysis loop: one per analysable record, in order. */
  function AnalysedResults(rs: seq<ResponseRecord>, myBrand: string, competitors: seq<string>, allBrands: seq<string>,
                           provider: Config.Platform, llm: MentionExtraction.ExtractionRequest -> Option<string>,
                           decode: string -> Option<Json.Json>): (ps: seq<PromptResult>)
    ensures |ps| <= |rs|
  {
    if rs == [] then []
    else
      var front := AnalysedResults(rs[..|rs| - 1], myBrand, competitors, allBrands, provider, llm, decode);
      var r := rs[|rs| - 1];
      if Analysable(r) then front + [ResultOf(r, ExtractionOf(r, allBrands, provider, llm, decode), myBrand, competitors)]
      else front
  }

  // ---------------------------------------------------------------------------
  // Calling the formatters with keyword arguments
  // ---------------------------------------------------------------------------

  /** The parameters of `format_prompt_result`. */
  const PromptResultParams: seq<string> := ["prompt_id", "prompt_text", "platform", "platform_model",
    "raw_response", "mentions", "citations", "my_brand", "competitors"]

  /** The keyword arguments `main` passes to `format_prompt_result`. */
  const PromptResultKeywords: seq<string> := ["prompt_id", "prompt_text", "platform", "platform_model",
    "raw_response", "mentions", "citations", "your_brand", "competitors"]

  /** The parameters of `format_run_summary`. */
  const RunSummaryParams: seq<string> := ["status", "category", "my_brand", "competitors", "platforms",
    "prompt_count", "started_at", "completed_at", "prompts_processed", "responses_collected",
    "events_charged", "price_per_event"]

  /** The keyword arguments `main` passes to `format_run_summary`. */
  const RunSummaryKeywords: seq<string> := ["status", "category", "your_brand", "competitors", "platforms",
    "prompt_count", "started_at", "completed_at", "prompts_processed", "responses_collected",
    "events_charged"]

  /** The message of the `TypeError` a call raises for a keyword its function has no parameter for. */
  function UnexpectedKeywordMessage(function_: string, keyword: string): string {
    function_ + "() got an unexpected keyword argument '" + keyword + "'"
  }

  /**
   * Binding keyword arguments to parameters: the `TypeError` message for the
   * first keyword that names no parameter, if there is one.
   */
  function UnexpectedKeyword(function_: string, params: seq<string>, keywords: seq<string>): (r: Option<string>)
    ensures r.None? <==> forall k :: 0 <= k < |keywords| ==> keywords[k] in params
    ensures r.Some? ==> exists k :: (0 <= k < |keywords| && keywords[k] !in params
      && (forall j :: 0 <= j < k ==> keywords[j] in params)
      && r.value == UnexpectedKeywordMessage(function_, keywords[k]))
  {
    if keywords == [] then None
    else if keywords[0] !in params then Some(UnexpectedKeywordMessage(function_, keywords[0]))
    else
      var r := UnexpectedKeyword(function_, params, keywords[1..]);
      assert forall k :: 0 < k < |keywords| ==> keywords[k] == keywords[1..][k - 1];
      r
  }

  /** `main`'s call of `format_prompt_result` raises a `TypeError` about `your_brand`. */
  lemma PromptResultCallRaises()
    ensures UnexpectedKeyword("format_prompt_result", PromptResultParams, PromptResultKeywords)
      == Some(UnexpectedKeywordMessage("format_prompt_result", "your_brand"))
  {
    assert forall j :: 0 <= j < 7 ==> PromptResultKeywords[j] in PromptResultParams;
    assert "your_brand" !in PromptResultParams;
    KeywordsBefore("format_prompt_result", PromptResultParams, PromptResultKeywords, 7);
  }

  /** `main`'s call of `format_run_summary` raises a `TypeError` about `your_brand`. */
  lemma RunSummaryCallRaises()
    ensures UnexpectedKeyword("format_run_summary", RunSummaryParams, RunSummaryKeywords)
      == Some(UnexpectedKeywordMessage("format_run_summary", "your_brand"))
  {
    assert forall j :: 0 <= j < 2 ==> RunSummaryKeywords[j] in RunSummaryParams;
    assert "your_brand" !in RunSummaryParams;
    KeywordsBefore("format_run_summary", RunSummaryParams, RunSummaryKeywords, 2);
  }

  /** The first unexpected keyword is the one at `k` when every keyword before it is a parameter. */
  lemma KeywordsBefore(function_: string, params: seq<string>, keywords: seq<string>, k: nat)
    requires k < |keywords| && keywords[k] !in params
    requires forall j :: 0 <= j < k ==> keywords[j] in params
    ensures UnexpectedKeyword(function_, params, keywords) == Some(UnexpectedKeywordMessage(function_, keywords[k]))
  {
    var r := UnexpectedKeyword(function_, params, keywords);
    var i :| 0 <= i < |keywords| && keywords[i] !in params
      && (forall j :: 0 <= j < i ==> keywords[j] in params)
      && r.value == UnexpectedKeywordMessage(function_, keywords[i]);
    assert i == k;
  }

  // ---------------------------------------------------------------------------
  // The analysis loop
  // ---------------------------------------------------------------------------

  /** Binding `main`'s keywords to `format_prompt_result`: the message of the `TypeError` the push raises, if any. */
  function PromptResultBinding(): Option<string> {
    UnexpectedKeyword("format_prompt_result", PromptResultParams, PromptResultKeywords)
  }

  /** The `prompt_result` record `main` would push for `p`. */
  function RecordOf(p: PromptResult, myBrand: string, competitors: seq<string>): PromptResultRecord {
    FormatPromptResult(p.promptId, p.promptText, p.platform, p.platformModel, p.rawResponse,
                       p.mentions, p.citations, myBrand, competitors)
  }

  /** The prompt result of one record: one when it is analysable, none otherwise. */
  function AnalysedOf(r: ResponseRecord, myBrand: string, competitors: seq<string>, allBrands: seq<string>,
                      provider: Config.Platform, llm: MentionExtraction.ExtractionRequest -> Option<string>,
                      decode: string -> Option<Json.Json>): seq<PromptResult>
  {
    if Analysable(r) then [ResultOf(r, ExtractionOf(r, allBrands, provider, llm, decode), myBrand, competitors)] else []
  }

  /** The `analysis_failed` error of one record: one when it is analysable and its push raises. */
  function FailuresOf(r: ResponseRecord): seq<ErrorRecord> {
    if Analysable(r) && PromptResultBinding().Some? then
      [ErrorRecord("analysis_failed", PromptResultBinding().value, Some(Operation(r.platform, r.promptId)), true)]
    else []
  }

  /** The `prompt_result` record pushed for one record: one when it is analysable and its push goes through. */
  function PushedOf(r: ResponseRecord, myBrand: string, competitors: seq<string>, allBrands: seq<string>,
                      provider: Config.Platform, llm: MentionExtraction.ExtractionRequest -> Option<string>,
                      decode: string -> Option<Json.Json>): seq<PromptResultRecord>
  {
    if Analysable(r) && PromptResultBinding().None? then
      [RecordOf(ResultOf(r, ExtractionOf(r, allBrands, provider, llm, decode), myBrand, competitors), myBrand, competitors)]
    else []
  }

  /** The `analysis_failed` errors the analysis loop records, in record order. */
  function AnalysisErrors(rs: seq<ResponseRecord>): seq<ErrorRecord> {
    if rs == [] then [] else AnalysisErrors(rs[..|rs| - 1]) + FailuresOf(rs[|rs| - 1])
  }

  /** The `prompt_result` records the analysis loop pushes, in record order. */
  function PushedRecords(rs: seq<ResponseRecord>, myBrand: string, competitors: seq<string>, allBrands: seq<string>,
                      provider: Config.Platform, llm: MentionExtraction.ExtractionRequest -> Option<string>,
                      decode: string -> Option<Json.Json>): seq<PromptResultRecord>
  {
    if rs == [] then []
    else PushedRecords(rs[..|rs| - 1], myBrand, competitors, allBrands, provider, llm, decode) + PushedOf(rs[|rs| - 1], myBrand, competitors, allBrands, provider, llm, decode)
  }

  /** The results of the records up to `i + 1` are those up to `i` and that of record `i`. */
  lemma AnalysedStep(rs: seq<ResponseRecord>, i: nat, myBrand: string, competitors: seq<string>, allBrands: seq<string>,
                      provider: Config.Platform, llm: MentionExtraction.ExtractionRequest -> Option<string>,
                      decode: string -> Option<Json.Json>)
    requires i < |rs|
    ensures AnalysedResults(rs[..i + 1], myBrand, competitors, allBrands, provider, llm, decode)
      == AnalysedResults(rs[..i], myBrand, competitors, allBrands, provider, llm, decode) + AnalysedOf(rs[i], myBrand, competitors, allBrands, provider, llm, decode)
    ensures AnalysisErrors(rs[..i + 1]) == AnalysisErrors(rs[..i]) + FailuresOf(rs[i])
    ensures PushedRecords(rs[..i + 1], myBrand, competitors, allBrands, provider, llm, decode)
      == PushedRecords(rs[..i], myBrand, competitors, allBrands, provider, llm, decode) + PushedOf(rs[i], myBrand, competitors, allBrands, provider, llm, decode)
  {
    assert rs[..i + 1][..i] == rs[..i];
  }

  /** One iteration of the analysis loop, on one record. */
  method AnalyzeOne(tracker: ErrorTracker, responseData: ResponseRecord, myBrand: string, competitors: seq<string>, allBrands: seq<string>,
                      provider: Config.Platform, llm: MentionExtraction.ExtractionRequest -> Option<string>,
                      decode: string -> Option<Json.Json>)
    returns (analysed: seq<PromptResult>, pushed: seq<PromptResultRecord>)
    modifies tracker
    ensures analysed == AnalysedOf(responseData, myBrand, competitors, allBrands, provider, llm, decode)
    ensures pushed == PushedOf(responseData, myBrand, competitors, allBrands, provider, llm, decode)
    ensures tracker.errors == old(tracker.errors) + FailuresOf(responseData)
    ensures tracker.successes == old(tracker.successes) && tracker.warnings == old(tracker.warnings)
  {
    analysed, pushed := [], [];
    if !responseData.success || responseData.response == "" {
      return;
    }
    var extraction := MentionExtraction.Extract(responseData.response, allBrands, provider, llm, decode);
    var promptResult := ResultOf(responseData, extraction, myBrand, competitors);
    analysed := [promptResult];
    match PromptResultBinding()
    case Some(message) =>
      tracker.AddError("analysis_failed", message, context := Some(Operation(responseData.platform, responseData.promptId)));
    case None =>
      pushed := [RecordOf(promptResult, myBrand, competitors)];
  }

  /**
   * The analysis loop of `main`. Each analysable answer's prompt result is
   * appended before its record is pushed, so a push that raises leaves the
   * result in place and records an `analysis_failed` error.
   */
  method AnalyzeResponses(tracker: ErrorTracker, allResponses: seq<ResponseRecord>, myBrand: string, competitors: seq<string>, allBrands: seq<string>,
                      provider: Config.Platform, llm: MentionExtraction.ExtractionRequest -> Option<string>,
                      decode: string -> Option<Json.Json>)
    returns (promptResults: seq<PromptResult>, pushed: seq<PromptResultRecord>)
    modifies tracker
    ensures promptResults == AnalysedResults(allResponses, myBrand, competitors, allBrands, provider, llm, decode)
    ensures pushed == PushedRecords(allResponses, myBrand, competitors, allBrands, provider, llm, decode)
    ensures tracker.errors == old(tracker.errors) + AnalysisErrors(allResponses)
    ensures tracker.successes == old(tracker.successes) && tracker.warnings == old(tracker.warnings)
  {
    promptResults := [];
    pushed := [];
    for i := 0 to |allResponses|
      invariant promptResults == AnalysedResults(allResponses[..i], myBrand, competitors, allBrands, provider, llm, decode)
      invariant pushed == PushedRecords(allResponses[..i], myBrand, competitors, allBrands, provider, llm, decode)
      invariant tracker.errors == old(tracker.errors) + AnalysisErrors(allResponses[..i])
      invariant tracker.successes == old(tracker.successes) && tracker.warnings == old(tracker.warnings)
    {
      var analysed, records := AnalyzeOne(tracker, allResponses[i], myBrand, competitors, allBrands, provider, llm, decode);
      AnalysedStep(allResponses, i, myBrand, competitors, allBrands, provider, llm, decode);
      AppendAssociates(old(tracker.errors), AnalysisErrors(allResponses[..i]), FailuresOf(allResponses[i]));
      promptResults := promptResults + analysed;
      pushed := pushed + records;
    }
    assert allResponses[..|allResponses|] == allResponses;
  }

  /** The `analysis_failed` error `main` records for an analysable record: the `TypeError` about `your_brand`. */
  function AnalysisFailure(r: ResponseRecord): ErrorRecord {
    ErrorRecord("analysis_failed", UnexpectedKeywordMessage("format_prompt_result", "your_brand"),
                Some(Operation(r.platform, r.promptId)), true)
  }

  /** The `analysis_failed` errors of the records `rs`, one each, in order. */
  function FailuresFor(rs: seq<ResponseRecord>): (es: seq<ErrorRecord>)
    ensures |es| == |rs| && forall k :: 0 <= k < |rs| ==> es[k] == AnalysisFailure(rs[k])
  {
    if rs == [] then [] else FailuresFor(rs[..|rs| - 1]) + [AnalysisFailure(rs[|rs| - 1])]
  }

  /**
   * As written, the push of every analysable answer raises: the loop records
   * one recoverable `analysis_failed` error for each analysable record, in
   * order, with the `TypeError` about `your_brand` and the record's platform
   * and prompt id.
   */
  lemma {:induction false} AnalysisFailsPerAnswer(rs: seq<ResponseRecord>)
    ensures AnalysisErrors(rs) == FailuresFor(Filter(rs, Analysable))
    ensures |AnalysisErrors(rs)| == Count(rs, Analysable)
  {
    FilterCount(rs, Analysable);
    if rs != [] {
      var front, r := rs[..|rs| - 1], rs[|rs| - 1];
      AnalysisFailsPerAnswer(front);
      RecordFails(r);
      var kept := Filter(front, Analysable);
      if Analysable(r) {
        assert Filter(rs, Analysable) == kept + [r];
        assert (kept + [r])[..|kept|] == kept;
      }
    }
  }

  /** An analysable record records the `TypeError` about `your_brand`; any other record records nothing. */
  lemma RecordFails(r: ResponseRecord)
    ensures FailuresOf(r) == if Analysable(r) then [AnalysisFailure(r)] else []
  {
    PromptResultCallRaises();
  }

  /** As written, the analysis loop pushes no `prompt_result` record. */
  lemma {:induction false} NothingPushed(rs: seq<ResponseRecord>, myBrand: string, competitors: seq<string>, allBrands: seq<string>,
                      provider: Config.Platform, llm: MentionExtraction.ExtractionRequest -> Option<string>,
                      decode: string -> Option<Json.Json>)
    ensures PushedRecords(rs, myBrand, competitors, allBrands, provider, llm, decode) == []
  {
    if rs != [] {
      NothingPushed(rs[..|rs| - 1], myBrand, competitors, allBrands, provider, llm, decode);
      PromptResultCallRaises();
    }
  }

  /** The prompt result of each record, analysable or not. */
  function ResultsOf(rs: seq<ResponseRecord>, myBrand: string, competitors: seq<string>, allBrands: seq<string>,
                     provider: Config.Platform, llm: MentionExtraction.ExtractionRequest -> Option<string>,
                     decode: string -> Option<Json.Json>): (ps: seq<PromptResult>)
    ensures |ps| == |rs|
    ensures forall i :: 0 <= i < |rs| ==>
      ps[i] == ResultOf(rs[i], ExtractionOf(rs[i], allBrands, provider, llm, decode), myBrand, competitors)
  {
    seq(|rs|, i requires 0 <= i < |rs| => ResultOf(rs[i], ExtractionOf(rs[i], allBrands, provider, llm, decode), myBrand, competitors))
  }

  /** The analysis loop keeps the analysable records, in order, and turns each into its prompt result. */
  lemma {:induction false} AnalysedIsFilteredMap(rs: seq<ResponseRecord>, myBrand: string, competitors: seq<string>, allBrands: seq<string>,
                                                 provider: Config.Platform, llm: MentionExtraction.ExtractionRequest -> Option<string>,
                                                 decode: string -> Option<Json.Json>)
    ensures AnalysedResults(rs, myBrand, competitors, allBrands, provider, llm, decode)
      == ResultsOf(Filter(rs, Analysable), myBrand, competitors, allBrands, provider, llm, decode)
  {
    if rs != [] {
      var front := rs[..|rs| - 1];
      AnalysedIsFilteredMap(front, myBrand, competitors, allBrands, provider, llm, decode);
    }
  }

  /**
   * Exactly the analysable records are analysed: there are as many prompt
   * results as analysable records, and each is the result of one of them.
   */
  lemma AnalysedFacts(rs: seq<ResponseRecord>, myBrand: string, competitors: seq<string>, allBrands: seq<string>,
                      provider: Config.Platform, llm: MentionExtraction.ExtractionRequest -> Option<string>,
                      decode: string -> Option<Json.Json>)
    ensures var ps := AnalysedResults(rs, myBrand, competitors, allBrands, provider, llm, decode);
      && |ps| == Count(rs, Analysable)
      && forall k :: 0 <= k < |ps| ==> exists j :: (0 <= j < |rs| && Analysable(rs[j])
           && ps[k] == ResultOf(rs[j], ExtractionOf(rs[j], allBrands, provider, llm, decode), myBrand, competitors))
  {
    var kept := Filter(rs, Analysable);
    AnalysedIsFilteredMap(rs, myBrand, competitors, allBrands, provider, llm, decode);
    FilterCount(rs, Analysable);
    FilterMembers(rs, Analysable);
    var ps := AnalysedResults(rs, myBrand, competitors, allBrands, provider, llm, decode);
    forall k | 0 <= k < |ps|
      ensures exists j :: (0 <= j < |rs| && Analysable(rs[j])
        && ps[k] == ResultOf(rs[j], ExtractionOf(rs[j], allBrands, provider, llm, decode), myBrand, competitors))
    {
      assert kept[k] in kept;
      var j :| 0 <= j < |rs| && rs[j] == kept[k];
    }
  }

  /**
   * The brand counts as mentioned exactly when some mention names it in any
   * case, and then with the rank of the first such mention.
   */
  lemma ResultBrandFacts(r: ResponseRecord, e: MentionExtraction.ExtractionResult, myBrand: string, competitors: seq<string>)
    ensures var p := ResultOf(r, e, myBrand, competitors);
      && (p.yourBrandMentioned <==> NamedIn(e.mentions, myBrand))
      && (p.yourBrandRank.Some? <==> p.yourBrandMentioned)
      && (forall k :: 0 <= k < |e.mentions| && EqualsIgnoreCase(e.mentions[k].brand, myBrand)
            && (forall j :: 0 <= j < k ==> !EqualsIgnoreCase(e.mentions[j].brand, myBrand))
            ==> p.yourBrandRank == Some(e.mentions[k].rank))
  {
    var ms := e.mentions;
    var mine := FirstMention(ms, myBrand);
    if mine.Some? {
      var i :| 0 <= i < |ms| && ms[i] == mine.value && EqualsIgnoreCase(ms[i].brand, myBrand)
        && forall j :: 0 <= j < i ==> !EqualsIgnoreCase(ms[j].brand, myBrand);
      forall k | 0 <= k < |ms| && EqualsIgnoreCase(ms[k].brand, myBrand)
          && (forall j :: 0 <= j < k ==> !EqualsIgnoreCase(ms[j].brand, myBrand))
        ensures k == i
      {
      }
    }
  }

  /**
   * The competitors named are the brands of the mentions, spelled as the
   * mention spells them, that equal some competitor ignoring case.
   */
  lemma NamedCompetitorsFacts(ms: seq<BrandMention>, competitors: seq<string>)
    ensures forall b :: b in NamedCompetitors(ms, competitors) <==>
      (exists k :: 0 <= k < |ms| && ms[k].brand == b) && exists c :: c in competitors && EqualsIgnoreCase(c, b)
  {
    var f := b => Lower(b) in LowerAll(competitors);
    var bs := Brands(ms);
    FilterMembers(bs, f);
    forall b
      ensures b in NamedCompetitors(ms, competitors) <==>
        (exists k :: 0 <= k < |ms| && ms[k].brand == b) && exists c :: c in competitors && EqualsIgnoreCase(c, b)
    {
      assert b in NamedCompetitors(ms, competitors) <==> b in bs && f(b);
      CompetitorMatch(b, competitors);
      if b in bs {
        var k :| 0 <= k < |bs| && bs[k] == b;
        assert ms[k].brand == b;
      }
      if exists k :: 0 <= k < |ms| && ms[k].brand == b {
        var k :| 0 <= k < |ms| && ms[k].brand == b;
        assert bs[k] == b;
      }
    }
  }

  lemma CompetitorMatch(b: string, competitors: seq<string>)
    ensures Lower(b) in LowerAll(competitors) <==> exists c :: c in competitors && EqualsIgnoreCase(c, b)
  {
    if Lower(b) in LowerAll(competitors) {
      var i :| 0 <= i < |competitors| && LowerAll(competitors)[i] == Lower(b);
      assert competitors[i] in competitors && EqualsIgnoreCase(competitors[i], b);
    }
    if exists c :: c in competitors && EqualsIgnoreCase(c, b) {
      var c :| c in competitors && EqualsIgnoreCase(c, b);
      var i :| 0 <= i < |competitors| && competitors[i] == c;
      assert LowerAll(competitors)[i] == Lower(b);
    }
  }

  /** The competitors missed are those, in their order, that no mention names. */
  lemma ResultMissedFacts(r: ResponseRecord, e: MentionExtraction.ExtractionResult, myBrand: string, competitors: seq<string>)
    ensures forall c :: c in ResultOf(r, e, myBrand, competitors).competitorsMissed <==> c in competitors && !NamedIn(e.mentions, c)
  {
    CompetitorSplit(competitors, e.mentions);
  }

  /**
   * The prompt result and the `prompt_result` record agree on the brand
   * flags and on the competitors missed; they agree on the winner unless the
   * top two mentions tie.
   */
  lemma ResultAgreesWithRecord(r: ResponseRecord, e: MentionExtraction.ExtractionResult, myBrand: string, competitors: seq<string>)
    requires e.mentions != []
    ensures var p := ResultOf(r, e, myBrand, competitors);
      var rec := FormatPromptResult(r.promptId, r.promptText, r.platform, r.model, r.response,
                                    e.mentions, e.citations, myBrand, competitors);
      && p.yourBrandMentioned == rec.myBrandMentioned && p.yourBrandRank == rec.myBrandRank
      && p.competitorsMissed == rec.competitorsMissed
      && (!TopTied(e.mentions) ==> p.promptWinner == rec.promptWinner)
  {
    WinnerRulesCompared(e.mentions);
  }

  /**
   * Where a mention spells a competitor differently, the prompt result lists
   * the mention's spelling and the `prompt_result` record the competitor's.
   */
  lemma NamedCompetitorsSpelling(b: string, c: string)
    requires EqualsIgnoreCase(b, c)
    ensures var ms := [BrandMention(b, 1, 1, "", false)];
      NamedCompetitors(ms, [c]) == [b] && CompetitorsMentioned([c], ms) == [c]
  {
    var ms := [BrandMention(b, 1, 1, "", false)];
    assert Brands(ms) == [b];
    assert LowerAll([c]) == [Lower(c)];
    assert Lower(ms[0].brand) in MentionedBrands(ms);
    assert [b][..0] == [] && [c][..0] == [];
  }

  // ---------------------------------------------------------------------------
  // Metrics, rankings, billing and the error summary
  // ---------------------------------------------------------------------------

  /** `calculate_brand_metrics` for each brand of `all_brands`, in order. */
  method AllBrandMetrics(allBrands: seq<string>, promptResults: seq<PromptResult>) returns (brandMetricsList: seq<BrandMetrics>)
    ensures |brandMetricsList| == |allBrands|
    ensures forall i :: 0 <= i < |allBrands| ==> brandMetricsList[i] == BrandMetricsOf(allBrands[i], promptResults)
  {
    brandMetricsList := [];
    for i := 0 to |allBrands|
      invariant |brandMetricsList| == i
      invariant forall j :: 0 <= j < i ==> brandMetricsList[j] == BrandMetricsOf(allBrands[j], promptResults)
    {
      var metrics := CalculateBrandMetrics(allBrands[i], promptResults, allBrands);
      brandMetricsList := brandMetricsList + [metrics];
    }
  }

  /** `next((r for r in rankings if r["brand"] == brand), None)`: the index of the first row of `brand`, or -1. */
  function FindRanking(rankings: seq<LeaderboardEntry>, brand: string): (i: int)
    ensures -1 <= i < |rankings|
    ensures i == -1 <==> forall k :: 0 <= k < |rankings| ==> rankings[k].brand != brand
    ensures i >= 0 ==> rankings[i].brand == brand && forall k :: 0 <= k < i ==> rankings[k].brand != brand
  {
    if rankings == [] then -1
    else if rankings[0].brand == brand then 0
    else
      var i := FindRanking(rankings[1..], brand);
      assert forall k :: 0 < k < |rankings| ==> rankings[k] == rankings[1..][k - 1];
      if i == -1 then -1 else i + 1
  }

  /** `rank_entry["rank"] if rank_entry else 0` */
  function RankLookup(rankings: seq<LeaderboardEntry>, brand: string): int {
    var i := FindRanking(rankings, brand);
    if i < 0 then 0 else rankings[i].rank
  }

  /**
   * Looked up in the leaderboard, a brand that has metrics gets the position
   * of its first row, counted from 1; any other brand gets 0.
   */
  lemma LeaderboardRank(ms: seq<BrandMetrics>, brand: string)
    ensures var r := RankLookup(Leaderboard(ms), brand);
      && ((exists j :: 0 <= j < |ms| && ms[j].brand == brand) <==> 1 <= r <= |ms|)
      && (r == 0 <==> forall j :: 0 <= j < |ms| ==> ms[j].brand != brand)
      && (r > 0 ==> Leaderboard(ms)[r - 1].brand == brand
                    && forall k :: 0 <= k < r - 1 ==> Leaderboard(ms)[k].brand != brand)
  {
    var board := Leaderboard(ms);
    var sorted := LeaderboardFacts(ms);
    BrandsOnBoard(ms, brand);
    var i := FindRanking(board, brand);
    if i >= 0 {
      assert board[i].rank == i + 1;
    }
  }

  /** The leaderboard has a row for a brand exactly when the metrics have an entry for it. */
  lemma BrandsOnBoard(ms: seq<BrandMetrics>, brand: string)
    ensures |Leaderboard(ms)| == |ms|
    ensures (exists j :: 0 <= j < |ms| && ms[j].brand == brand)
        <==> exists i :: 0 <= i < |ms| && Leaderboard(ms)[i].brand == brand
  {
    var sorted := LeaderboardFacts(ms);
    var board := Leaderboard(ms);
    if exists j :: 0 <= j < |ms| && ms[j].brand == brand {
      var j :| 0 <= j < |ms| && ms[j].brand == brand;
      assert ms[j] in multiset(sorted);
      var i :| 0 <= i < |sorted| && sorted[i] == ms[j];
      assert board[i] == EntryOf(sorted[i], i + 1);
    }
    if exists i :: 0 <= i < |ms| && board[i].brand == brand {
      var i :| 0 <= i < |ms| && board[i].brand == brand;
      assert board[i] == EntryOf(sorted[i], i + 1);
      assert sorted[i] in multiset(ms);
      var j :| 0 <= j < |ms| && ms[j] == sorted[i];
    }
  }

  /** The brand summary `main` pushes: the formatted metrics with the leaderboard rank and the brand count filled in. */
  function SummaryOf(m: BrandMetrics, rankings: seq<LeaderboardEntry>, allBrands: seq<string>): (s: BrandSummary)
    ensures MetricsOfSummary(s) == m
    ensures s.competitivePosition.totalBrands == |allBrands|
  {
    var summary := FormatBrandSummary(m);
    summary.(competitivePosition := summary.competitivePosition.(
      rank := RankLookup(rankings, m.brand), totalBrands := |allBrands|))
  }

  /**
   * Every brand of the run is ranked: with the metrics of all brands and
   * their leaderboard, each brand's summary names the position of its first
   * leaderboard row, and the brand count is the number of brands.
   */
  lemma SummariesRanked(allBrands: seq<string>, promptResults: seq<PromptResult>, ms: seq<BrandMetrics>, i: nat)
    requires |ms| == |allBrands| && i < |ms|
    requires forall k :: 0 <= k < |allBrands| ==> ms[k] == BrandMetricsOf(allBrands[k], promptResults)
    ensures var s := SummaryOf(ms[i], Leaderboard(ms), allBrands);
      && 1 <= s.competitivePosition.rank <= |allBrands|
      && Leaderboard(ms)[s.competitivePosition.rank - 1].brand == allBrands[i]
      && s.competitivePosition.totalBrands == |allBrands|
  {
    assert ms[i].brand == allBrands[i];
    LeaderboardRank(ms, allBrands[i]);
  }

  /** `Actor.charge(count=events_charged)` when `events_charged > 0`: the count charged, if any. */
  function Charge(promptResults: seq<PromptResult>): Option<nat> {
    var eventsCharged := |promptResults|;
    if eventsCharged > 0 then Some(eventsCharged) else None
  }

  /** A run is charged exactly when some answer was analysable, one event per analysable answer. */
  lemma ChargedPerAnalysedAnswer(rs: seq<ResponseRecord>, myBrand: string, competitors: seq<string>, allBrands: seq<string>,
                                 provider: Config.Platform, llm: MentionExtraction.ExtractionRequest -> Option<string>,
                                 decode: string -> Option<Json.Json>)
    ensures var c := Charge(AnalysedResults(rs, myBrand, competitors, allBrands, provider, llm, decode));
      && (c.Some? <==> Count(rs, Analysable) > 0)
      && (c.Some? ==> c.value == Count(rs, Analysable))
  {
    AnalysedFacts(rs, myBrand, competitors, allBrands, provider, llm, decode);
  }

  /** The `error_summary` record. */
  datatype ErrorSummary = ErrorSummary(
    totalErrors: nat,
    totalWarnings: nat,
    hasFatalErrors: bool,
    errors: seq<ErrorRecord>,
    warnings: seq<string>)

  /**
   * The error summary, pushed when there is an error or a warning: the
   * totals, whether any error is fatal, the last ten errors and the last five
   * warnings, in order.
   */
  function ErrorSummaryOf(t: ErrorTracker): (s: Option<ErrorSummary>)
    reads t
    ensures s.Some? <==> |t.errors| > 0 || |t.warnings| > 0
    ensures s.Some? ==> s.value.totalErrors == |t.errors| && s.value.totalWarnings == |t.warnings|
    ensures s.Some? ==> (s.value.hasFatalErrors <==> exists i :: 0 <= i < |t.errors| && !t.errors[i].recoverable)
    ensures s.Some? ==> |s.value.errors| == Min(10, |t.errors|) && s.value.errors == t.errors[|t.errors| - |s.value.errors|..]
    ensures s.Some? ==> |s.value.warnings| == Min(5, |t.warnings|) && s.value.warnings == t.warnings[|t.warnings| - |s.value.warnings|..]
  {
    if |t.errors| > 0 || |t.warnings| > 0 then
      Some(ErrorSummary(|t.errors|, |t.warnings|, t.HasFatalErrors(), PyLast(t.errors, 10), PyLast(t.warnings, 5)))
    else None
  }

  /**
   * How the `FINALIZE` step ends: the call of `format_run_summary` raises a
   * `TypeError` that nothing catches, or the run summary is pushed and the
   * run is charged and its error summary pushed.
   */
  datatype RunEnd = Stopped(typeError: string) | Finished(charge: Option<nat>, errorSummary: Option<ErrorSummary>)

  /** The `FINALIZE` step of `main`, from the prompt results and the tracker after the analysis. */
  function Finalize(promptResults: seq<PromptResult>, t: ErrorTracker): RunEnd
    reads t
  {
    match UnexpectedKeyword("format_run_summary", RunSummaryParams, RunSummaryKeywords)
    case Some(message) => Stopped(message)
    case None => Finished(Charge(promptResults), ErrorSummaryOf(t))
  }

  /**
   * As written, the run stops at the run summary with the `TypeError` about
   * `your_brand`, whatever was analysed: it is neither charged nor given an
   * error summary.
   */
  lemma RunStopsAtSummary(promptResults: seq<PromptResult>, t: ErrorTracker)
    ensures Finalize(promptResults, t) == Stopped(UnexpectedKeywordMessage("format_run_summary", "your_brand"))
  {
    RunSummaryCallRaises();
  }
}
