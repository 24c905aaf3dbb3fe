/** `BasePlatformClient.query_with_retry`: up to three attempts by default, waiting 1, 2, 4, ... seconds between them. */
module PlatformBase {
  import opened Wrappers
  import opened Retry

  const DefaultMaxRetries := 3

  /** `PlatformError(message, platform, recoverable=True)` as an outcome of `query`. */
  function PlatformError(message: string, platform: string, recoverable: bool := true): (o: Outcome)
    ensures o.RaisedClientError? && o.message == message && (o.recoverable <==> recoverable)
  {
    RaisedClientError(message, recoverable)
  }

  /** `query_with_retry(prompt, max_retries=3)` */
  method QueryWithRetry(client: Client, prompt: string, query: nat -> Outcome, maxRetries: int := DefaultMaxRetries)
    returns (result: QueryResult, calls: nat, waits: seq<nat>)
    ensures Retried(result, calls, waits) == RetrySpec(client, prompt, query, maxRetries, Exponential)
    ensures calls <= (if maxRetries < 0 then 0 else maxRetries)
    ensures forall j :: 0 <= j < |waits| ==> waits[j] == Pow2(j)
  {
    result, calls, waits := Retry.QueryWithRetry(client, prompt, query, maxRetries, Exponential);
    RetryFromFacts(client, prompt, query, maxRetries, Exponential, 0, None);
  }

  /** With the default budget there are at most three calls, and the waits are a prefix of 1, 2. */
  lemma DefaultBudget(client: Client, prompt: string, query: nat -> Outcome)
    ensures var r := RetrySpec(client, prompt, query, DefaultMaxRetries, Exponential);
      r.calls <= 3 && (r.waits == [] || r.waits == [1] || r.waits == [1, 2])
  {
    RetryFromFacts(client, prompt, query, DefaultMaxRetries, Exponential, 0, None);
    var r := RetrySpec(client, prompt, query, DefaultMaxRetries, Exponential);
    if |r.waits| == 2 {
      assert r.waits[1] == Pow2(1) == 2;
    }
  }
}
