/** `BaseBrowserClient.query_with_retry`: up to two attempts by default, waiting 2, 4, 6, ... seconds between them. */
module BrowserBase {
  import opened Wrappers
  import opened Retry

  const DefaultMaxRetries := 2

  /** `BrowserClientError(message, platform, recoverable=True)` as an outcome of `query`. */
  function BrowserClientError(message: string, platform: string, recoverable: bool := true): (o: Outcome)
    ensures o.RaisedClientError? && o.message == message && (o.recoverable <==> recoverable)
  {
    RaisedClientError(message, recoverable)
  }

  /** `query_with_retry(prompt, max_retries=2)` */
  method QueryWithRetry(client: Client, prompt: string, query: nat -> Outcome, maxRetries: int := DefaultMaxRetries)
    returns (result: QueryResult, calls: nat, waits: seq<nat>)
    ensures Retried(result, calls, waits) == RetrySpec(client, prompt, query, maxRetries, Linear)
    ensures calls <= (if maxRetries < 0 then 0 else maxRetries)
    ensures forall j :: 0 <= j < |waits| ==> waits[j] == 2 * (j + 1)
  {
    result, calls, waits := Retry.QueryWithRetry(client, prompt, query, maxRetries, Linear);
    RetryFromFacts(client, prompt, query, maxRetries, Linear, 0, None);
  }

  /** With the default budget there are at most two calls and at most one wait, of two seconds. */
  lemma DefaultBudget(client: Client, prompt: string, query: nat -> Outcome)
    ensures var r := RetrySpec(client, prompt, query, DefaultMaxRetries, Linear);
      r.calls <= 2 && (r.waits == [] || r.waits == [2])
  {
    RetryFromFacts(client, prompt, query, DefaultMaxRetries, Linear, 0, None);
  }
}
