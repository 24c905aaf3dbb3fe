/**
 * The retry loop shared, line for line, by `BaseBrowserClient.query_with_retry`
 * and `BasePlatformClient.query_with_retry`; only the default number of
 * attempts and the waiting time between attempts differ.
 *
 * The client's `query(prompt)` is a parameter: `query(k)` is what the k-th
 * call (from 0) returns or raises. The sleeps are not performed; the loop
 * returns the list of waiting times, in seconds, that it would sleep.
 */
module Retry {
  import opened Wrappers

  /** `QueryResult` and `BrowserQueryResult`, which have the same fields. */
  datatype QueryResult = QueryResult(
    platform: string,
    model: string,
    prompt: string,
    response: string,
    success: bool,
    error: Option<string>)

  /** What one call of `query` does. */
  datatype Outcome =
    | Returned(result: QueryResult)
      /** `PlatformError` or `BrowserClientError`, with its message and flag. */
    | RaisedClientError(message: string, recoverable: bool)
      /** Any other exception, as `str(e)`. */
    | RaisedOther(text: string)

  /** The client's `platform_name` and `model_name`. */
  datatype Client = Client(platformName: string, modelName: string)

  /** The wait after a failed attempt: linear for the browser clients, exponential for the API clients. */
  datatype Backoff = Linear | Exponential

  const UnknownError := "Unknown error after retries"

  function Pow2(k: nat): (r: nat)
    ensures r >= 1
  {
    if k == 0 then 1 else 2 * Pow2(k - 1)
  }

  /** `(attempt + 1) * 2` and `(2 ** attempt) * 1`. */
  function WaitSeconds(backoff: Backoff, attempt: nat): nat {
    match backoff
    case Linear => (attempt + 1) * 2
    case Exponential => Pow2(attempt)
  }

  /** The outcome ends the loop: a successful result, or a client error marked non-recoverable. */
  predicate Stops(o: Outcome) {
    (o.Returned? && o.result.success) || (o.RaisedClientError? && !o.recoverable)
  }

  /** The value `last_error` takes after the outcome. */
  function ErrorOf(o: Outcome): Option<string> {
    match o
    case Returned(r) => r.error
    case RaisedClientError(m, _) => Some(m)
    case RaisedOther(t) => Some(t)
  }

  /** The result returned after the loop: `last_error or "Unknown error after retries"`. */
  function Exhausted(client: Client, prompt: string, lastError: Option<string>): (r: QueryResult)
    ensures !r.success && r.response == "" && r.error.Some? && r.error.value != ""
  {
    QueryResult(client.platformName, client.modelName, prompt, "", false,
      Some(if lastError.Some? && lastError.value != "" then lastError.value else UnknownError))
  }

  /** The result, the number of calls made and the waits slept. */
  datatype Retried = Retried(result: QueryResult, calls: nat, waits: seq<nat>)

  /** The loop from attempt `attempt` on, with `lastError` as left by the earlier attempts. */
  function RetryFrom(client: Client, prompt: string, query: nat -> Outcome, maxRetries: int, backoff: Backoff,
                     attempt: nat, lastError: Option<string>): Retried
    decreases maxRetries - attempt
  {
    if attempt >= maxRetries then Retried(Exhausted(client, prompt, lastError), 0, [])
    else
      var o := query(attempt);
      if o.Returned? && o.result.success then Retried(o.result, 1, [])
      else if o.RaisedClientError? && !o.recoverable then Retried(Exhausted(client, prompt, Some(o.message)), 1, [])
      else
        var rest := RetryFrom(client, prompt, query, maxRetries, backoff, attempt + 1, ErrorOf(o));
        var w := if attempt < maxRetries - 1 then [WaitSeconds(backoff, attempt)] else [];
        Retried(rest.result, rest.calls + 1, w + rest.waits)
  }

  /** The whole loop. */
  function RetrySpec(client: Client, prompt: string, query: nat -> Outcome, maxRetries: int, backoff: Backoff): Retried {
    RetryFrom(client, prompt, query, maxRetries, backoff, 0, None)
  }

  /**
   * From attempt `a` on: the calls stay within the budget; every call but
   * the last went on to the next; the loop ended early only on a stopping
   * outcome; a successful result is the last call's result, unchanged; a
   * failure reports the last call's error (or the earlier one when no call
   * was made); and the loop slept once between consecutive calls, with the
   * policy's wait for that attempt.
   */
  lemma {:induction false} RetryFromFacts(client: Client, prompt: string, query: nat -> Outcome, maxRetries: int,
                                          backoff: Backoff, a: nat, lastError: Option<string>)
    ensures var r := RetryFrom(client, prompt, query, maxRetries, backoff, a, lastError);
      && (r.calls == 0 <==> a >= maxRetries)
      && a + r.calls <= (if a <= maxRetries then maxRetries else a)
      && (forall j :: a <= j < a + r.calls - 1 ==> !Stops(query(j)))
      && (r.calls > 0 && a + r.calls < maxRetries ==> Stops(query(a + r.calls - 1)))
      && (r.result.success ==> r.calls > 0 && query(a + r.calls - 1) == Returned(r.result))
      && (!r.result.success ==>
            r.result == Exhausted(client, prompt, if r.calls == 0 then lastError else ErrorOf(query(a + r.calls - 1))))
      && |r.waits| == (if r.calls == 0 then 0 else r.calls - 1)
      && (forall j :: 0 <= j < |r.waits| ==> r.waits[j] == WaitSeconds(backoff, a + j))
    decreases maxRetries - a
  {
    if a < maxRetries {
      var o := query(a);
      if !((o.Returned? && o.result.success) || (o.RaisedClientError? && !o.recoverable)) {
        RetryFromFacts(client, prompt, query, maxRetries, backoff, a + 1, ErrorOf(o));
        var rest := RetryFrom(client, prompt, query, maxRetries, backoff, a + 1, ErrorOf(o));
        if rest.calls == 0 {
          assert a + 1 == maxRetries;
        }
      }
    }
  }

  /** One attempt that neither succeeds nor stops the loop, followed by the rest of the loop. */
  lemma RetryContinues(client: Client, prompt: string, query: nat -> Outcome, maxRetries: int, backoff: Backoff,
                       a: nat, lastError: Option<string>)
    requires a < maxRetries && !Stops(query(a))
    ensures var rest := RetryFrom(client, prompt, query, maxRetries, backoff, a + 1, ErrorOf(query(a)));
      RetryFrom(client, prompt, query, maxRetries, backoff, a, lastError)
        == Retried(rest.result, rest.calls + 1, (if a < maxRetries - 1 then [WaitSeconds(backoff, a)] else []) + rest.waits)
  {
  }

  /** An attempt that stops the loop ends it with one call and no wait. */
  lemma RetryStops(client: Client, prompt: string, query: nat -> Outcome, maxRetries: int, backoff: Backoff,
                   a: nat, lastError: Option<string>)
    requires a < maxRetries && Stops(query(a))
    ensures RetryFrom(client, prompt, query, maxRetries, backoff, a, lastError)
      == if query(a).Returned? then Retried(query(a).result, 1, [])
         else Retried(Exhausted(client, prompt, Some(query(a).message)), 1, [])
  {
  }

  /** With the budget spent, the loop makes no call and reports the last error. */
  lemma RetrySpent(client: Client, prompt: string, query: nat -> Outcome, maxRetries: int, backoff: Backoff,
                   a: nat, lastError: Option<string>)
    requires a >= maxRetries
    ensures RetryFrom(client, prompt, query, maxRetries, backoff, a, lastError)
      == Retried(Exhausted(client, prompt, lastError), 0, [])
  {
  }

  /**
   * `query_with_retry(prompt, max_retries)` with the given backoff; also
   * returns how many times `query` was called and the waits slept.
   */
  method QueryWithRetry(client: Client, prompt: string, query: nat -> Outcome, maxRetries: int, backoff: Backoff)
    returns (result: QueryResult, calls: nat, waits: seq<nat>)
    ensures Retried(result, calls, waits) == RetrySpec(client, prompt, query, maxRetries, backoff)
  {
    var lastError: Option<string> := None;
    calls := 0;
    waits := [];
    var attempt := 0;
    while attempt < maxRetries
      invariant calls == attempt
      invariant Pending(client, prompt, query, maxRetries, backoff, attempt, lastError, calls, waits)
      decreases maxRetries - attempt
    {
      ghost var lastError0, calls0, waits0 := lastError, calls, waits;
      var o := query(attempt);
      calls := calls + 1;
      if o.Returned? {
        if o.result.success {
          StopKeepsSpec(client, prompt, query, maxRetries, backoff, attempt, lastError0, calls0, waits0);
          result := o.result;
          return;
        }
        lastError := o.result.error;
      } else if o.RaisedClientError? {
        lastError := Some(o.message);
        if !o.recoverable {
          StopKeepsSpec(client, prompt, query, maxRetries, backoff, attempt, lastError0, calls0, waits0);
          break;
        }
      } else {
        lastError := Some(o.text);
      }
      ContinueKeepsSpec(client, prompt, query, maxRetries, backoff, attempt, lastError0, calls0, waits0);
      if attempt < maxRetries - 1 {
        waits := waits + [WaitSeconds(backoff, attempt)];
      }
      attempt := attempt + 1;
    }
    if attempt >= maxRetries {
      RetrySpent(client, prompt, query, maxRetries, backoff, attempt, lastError);
      assert waits + [] == waits;
    }
    result := Exhausted(client, prompt, lastError);
  }

  /** The loop is at attempt `a`, having made `calls` calls and slept `waits`; the rest follows `RetryFrom`. */
  ghost predicate Pending(client: Client, prompt: string, query: nat -> Outcome, maxRetries: int, backoff: Backoff,
                          a: nat, lastError: Option<string>, calls: nat, waits: seq<nat>)
  {
    var rest := RetryFrom(client, prompt, query, maxRetries, backoff, a, lastError);
    RetrySpec(client, prompt, query, maxRetries, backoff) == Retried(rest.result, calls + rest.calls, waits + rest.waits)
  }

  /** An attempt that stops the loop: its result (or its error) is the loop's, after one more call. */
  lemma StopKeepsSpec(client: Client, prompt: string, query: nat -> Outcome, maxRetries: int, backoff: Backoff,
                      a: nat, lastError: Option<string>, calls: nat, waits: seq<nat>)
    requires a < maxRetries && Stops(query(a))
    requires Pending(client, prompt, query, maxRetries, backoff, a, lastError, calls, waits)
    ensures RetrySpec(client, prompt, query, maxRetries, backoff)
      == if query(a).Returned? then Retried(query(a).result, calls + 1, waits)
         else Retried(Exhausted(client, prompt, Some(query(a).message)), calls + 1, waits)
  {
    RetryStops(client, prompt, query, maxRetries, backoff, a, lastError);
    assert waits + [] == waits;
  }

  /** An attempt that neither succeeds nor stops: the loop goes on at the next attempt, after its wait. */
  lemma ContinueKeepsSpec(client: Client, prompt: string, query: nat -> Outcome, maxRetries: int, backoff: Backoff,
                          a: nat, lastError: Option<string>, calls: nat, waits: seq<nat>)
    requires a < maxRetries && !Stops(query(a))
    requires Pending(client, prompt, query, maxRetries, backoff, a, lastError, calls, waits)
    ensures Pending(client, prompt, query, maxRetries, backoff, a + 1, ErrorOf(query(a)), calls + 1,
      waits + (if a < maxRetries - 1 then [WaitSeconds(backoff, a)] else []))
  {
    RetryContinues(client, prompt, query, maxRetries, backoff, a, lastError);
    var w := if a < maxRetries - 1 then [WaitSeconds(backoff, a)] else [];
    var rest := RetryFrom(client, prompt, query, maxRetries, backoff, a + 1, ErrorOf(query(a)));
    assert waits + (w + rest.waits) == waits + w + rest.waits;
  }
}
