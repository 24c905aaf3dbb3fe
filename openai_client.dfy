/**
 * `OpenAIClient.query`: the API call is a parameter; its outcome is turned
 * into a result or into a `PlatformError` by looking at the error text.
 */
module OpenAIClient {
  import opened Wrappers
  import opened Text
  import opened Retry

  const Chatgpt := Client("chatgpt", "gpt-5.2")

  /** What the chat-completions call did: its first choice's content, or an exception's `str(e)`. */
  datatype ApiCall = Completed(content: Option<string>) | Failed(message: string)

  /** `"rate_limit" in error_msg.lower() or "429" in error_msg` */
  predicate RateLimited(m: string) {
    Contains(Lower(m), "rate_limit") || Contains(m, "429")
  }

  /** `"invalid_api_key" in error_msg.lower() or "401" in error_msg` */
  predicate BadKey(m: string) {
    Contains(Lower(m), "invalid_api_key") || Contains(m, "401")
  }

  /**
   * `query(prompt)`: the content (or "") on success; a rate limit raises a
   * recoverable error and is checked first; a bad key raises a
   * non-recoverable one; any other error is a failed result with the text.
   */
  function Query(prompt: string, call: ApiCall): (o: Outcome)
    ensures call.Completed? ==>
      o == Returned(QueryResult("chatgpt", "gpt-5.2", prompt, call.content.GetOr(""), true, None))
    ensures call.Failed? ==> (o.RaisedClientError? && o.recoverable <==> RateLimited(call.message))
    ensures call.Failed? ==> (o.RaisedClientError? && !o.recoverable <==> !RateLimited(call.message) && BadKey(call.message))
    ensures call.Failed? && !RateLimited(call.message) && !BadKey(call.message) ==>
      o == Returned(QueryResult("chatgpt", "gpt-5.2", prompt, "", false, Some(call.message)))
    ensures o.RaisedClientError? ==> EndsWith(o.message, call.message)
  {
    match call
    case Completed(content) =>
      Returned(QueryResult(Chatgpt.platformName, Chatgpt.modelName, prompt, content.GetOr(""), true, None))
    case Failed(m) =>
      if RateLimited(m) then RaisedClientError("Rate limit exceeded: " + m, true)
      else if BadKey(m) then RaisedClientError("Invalid API key: " + m, false)
      else Returned(QueryResult(Chatgpt.platformName, Chatgpt.modelName, prompt, "", false, Some(m)))
  }

  /** The retry loop gives up on this client's outcome exactly on success or on a bad key that is not also a rate limit. */
  lemma QueryStops(prompt: string, call: ApiCall)
    ensures Stops(Query(prompt, call)) <==> call.Completed? || (!RateLimited(call.message) && BadKey(call.message))
  {
  }

  /** A message naming both a 429 and a 401 is a rate limit, so it is retried. */
  lemma RateLimitFirst()
    ensures Query("p", Failed("429 then 401")) == RaisedClientError("Rate limit exceeded: 429 then 401", true)
  {
    var m := "429 then 401";
    assert m[0..3] == "429";
    ContainsAt(m, "429", 0);
  }
}
