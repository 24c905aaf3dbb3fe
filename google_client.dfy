/**
 * `GoogleClient.query`: an empty or missing reply text becomes "", and
 * errors are classified by their lower-cased text.
 */
module GoogleClient {
  import opened Wrappers
  import opened Text
  import opened Retry

  const Gemini := Client("gemini", "gemini-3-pro-preview")

  /** What `generate_content` did: the reply's `text` (possibly missing), or an exception's `str(e)`. */
  datatype ApiCall = Completed(text: Option<string>) | Failed(message: string)

  /** `"quota" in error_msg.lower() or "rate" in error_msg.lower()` */
  predicate RateLimited(m: string) {
    Contains(Lower(m), "quota") || Contains(Lower(m), "rate")
  }

  /** `"api key" in msg and ("invalid" in msg or "not valid" in msg)` on the lower-cased message. */
  predicate BadKey(m: string) {
    Contains(Lower(m), "api key") && (Contains(Lower(m), "invalid") || Contains(Lower(m), "not valid"))
  }

  /** `query(prompt)` */
  function Query(prompt: string, call: ApiCall): (o: Outcome)
    ensures call.Completed? ==>
      o == Returned(QueryResult("gemini", "gemini-3-pro-preview", prompt, call.text.GetOr(""), true, None))
    ensures call.Failed? ==> (o.RaisedClientError? && o.recoverable <==> RateLimited(call.message))
    ensures call.Failed? ==> (o.RaisedClientError? && !o.recoverable <==> !RateLimited(call.message) && BadKey(call.message))
    ensures call.Failed? && !RateLimited(call.message) && !BadKey(call.message) ==>
      o == Returned(QueryResult("gemini", "gemini-3-pro-preview", prompt, "", false, Some(call.message)))
    ensures o.RaisedClientError? ==> EndsWith(o.message, call.message)
  {
    match call
    case Completed(text) =>
      Returned(QueryResult(Gemini.platformName, Gemini.modelName, prompt, text.GetOr(""), true, None))
    case Failed(m) =>
      if RateLimited(m) then RaisedClientError("Rate limit exceeded: " + m, true)
      else if BadKey(m) then RaisedClientError("Invalid API key: " + m, false)
      else Returned(QueryResult(Gemini.platformName, Gemini.modelName, prompt, "", false, Some(m)))
  }

  lemma QueryStops(prompt: string, call: ApiCall)
    ensures Stops(Query(prompt, call)) <==> call.Completed? || (!RateLimited(call.message) && BadKey(call.message))
  {
  }

  /**
   * "rate" is looked for anywhere, so a message about generating content
   * counts as a rate limit and is retried, even when it also reports an
   * invalid API key.
   */
  lemma GenerateLooksLikeRateLimit()
    ensures Query("p", Failed("generate: invalid api key")).RaisedClientError?
    ensures Query("p", Failed("generate: invalid api key")).recoverable
  {
    var l := LowerExample();
    GenerateParts("generate: invalid api key", l);
  }

  lemma LowerExample() returns (l: string)
    ensures l == Lower("generate: invalid api key") && l == "generate: invalid api key"
  {
    l := Lower("generate: invalid api key");
  }

  lemma GenerateParts(m: string, l: string)
    requires l == Lower(m) && l == "generate: invalid api key"
    ensures RateLimited(m)
  {
    var front, back := "gene", ": invalid api key";
    assert l == front + "rate" + back;
    assert l[|front|..|front| + 4] == "rate";
    ContainsAt(l, "rate", |front|);
  }
}
