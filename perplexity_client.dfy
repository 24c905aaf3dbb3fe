/**
 * `PerplexityClient.query`: the HTTP exchange is a parameter; its status
 * code decides between a result, a `PlatformError`, and a failed result.
 */
module PerplexityClient {
  import opened Wrappers
  import opened Text
  import opened Json
  import opened Retry

  const Perplexity := Client("perplexity", "llama-3.1-sonar-large-128k-online")

  /**
   * What the POST did: a response with its status, its body text and the
   * body decoded as JSON (`None` when `response.json()` raises), or an
   * exception, named by its type.
   */
  datatype Exchange = Response(status: int, body: string, data: Option<Json>) | Crashed(exception: string)

  /** `x[0]` on a JSON value: lists and non-empty strings have a first item; anything else raises. */
  function First(v: Json): Result<Json> {
    match v
    case JArr(items) => if items == [] then Failure("IndexError") else Success(items[0])
    case JStr(s) => if s == "" then Failure("IndexError") else Success(JStr([s[0]]))
    case JObj(_) => Failure("KeyError")
    case _ => Failure("TypeError")
  }

  /** `x.get(key, default)` on a JSON value: only dicts have `get`. */
  function GetField(v: Json, key: string, default: Json): Result<Json> {
    if v.JObj? then Success(GetOr(v.members, key, default)) else Failure("AttributeError")
  }

  /** `data.get("choices", [{}])[0].get("message", {}).get("content", "")` */
  function Content(data: Json): Result<Json> {
    match GetField(data, "choices", JArr([JObj([])]))
    case Failure(e) => Failure(e)
    case Success(choices) =>
      match First(choices)
      case Failure(e) => Failure(e)
      case Success(choice) =>
        match GetField(choice, "message", JObj([]))
        case Failure(e) => Failure(e)
        case Success(message) => GetField(message, "content", JStr(""))
  }

  /**
   * The `content` as the answer text: a string is itself. Any other value
   * the source keeps as it is; a falsy one is shown as the empty answer,
   * which `main` skips as it skips the falsy value, and a truthy one as its
   * `str`.
   */
  function AnswerText(content: Json): (t: string)
    ensures content.JStr? ==> t == content.s
    ensures !Truthy(content) ==> t == ""
  {
    if !Truthy(content) then "" else Str(content)
  }

  function Failed(prompt: string, error: string): QueryResult {
    QueryResult(Perplexity.platformName, Perplexity.modelName, prompt, "", false, Some(error))
  }

  /** `query(prompt)`: any exception other than the two `PlatformError`s becomes a failed result. */
  function Query(prompt: string, ex: Exchange): (o: Outcome)
    ensures ex.Response? && ex.status == 429 ==> o == RaisedClientError("Rate limit exceeded", true)
    ensures ex.Response? && ex.status == 401 ==> o == RaisedClientError("Invalid API key", false)
    ensures o.RaisedClientError? <==> ex.Response? && (ex.status == 429 || ex.status == 401)
    ensures ex.Response? && ex.status !in {200, 401, 429} ==>
      o == Returned(Failed(prompt, "HTTP " + IntToString(ex.status) + ": " + ex.body))
    ensures o.Returned? && o.result.success ==> ex.Response? && ex.status == 200
    ensures ex.Crashed? ==> o == Returned(Failed(prompt, ex.exception))
  {
    match ex
    case Crashed(e) => Returned(Failed(prompt, e))
    case Response(status, body, data) =>
      if status == 200 then
        if data.None? then Returned(Failed(prompt, "JSONDecodeError"))
        else
          match Content(data.value)
          case Failure(e) => Returned(Failed(prompt, e))
          case Success(c) => Returned(QueryResult(Perplexity.platformName, Perplexity.modelName, prompt, AnswerText(c), true, None))
      else if status == 429 then RaisedClientError("Rate limit exceeded", true)
      else if status == 401 then RaisedClientError("Invalid API key", false)
      else Returned(Failed(prompt, "HTTP " + IntToString(status) + ": " + body))
  }

  /** A well-formed reply yields its first choice's message content. */
  lemma ContentOfReply(text: string)
    ensures Content(JObj([("choices", JArr([JObj([("message", JObj([("content", JStr(text))]))])]))])) == Success(JStr(text))
  {
  }

  /** Missing keys fall back to the defaults, so a reply `{}` is a success with an empty answer. */
  lemma EmptyReplyIsEmptyAnswer(prompt: string, body: string)
    ensures Query(prompt, Response(200, body, Some(JObj([])))) == Returned(QueryResult("perplexity", "llama-3.1-sonar-large-128k-online", prompt, "", true, None))
  {
  }

  /** A `null` content is a success with the empty answer, which is not analysed. */
  lemma NullContentIsEmptyAnswer(prompt: string, body: string)
    ensures Query(prompt, Response(200, body, Some(JObj([("choices", JArr([JObj([("message", JObj([("content", JNull)]))])]))]))))
      == Returned(QueryResult("perplexity", "llama-3.1-sonar-large-128k-online", prompt, "", true, None))
  {
  }

  /** Only a 200 can succeed, and only a 401 stops the retry loop. */
  lemma QueryStops(prompt: string, ex: Exchange)
    ensures Stops(Query(prompt, ex)) ==> ex.Response? && (ex.status == 200 || ex.status == 401)
    ensures ex.Response? && ex.status == 401 ==> Stops(Query(prompt, ex))
  {
  }
}
