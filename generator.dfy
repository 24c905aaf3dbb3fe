/**
 * `PromptGenerator`: prompts for a category, from an LLM when it answers
 * with a JSON list and from fifteen fixed templates otherwise, always
 * normalised to the number requested.
 */
module PromptGeneration {
  import opened Wrappers
  import opened Seqs
  import opened Text
  import opened Json
  import Config
  import AnthropicClient
  import PerplexityClient

  // ---------------------------------------------------------------------------
  // Fallback templates
  // ---------------------------------------------------------------------------

  /** The fifteen templates of `_generate_fallback`, in order. */
  function Templates(category: string): (ts: seq<string>)
    ensures |ts| == 15
  {
    [ "What are the best " + category + " available today?",
      "Which " + category + " offers the most features for the price?",
      "Compare the top rated " + category + " options",
      "What is the most affordable " + category + "?",
      "Best " + category + " for small businesses",
      "Best " + category + " for startups",
      "Best " + category + " for enterprise companies",
      "Which " + category + " has the best customer support?",
      "What are alternatives to popular " + category + "?",
      "What do users say about " + category + " in 2025?",
      "Which " + category + " is easiest to use?",
      "Best " + category + " with free trial",
      "Top rated " + category + " according to reviews",
      "Which " + category + " integrates with other tools?",
      "Most recommended " + category + " by experts" ]
  }

  /**
   * The first `count` fallback prompts (none when `count` is not positive):
   * prompt `i` is template `i mod 15`.
   */
  function Fallback(category: string, count: int): (r: seq<string>)
    ensures |r| == if count > 0 then count else 0
    ensures forall i :: 0 <= i < |r| ==> r[i] == Templates(category)[i % 15]
    decreases if count > 0 then count else 0
  {
    if count <= 0 then []
    else Fallback(category, count - 1) + [Templates(category)[(count - 1) % 15]]
  }

  /** `_generate_fallback` */
  method GenerateFallback(category: string, count: int) returns (result: seq<string>)
    ensures result == Fallback(category, count)
  {
    var templates := Templates(category);
    var n := if count > 0 then count else 0;
    result := [];
    for i := 0 to n
      invariant result == Fallback(category, i)
    {
      result := result + [templates[i % |templates|]];
    }
  }

  /** The fallback prompts repeat every fifteen, and fewer of them are a prefix of more. */
  lemma FallbackCycles(category: string, m: nat, n: nat)
    requires n <= m
    ensures Fallback(category, m)[..n] == Fallback(category, n)
    ensures forall i :: 0 <= i && i + 15 < m ==> Fallback(category, m)[i + 15] == Fallback(category, m)[i]
  {
    var a := Fallback(category, m);
    var b := Fallback(category, n);
    assert forall i :: 0 <= i < n ==> a[..n][i] == b[i];
    forall i | 0 <= i && i + 15 < m
      ensures a[i + 15] == a[i]
    {
      assert (i + 15) % 15 == i % 15;
    }
  }

  // ---------------------------------------------------------------------------
  // Parsing the reply
  // ---------------------------------------------------------------------------

  /** `[str(p) for p in prompts if p]` */
  function ListPrompts(items: seq<Json>): (ps: seq<string>)
    ensures |ps| == |Filter(items, Truthy)|
  {
    var kept := Filter(items, Truthy);
    seq(|kept|, i requires 0 <= i < |kept| => Str(kept[i]))
  }

  /** The prompts of a list are the texts of its truthy items, in order, and there is one per truthy item. */
  lemma ListPromptsFacts(items: seq<Json>)
    ensures |ListPrompts(items)| == Count(items, Truthy)
    ensures forall i :: 0 <= i < |ListPrompts(items)| ==>
      exists j :: 0 <= j < |items| && Truthy(items[j]) && ListPrompts(items)[i] == Str(items[j])
  {
    var kept := Filter(items, Truthy);
    FilterCount(items, Truthy);
    FilterMembers(items, Truthy);
    forall i | 0 <= i < |ListPrompts(items)|
      ensures exists j :: 0 <= j < |items| && Truthy(items[j]) && ListPrompts(items)[i] == Str(items[j])
    {
      assert kept[i] in kept;
      var j :| 0 <= j < |items| && items[j] == kept[i];
    }
  }

  /** Some '[' is followed, later on, by a ']'. */
  predicate HasBrackets(s: string) {
    exists i, j :: 0 <= i < j < |s| && s[i] == '[' && s[j] == ']'
  }

  /**
   * `s[i..j+1]` is the span `\[.*?\]` finds: `i` is the first '[' and `j`
   * the first ']' after it.
   */
  predicate FirstSpanAt(s: string, i: int, j: int) {
    && 0 <= i < j < |s| && s[i] == '[' && s[j] == ']'
    && (forall k :: 0 <= k < i ==> s[k] != '[')
    && (forall k :: i < k < j ==> s[k] != ']')
  }

  /**
   * `re.search(r'\[.*?\]', response, re.DOTALL)`: from the first '[' through
   * the first ']' after it, when there is one.
   */
  function BracketSpan(s: string): Option<string> {
    var i := Find(s, '[');
    if i < 0 then None
    else
      var j := Find(s[i + 1..], ']');
      if j < 0 then None else Some(s[i..i + j + 2])
  }

  /** The span exists exactly when some '[' has a ']' after it, and it is then the first such span. */
  lemma BracketSpanFacts(s: string)
    ensures BracketSpan(s).None? <==> !HasBrackets(s)
    ensures BracketSpan(s).Some? ==>
      exists i, j :: FirstSpanAt(s, i, j) && BracketSpan(s).value == s[i..j + 1]
  {
    var i := Find(s, '[');
    if i < 0 {
      forall i0, j0 | 0 <= i0 < j0 < |s|
        ensures !(s[i0] == '[' && s[j0] == ']')
      {
        assert s[i0] in s;
      }
    } else {
      var rest := s[i + 1..];
      var j := Find(rest, ']');
      if j < 0 {
        forall i0, j0 | 0 <= i0 < j0 < |s|
          ensures !(s[i0] == '[' && s[j0] == ']')
        {
          if s[i0] == '[' {
            assert i <= i0;
            assert rest[j0 - i - 1] == s[j0];
            assert rest[j0 - i - 1] in rest;
          }
        }
      } else {
        assert rest[j] == s[i + 1 + j];
        forall k | i < k < i + j + 1
          ensures s[k] != ']'
        {
          assert s[k] == rest[k - i - 1];
        }
        assert FirstSpanAt(s, i, i + j + 1);
      }
    }
  }

  /**
   * `_parse_json_response`: the prompts of the reply when it decodes to a
   * list; otherwise those of its first bracketed span when that decodes to a
   * list; otherwise none.
   */
  function ParseJsonResponse(response: string, decode: string -> Option<Json>): seq<string> {
    match decode(response)
    case Some(JArr(items)) => ListPrompts(items)
    case _ =>
      match BracketSpan(response)
      case None => []
      case Some(span) =>
        match decode(span)
        case Some(JArr(items)) => ListPrompts(items)
        case _ => []
  }

  /**
   * Prompts come only from a decoded list, either the whole reply or its
   * first bracketed span; a reply that decodes to a list yields exactly that
   * list's prompts.
   */
  lemma ParseJsonFacts(response: string, decode: string -> Option<Json>)
    ensures decode(response).Some? && decode(response).value.JArr? ==>
      ParseJsonResponse(response, decode) == ListPrompts(decode(response).value.items)
    ensures !(decode(response).Some? && decode(response).value.JArr?) && !HasBrackets(response) ==>
      ParseJsonResponse(response, decode) == []
    ensures ParseJsonResponse(response, decode) != [] ==>
      (decode(response).Some? && decode(response).value.JArr?)
      || (BracketSpan(response).Some? && decode(BracketSpan(response).value).Some?
          && decode(BracketSpan(response).value).value.JArr?
          && ParseJsonResponse(response, decode) == ListPrompts(decode(BracketSpan(response).value).value.items))
  {
    BracketSpanFacts(response);
  }

  // ---------------------------------------------------------------------------
  // The providers and `generate`
  // ---------------------------------------------------------------------------

  /** `_generate_with_openai`, from the message content: `content or "[]"`. */
  function OpenAIPrompts(content: Option<string>, decode: string -> Option<Json>): seq<string> {
    ParseJsonResponse(if content.Some? && content.value != "" then content.value else "[]", decode)
  }

  /**
   * `_generate_with_anthropic`, from the content blocks: their texts
   * concatenated. `generate` never reaches it: its branch tests
   * `Platform.CLAUDE`, which raises.
   */
  function AnthropicPrompts(blocks: seq<AnthropicClient.Block>, decode: string -> Option<Json>): seq<string> {
    ParseJsonResponse(AnthropicClient.BlockText(blocks), decode)
  }

  /**
   * `_generate_with_perplexity`, from the status and the decoded body (`None`
   * when it does not decode): the prompts of the first choice's content on a
   * 200, nothing on any other status. `generate` never reaches it: the
   * `Platform.CLAUDE` test before its branch raises.
   */
  function PerplexityPrompts(status: int, data: Option<Json>, decode: string -> Option<Json>): (r: Result<seq<string>>)
    ensures status != 200 ==> r == Success([])
  {
    if status != 200 then Success([])
    else if data.None? then Failure("JSONDecodeError")
    else
      match PerplexityClient.GetField(data.value, "choices", JArr([JObj([])]))
      case Failure(e) => Failure(e)
      case Success(choices) =>
        match PerplexityClient.First(choices)
        case Failure(e) => Failure(e)
        case Success(choice) =>
          match PerplexityClient.GetField(choice, "message", JObj([]))
          case Failure(e) => Failure(e)
          case Success(message) =>
            match PerplexityClient.GetField(message, "content", JStr("[]"))
            case Failure(e) => Failure(e)
            case Success(content) =>
              if content.JStr? then Success(ParseJsonResponse(content.s, decode)) else Failure("TypeError")
  }

  /**
   * The prompts of the LLM path, or the exception it raised. `openai` is the
   * first choice's message content and `gemini` the reply's `text`, each
   * `Failure` when the API call raised. Gemini and ChatGPT are dispatched on
   * their own reply; for any other provider the dispatch reaches
   * `Platform.CLAUDE`, which `Platform` does not define.
   */
  function LlmPrompts(provider: Config.Platform, openai: Result<Option<string>>, gemini: Result<string>,
                      decode: string -> Option<Json>): (r: Result<seq<string>>)
    ensures provider == Config.Perplexity ==> r == Failure("AttributeError")
  {
    match provider
    case Gemini =>
      (match gemini
       case Success(text) => Success(ParseJsonResponse(text, decode))
       case Failure(e) => Failure(e))
    case ChatGPT =>
      (match openai
       case Success(content) => Success(OpenAIPrompts(content, decode))
       case Failure(e) => Failure(e))
    case Perplexity => Failure("AttributeError")
  }

  /** The count normalisation of `generate`: pad with fallback prompts, or cut to `count`. */
  function Normalize(prompts: seq<string>, category: string, count: int): seq<string> {
    if |prompts| < count then prompts + Fallback(category, count - |prompts|)
    else if |prompts| > count then PyTake(prompts, count)
    else prompts
  }

  /** `generate(category, count)` */
  function Generate(category: string, count: int, provider: Config.Platform,
                    openai: Result<Option<string>>, gemini: Result<string>,
                    decode: string -> Option<Json>): seq<string> {
    match LlmPrompts(provider, openai, gemini, decode)
    case Failure(_) => Fallback(category, count)
    case Success(prompts) => Normalize(prompts, category, count)
  }

  /**
   * Normalising yields exactly `count` prompts for a count that is not
   * negative: too few LLM prompts are kept and followed by the first
   * fallback prompts, too many are cut to the first `count`.
   */
  lemma NormalizeFacts(prompts: seq<string>, category: string, count: int)
    ensures count >= 0 ==> |Normalize(prompts, category, count)| == count
    ensures |prompts| <= count ==> Normalize(prompts, category, count) == prompts + Fallback(category, count - |prompts|)
    ensures 0 <= count <= |prompts| ==> Normalize(prompts, category, count) == prompts[..count]
    ensures count < 0 ==> Normalize(prompts, category, count) == PyTake(prompts, count)
  {
    if |prompts| == count {
      assert Fallback(category, 0) == [];
      assert prompts + [] == prompts;
    }
  }

  /**
   * `generate` returns `count` prompts whenever `count` is not negative. A
   * Perplexity provider, or an API call that raises, yields the fallback
   * prompts alone.
   */
  lemma GenerateFacts(category: string, count: int, provider: Config.Platform,
                      openai: Result<Option<string>>, gemini: Result<string>,
                      decode: string -> Option<Json>)
    ensures count >= 0 ==> |Generate(category, count, provider, openai, gemini, decode)| == count
    ensures provider == Config.Perplexity ==> Generate(category, count, provider, openai, gemini, decode) == Fallback(category, count)
    ensures (provider == Config.Gemini && gemini.Failure?) || (provider == Config.ChatGPT && openai.Failure?) ==>
      Generate(category, count, provider, openai, gemini, decode) == Fallback(category, count)
  {
    var l := LlmPrompts(provider, openai, gemini, decode);
    LlmPromptsCases(provider, openai, gemini, decode);
    if l.Success? {
      GenerateFromReply(category, count, provider, openai, gemini, decode, l.value);
    } else {
      GenerateCases(category, count, provider, openai, gemini, decode);
    }
  }

  /**
   * With Gemini answering, the prompts parsed from its reply come first,
   * topped up with fallback prompts or cut to `count`.
   */
  lemma GenerateFromGemini(category: string, count: int, openai: Result<Option<string>>, gemini: Result<string>,
                           decode: string -> Option<Json>)
    ensures gemini.Success? ==>
      var ps := ParseJsonResponse(gemini.value, decode);
      var g := Generate(category, count, Config.Gemini, openai, gemini, decode);
      && (|ps| <= count ==> g == ps + Fallback(category, count - |ps|))
      && (0 <= count <= |ps| ==> g == ps[..count])
  {
    if gemini.Success? {
      LlmPromptsCases(Config.Gemini, openai, gemini, decode);
      GenerateFromReply(category, count, Config.Gemini, openai, gemini, decode, ParseJsonResponse(gemini.value, decode));
    }
  }

  /**
   * With OpenAI answering, the prompts parsed from its message content come
   * first, topped up with fallback prompts or cut to `count`.
   */
  lemma GenerateFromOpenAI(category: string, count: int, openai: Result<Option<string>>, gemini: Result<string>,
                           decode: string -> Option<Json>)
    ensures openai.Success? ==>
      var ps := OpenAIPrompts(openai.value, decode);
      var g := Generate(category, count, Config.ChatGPT, openai, gemini, decode);
      && (|ps| <= count ==> g == ps + Fallback(category, count - |ps|))
      && (0 <= count <= |ps| ==> g == ps[..count])
  {
    if openai.Success? {
      LlmPromptsCases(Config.ChatGPT, openai, gemini, decode);
      GenerateFromReply(category, count, Config.ChatGPT, openai, gemini, decode, OpenAIPrompts(openai.value, decode));
    }
  }

  /** With the prompts `ps` of the reply, `generate` gives `ps` topped up or cut to `count`. */
  lemma GenerateFromReply(category: string, count: int, provider: Config.Platform,
                          openai: Result<Option<string>>, gemini: Result<string>,
                          decode: string -> Option<Json>, ps: seq<string>)
    requires LlmPrompts(provider, openai, gemini, decode) == Success(ps)
    ensures var g := Generate(category, count, provider, openai, gemini, decode);
      && (count >= 0 ==> |g| == count)
      && (|ps| <= count ==> g == ps + Fallback(category, count - |ps|))
      && (0 <= count <= |ps| ==> g == ps[..count])
  {
    GenerateCases(category, count, provider, openai, gemini, decode);
    NormalizeFacts(ps, category, count);
  }

  lemma GenerateCases(category: string, count: int, provider: Config.Platform,
                      openai: Result<Option<string>>, gemini: Result<string>,
                      decode: string -> Option<Json>)
    ensures var l := LlmPrompts(provider, openai, gemini, decode);
      && (l.Failure? ==> Generate(category, count, provider, openai, gemini, decode) == Fallback(category, count))
      && (l.Success? ==> Generate(category, count, provider, openai, gemini, decode) == Normalize(l.value, category, count))
  {
  }

  lemma LlmPromptsCases(provider: Config.Platform, openai: Result<Option<string>>, gemini: Result<string>,
                        decode: string -> Option<Json>)
    ensures var l := LlmPrompts(provider, openai, gemini, decode);
      && (provider == Config.Perplexity ==> l.Failure?)
      && (provider == Config.Gemini ==> (l.Success? <==> gemini.Success?))
      && (provider == Config.Gemini && gemini.Success? ==> l.value == ParseJsonResponse(gemini.value, decode))
      && (provider == Config.ChatGPT ==> (l.Success? <==> openai.Success?))
      && (provider == Config.ChatGPT && openai.Success? ==> l.value == OpenAIPrompts(openai.value, decode))
  {
  }

  /** A reply without usable prompts is replaced entirely by fallback prompts. */
  lemma EmptyReplyFallsBack(category: string, count: int)
    ensures Normalize([], category, count) == Fallback(category, count)
  {
    if count > 0 {
      assert [] + Fallback(category, count) == Fallback(category, count);
    }
  }

  /**
   * In `_generate_with_perplexity`, a status other than 200 yields no
   * prompts, which normalise to exactly the fallback prompts.
   */
  lemma PerplexityErrorFallsBack(category: string, count: int, status: int, data: Option<Json>, decode: string -> Option<Json>)
    requires status != 200
    ensures Normalize(PerplexityPrompts(status, data, decode).value, category, count) == Fallback(category, count)
  {
    EmptyReplyFallsBack(category, count);
  }
}
