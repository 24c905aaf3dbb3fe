/**
 * `ConsolidatedAnalyzer`: the same analysis call as `BrandAnalyzer`, sent to
 * one of three providers; the reply is parsed as it is, without cutting
 * code fences.
 */
module ConsolidatedAnalysis {
  import opened Wrappers
  import opened Json
  import opened ResponseGrouping
  import BrandAnalysis
  import AnthropicClient

  /**
   * `AnalysisProvider`; `config.py` does not define it, so its members are
   * those the analyzer compares against, plus any other value.
   */
  datatype AnalysisProvider = OpenAIProvider | AnthropicProvider | GoogleProvider | Unsupported(name: string)

  /**
   * What each provider's call returned: the first choice's message content,
   * the content blocks (a block's text, or `None` for a block without one) or
   * the reply's `text`; `Failure` when the call raised.
   */
  datatype Replies = Replies(
    openai: Result<Option<string>>,
    anthropic: Result<seq<AnthropicClient.Block>>,
    google: Result<string>)

  /**
   * `result_text` for a supported provider, or the exception reading it
   * raises: no content from OpenAI, no first block or a first block
   * without text from Anthropic.
   */
  function ResultText(provider: AnalysisProvider, replies: Replies): (r: Result<string>)
    requires !provider.Unsupported?
  {
    match provider
    case OpenAIProvider =>
      (match replies.openai
       case Failure(e) => Failure(e)
       case Success(content) => if content.Some? then Success(content.value) else Failure("TypeError"))
    case AnthropicProvider =>
      (match replies.anthropic
       case Failure(e) => Failure(e)
       case Success(blocks) =>
         if blocks == [] then Failure("IndexError")
         else if blocks[0].None? then Failure("AttributeError")
         else Success(blocks[0].value))
    case GoogleProvider => replies.google
  }

  /**
   * `analyze_all_responses`. `api` gives the replies to the built prompt;
   * `decode` is `json.loads`, `None` when the text is not JSON.
   */
  function AnalyzeAllResponses(provider: AnalysisProvider, myBrand: string, competitors: seq<string>,
                               category: string, rs: seq<Exchange>,
                               api: BrandAnalysis.AnalyzerRequest -> Replies,
                               decode: string -> Option<Json>): Option<Json> {
    var request := BrandAnalysis.Request(myBrand, competitors, rs);
    if provider.Unsupported? then None
    else
      match ResultText(provider, api(request))
      case Failure(_) => None
      case Success(text) =>
        match decode(text)
        case None => None
        case Some(output) => BrandAnalysis.ApplyCategory(output, category)
  }

  /**
   * An unsupported provider, a call that raises and text that is not JSON
   * all give None; otherwise the output is the text parsed as it is, with
   * the input category applied, so a fenced reply that does not parse gives
   * None.
   */
  lemma AnalyzeFacts(provider: AnalysisProvider, myBrand: string, competitors: seq<string>,
                     category: string, rs: seq<Exchange>,
                     api: BrandAnalysis.AnalyzerRequest -> Replies, decode: string -> Option<Json>)
    ensures provider.Unsupported? ==> AnalyzeAllResponses(provider, myBrand, competitors, category, rs, api, decode).None?
    ensures !provider.Unsupported? ==>
      var text := ResultText(provider, api(BrandAnalysis.Request(myBrand, competitors, rs)));
      var out := AnalyzeAllResponses(provider, myBrand, competitors, category, rs, api, decode);
      && (text.Failure? ==> out.None?)
      && (text.Success? && decode(text.value).None? ==> out.None?)
      && (text.Success? && decode(text.value).Some? ==> out == BrandAnalysis.ApplyCategory(decode(text.value).value, category))
    ensures AnalyzeAllResponses(provider, myBrand, competitors, category, rs, api, decode).Some? ==>
      var text := ResultText(provider, api(BrandAnalysis.Request(myBrand, competitors, rs)));
      text.Success? && decode(text.value).Some?
  {
  }

  /** The providers' replies are read as the source does: a failed read never yields text. */
  lemma ResultTextFacts(provider: AnalysisProvider, replies: Replies)
    requires !provider.Unsupported?
    ensures provider == OpenAIProvider ==>
      (ResultText(provider, replies).Success? <==> replies.openai.Success? && replies.openai.value.Some?)
    ensures provider == AnthropicProvider && replies.anthropic.Success? && replies.anthropic.value != [] ==>
      ResultText(provider, replies) == (if replies.anthropic.value[0].Some? then Success(replies.anthropic.value[0].value) else Failure("AttributeError"))
    ensures provider == AnthropicProvider && replies.anthropic == Success([]) ==> ResultText(provider, replies) == Failure("IndexError")
    ensures provider == GoogleProvider ==> ResultText(provider, replies) == replies.google
  {
  }
}
