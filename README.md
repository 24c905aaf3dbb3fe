# AI Brand Tracker — a verified model of its core

AI Brand Tracker is an actor that measures how often AI assistants mention a
brand. It reads a raw input (category, your brand, up to five competitors,
platforms, up to three prompts) and validates it. It generates further
prompts with an LLM, falling back to fixed templates. It queries each
platform client in batches of five, retrying failed calls, and keeps an error
tracker and a progress tracker along the way.

Each answer then goes through two extractors. An LLM extractor finds the
brand mentions, and a regex extractor finds the cited URLs. From these the
actor computes, per brand:

- the visibility score and the citation share;
- prompts won, lost and tied;
- a per-platform breakdown;
- the top contexts.

It ranks the brands on an overall leaderboard and on per-platform
leaderboards, and writes every result as a record in the dataset: prompt
results, brand summaries, the leaderboard, the run summary and the error
summary. Two analysers (`BrandAnalyzer` and `ConsolidatedAnalyzer`) and a
standalone prompt builder render all answers, grouped by platform, into one
analysis request.

This project models that core in Dafny:

- **Pure code is functions.** Parsing, formatting, metric formulas, regex
  scanning and reply decoding are written as functions, with lemmas about
  them.
- **Loops are methods.** Every loop of the source is a `method` with loop
  invariants, proved equal to a recursive specification function. That
  function's properties are proved as lemmas.
- **Stateful objects are classes.** The error tracker and the progress
  tracker are classes whose methods state their whole new state.
- **The outside world is parameters.** The network, the LLM calls,
  `json.loads` and the clock are parameters:
  - a call's outcome is a value;
  - `decode: string -> Option<Json>` stands for `json.loads`;
  - times are `real`s.

Module layout:

| Area | Files |
|---|---|
| Shared helpers | `wrappers.dfy`, `text.dfy` (Python `lower`, `strip`, slices, decimal digits), `json.dfy` (decoded JSON values, Python truthiness), `seqs.dfy`, `sorting.dfy` (a stable sort, like Python's `sorted`), `dedup.dfy` |
| `config.py`, `utils/` | `config.dfy`, `validators.dfy`, `security.dfy`, `progress_tracker.dfy` |
| `error_handling/` | `error_tracker.dfy` |
| Platform clients | `retry.dfy` (the retry loop both base clients share), `platform_base.dfy`, `browser_base.dfy`, `openai_client.dfy`, `anthropic_client.dfy`, `google_client.dfy`, `perplexity_client.dfy` |
| Analysis | `records.dfy`, `metrics.dfy`, `metrics_facts.dfy`, `leaderboards.dfy`, `mention_extractor.dfy`, `citation_extractor.dfy`, `grouping.dfy`, `analysis_prompt.dfy`, `analyzer.dfy`, `consolidated_analyzer.dfy` |
| Prompts and output | `generator.dfy`, `formatters.dfy` |
| `main.py` | `pipeline.dfy` |

Percentages are integer tenths of a percent (`Metrics.Percent(8, 10) == 800`).
They are rounded half to even from the exact quotient, as Python's
`round(x, 1)` does up to binary floating-point artefacts.

Where the code and its own documentation disagree, the model follows the
code:

- `Platform` (`src/config.py:6-10`) has no `CLAUDE` member. So the prompt
  generator and the mention extractor raise `AttributeError` when their
  provider is neither Gemini nor ChatGPT:
  - the generator falls back to its templates;
  - the extractor returns an empty result.
- `consolidated_analyzer.py` imports an `AnalysisProvider` that `config.py`
  does not define. The model gives it its own datatype.
- `BrandMention` and `PromptResult` are imported from `config.py`, which does
  not define them. The model takes their fields from the way `main.py` fills
  them in (`src/main.py:305-325`).
- `main.py` also reads `ActorInput` attributes that `config.py` does not
  define: `your_brand`, `api_keys`, `custom_prompts` and `prompt_count`. The
  model passes the brand, the prompt list and the platforms that got a client
  in as parameters.
- `main.py` calls `format_prompt_result` and `format_run_summary` with the
  keyword `your_brand`, but both formatters name that parameter `my_brand`.
  The model keeps both calls as written:
  - every analysed answer still gets its prompt result (it is appended
    before the push), but its push raises a `TypeError`, which is recorded
    as an `analysis_failed` error, and no `prompt_result` record is pushed;
  - the run summary call raises a `TypeError` that nothing catches, so the
    run ends there, before the charge and the error summary.

## Model

| member | source | states |
|---|---|---|
| Config.PlatformOf | src/config.py:6-10 | a platform name maps to the one enum member whose value it is, and to nothing when no member has that value |
| Config.ActorInput.AllBrands | src/config.py:21-24 | the brand list is your brand followed by the competitors in order |
| Config.ParsePlatforms | src/config.py:29-34 | the platforms loop returns the same result as `PlatformsOf`: unknown names are skipped, and a non-string item raises |
| Config.PlatformsOf | src/config.py:29-34 | it succeeds exactly when every item is a string, and then yields the recognised platforms in order |
| Config.FailureSticks | src/config.py:29-34 | once a prefix of the platform list raises, the whole list raises |
| Config.PlatformsNonStringRaises | src/config.py:29-34 | a single non-string platform entry makes parsing fail |
| Config.PlatformsNamed | src/config.py:29-34 | every parsed platform is named by some input item |
| Config.PlatformsExample | src/config.py:29-34 | unknown names are dropped and the matching is case-insensitive (`["ChatGPT","bing","chatgpt","Gemini"]` gives ChatGPT, ChatGPT, Gemini) |
| Config.StrippedNonEmpty | src/config.py:39-41 | it succeeds exactly when every item is a string |
| Config.StrippedNonEmptyFacts | src/config.py:39-41 | every kept entry is stripped and non-empty, and there are no more entries than inputs |
| Config.StrippedList | src/config.py:39-41 | the list keeps at most `limit` entries after stripping and dropping empty ones |
| Config.FromRawInputShape | src/config.py:26-42 | a parsed input has at most 5 competitors and 3 prompts, all stripped and non-empty, with a stripped category and brand |
| Config.FromRawInputDefaults | src/config.py:26-42 | an empty raw input parses to empty fields |
| Validators.ToDict | src/utils/validators.py:16-21 | the dictionary carries the kind `validation_error`, the message and the field name |
| Validators.ValidateInput | src/utils/validators.py:24-63 | the checker loop returns exactly the error list `ValidationErrors` |
| Validators.NoErrorsIffValid | src/utils/validators.py:24-63 | no errors are reported if and only if the input meets every rule |
| Validators.ErrorsInCheckOrder | src/utils/validators.py:24-63 | errors come in the order category, brand, platforms, prompts, competitors, at most five of them |
| Validators.ErrorsMatchChecks | src/utils/validators.py:28-61 | each error is present if and only if its own condition holds |
| Validators.OnePromptsError | src/utils/validators.py:46-55 | at most one prompts error is reported |
| Validators.ParsedInputWithinLimits | src/utils/validators.py:46-61 | an input from `from_raw_input` never gets the too-many-prompts or too-many-competitors errors |
| Security.SanitizeErrorMessage | src/utils/security.py:4-22 | the result is the generic message, or a prefix of the input of at most max length whose head holds no secret marker |
| Security.LeakWithinLimitHidden | src/utils/security.py:15-20 | a secret marker inside the first max-length characters always yields the generic message |
| Security.TailNeverInspected | src/utils/security.py:15-22 | text beyond the max length is never inspected, so a secret there passes |
| Security.LateSecretExample | src/utils/security.py:15-22 | "bad token" cut to 3 characters passes as "bad"; uncut, it is hidden |
| ErrorTracking.FatalCountFacts | src/error_handling/tracker.py:60-70 | the fatal count is at most the number of errors, and positive if and only if some error is not recoverable |
| ErrorTracking.FatalCountAppend | src/error_handling/tracker.py:34-47 | a new error adds one to the fatal count exactly when it is not recoverable |
| ErrorTracking.ErrorTracker.constructor | src/error_handling/tracker.py:29-32 | a new tracker has no errors, successes or warnings |
| ErrorTracking.ErrorTracker.AddError | src/error_handling/tracker.py:34-47 | one error record is appended with the given fields, and nothing else changes |
| ErrorTracking.ErrorTracker.AddSuccess | src/error_handling/tracker.py:49-54 | one success record is appended, and nothing else changes |
| ErrorTracking.ErrorTracker.AddWarning | src/error_handling/tracker.py:56-58 | one warning is appended, and nothing else changes |
| ErrorTracking.ErrorTracker.HasFatalErrors | src/error_handling/tracker.py:68-70 | true if and only if some recorded error is not recoverable |
| ErrorTracking.ErrorTracker.GetSummary | src/error_handling/tracker.py:60-79 | the summary counts are the lengths of the three lists and the fatal flag |
| Progress.Truncate | src/utils/progress_tracker.py:106 | `int()` truncates toward zero |
| Progress.DurationMs | src/utils/progress_tracker.py:99-112 | a step's duration is a whole number of seconds in milliseconds, within one second below the elapsed time; a missing or zero completion time reads the clock |
| Progress.WholeSecondDurations | src/utils/progress_tracker.py:106 | a 1.5 s step reports 1000 ms |
| Progress.ProgressTracker.constructor | src/utils/progress_tracker.py:23-27 | a new tracker has no steps and no current step, and starts now |
| Progress.ProgressTracker.StartStep | src/utils/progress_tracker.py:29-35 | the current step becomes a fresh step started now; recorded steps are unchanged |
| Progress.ProgressTracker.CompleteStep | src/utils/progress_tracker.py:43-70 | the current step with that name is completed and appended; a name that does not match leaves the tracker as it was |
| Progress.ProgressTracker.GetSummary | src/utils/progress_tracker.py:99-112 | one summary entry per recorded step, in order, with its duration |
| Retry.Exhausted | src/platforms/base.py:104-111 | the final result after all attempts has failed, with an empty response and the last error |
| Retry.QueryWithRetry | src/platforms/base.py:71-111 | the retry loop returns exactly `RetrySpec`'s result, number of calls and list of waits |
| Retry.RetryFromFacts | src/platforms/base.py:85-102 | no calls once the budget is spent; every call but the last did not stop; a success is the last call's result |
| Retry.RetryContinues | src/platforms/base.py:96-102 | a recoverable failure with budget left moves on to the next attempt |
| PlatformBase.PlatformError | src/platforms/base.py:8-15 | the exception carries its message, platform and recoverable flag |
| PlatformBase.QueryWithRetry | src/platforms/base.py:71-111 | the API client uses the shared loop with exponential waits |
| PlatformBase.DefaultBudget | src/platforms/base.py:71-111 | with the default budget of 3, at most 3 calls are made, waiting 1 s and then 2 s |
| BrowserBase.BrowserClientError | src/browser_clients/base.py:10-18 | the exception carries its message, platform and recoverable flag |
| BrowserBase.QueryWithRetry | src/browser_clients/base.py:165-194 | the browser client uses the shared loop with linear waits |
| BrowserBase.DefaultBudget | src/browser_clients/base.py:165-194 | with the default budget of 2, at most 2 calls are made, with one 2 s wait |
| OpenAIClient.Query | src/platforms/openai_client.py:25-75 | a completed call returns the content; a failure raises a rate-limit error (recoverable) or an invalid-key error (not recoverable), checked in that order, and otherwise a failed result carrying the message |
| OpenAIClient.QueryStops | src/platforms/openai_client.py:53-69 | the retry loop stops exactly on success or on a key error that is not a rate limit |
| OpenAIClient.RateLimitFirst | src/platforms/openai_client.py:53-67 | a message naming both 429 and 401 counts as a rate limit |
| AnthropicClient.ConcatBlocks | src/platforms/anthropic_client.py:40-43 | the loop concatenates the text of the blocks that have text |
| AnthropicClient.BlockTextAppend | src/platforms/anthropic_client.py:40-43 | block text distributes over concatenation |
| AnthropicClient.BlockTextNoText | src/platforms/anthropic_client.py:40-43 | blocks without text give the empty answer |
| AnthropicClient.Query | src/platforms/anthropic_client.py:25-78 | a completed call returns the joined text; failures are classified as for OpenAI |
| AnthropicClient.QueryStops | src/platforms/anthropic_client.py:57-72 | the retry loop stops exactly on success or on a key error that is not a rate limit |
| AnthropicClient.BadKeyExample | src/platforms/anthropic_client.py:65 | "Key INVALID" is a non-recoverable key error, matched case-insensitively |
| GoogleClient.Query | src/platforms/google_client.py:26-77 | a completed call returns the text; quota or rate messages are recoverable and API-key messages are not |
| GoogleClient.QueryStops | src/platforms/google_client.py:57-70 | the retry loop stops exactly on success or on a key error that is not a rate limit |
| GoogleClient.GenerateLooksLikeRateLimit | src/platforms/google_client.py:57-64 | "generate: invalid api key" contains "rate" and so is retried as a rate limit |
| PerplexityClient.Query | src/platforms/perplexity_client.py:25-94 | 429 raises a recoverable rate-limit error and 401 a fatal key error, and nothing else raises; other statuses give a failed result; success needs status 200 |
| PerplexityClient.AnswerText | src/platforms/perplexity_client.py:48-57 | a string content is the answer itself, and a falsy content (`null` among them) is the empty answer that `main` skips |
| PerplexityClient.NullContentIsEmptyAnswer | src/platforms/perplexity_client.py:48-57 | a 200 reply whose content is `null` is a success with the empty answer |
| PerplexityClient.ContentOfReply | src/platforms/perplexity_client.py:48-50 | the content is read from `choices[0].message.content` |
| PerplexityClient.EmptyReplyIsEmptyAnswer | src/platforms/perplexity_client.py:48-58 | a 200 reply without choices gives an empty successful answer |
| PerplexityClient.QueryStops | src/platforms/perplexity_client.py:48-94 | the retry loop stops only on status 200 or 401 |
| Records.FirstMention | src/main.py:299-302 | the first mention whose brand equals the given one ignoring case, or none when there is no such mention |
| Sorting.SortPermutes | src/analyzer/metrics_calculator.py:68-71 | sorting is a permutation of its input |
| Sorting.SortSorted | src/analyzer/metrics_calculator.py:68-71 | the sorted sequence is ordered by the key |
| Sorting.SortHead | src/analyzer/metrics_calculator.py:68-76 | the head of a stable sort is the first element with the least key |
| Sorting.SortSecondTies | src/analyzer/metrics_calculator.py:79 | the second sorted key equals the first if and only if two input elements share the least key |
| Dedup.DedupFacts | src/analyzer/metrics_calculator.py:213-218 | deduplication keeps the first element of each key, in order, and covers every key |
| Dedup.DedupLoop | src/analyzer/citation_extractor.py:52-58 | the seen-set loop returns the order-preserving deduplication |
| Dedup.DedupUpTo | src/analyzer/metrics_calculator.py:213-220 | the loop that stops at the limit returns the first `limit` deduplicated entries |
| Metrics.RoundDiv | src/analyzer/metrics_calculator.py:40 | the quotient is rounded to the nearest integer, ties to even |
| Metrics.Percent | src/analyzer/metrics_calculator.py:38-40 | 0 for a zero total, otherwise the ratio in tenths of a percent, and between 0 and 1000 when the part is within the total |
| Metrics.PercentExamples | src/analyzer/metrics_calculator.py:52-54 | 8/10 gives 80.0%, 1/3 gives 33.3% and 2/3 gives 66.7% |
| Metrics.DetermineWinner | src/analyzer/metrics_calculator.py:56-86 | no winner for no mentions or a true tie at the top; otherwise a brand with the best count-then-rank key |
| Metrics.WinnerFacts | src/analyzer/metrics_calculator.py:68-86 | the sorted head is the first best mention |
| Metrics.TopTiedIffSecondTies | src/analyzer/metrics_calculator.py:79-84 | the source's second-element test is a tie on both count and rank |
| Metrics.WinnerSecondBranchUnreachable | src/analyzer/metrics_calculator.py:81-82 | after sorting, the second mention never has a lower rank at an equal count |
| Metrics.DetermineLoser | src/analyzer/metrics_calculator.py:88-103 | no loser with fewer than two mentions; otherwise the first brand with the least count, later rank first |
| Metrics.WinnerLoserExamples | src/analyzer/metrics_calculator.py:56-103 | worked examples of a winner, a tie and a loser |
| Metrics.CalculateBrandMetrics | src/analyzer/metrics_calculator.py:105-222 | the method returns `BrandMetricsOf` of the brand and the results |
| Metrics.TallyResults | src/analyzer/metrics_calculator.py:134-179 | the accumulation loop follows `TallyOf`, and the three per-platform maps share their keys |
| Metrics.AddResult | src/analyzer/metrics_calculator.py:135-179 | one iteration of the results loop is one `Step` of the tally |
| Metrics.CountOutcome | src/analyzer/metrics_calculator.py:170-179 | won, lost and tied each grow by one exactly when the result's outcome for the brand is that outcome |
| Metrics.SumMentionCounts | src/analyzer/metrics_calculator.py:147-148 | the inner loop sums the mention counts |
| Metrics.BuildBreakdown | src/analyzer/metrics_calculator.py:192-210 | the breakdown loop builds `Breakdown` |
| Metrics.SelectTopContexts | src/analyzer/metrics_calculator.py:213-220 | the loop returns `TopContexts` |
| Metrics.TallyPlatforms | src/analyzer/metrics_calculator.py:138-141 | the per-platform maps have exactly the platforms that occur as keys |
| MetricsFacts.TallyCounts | src/analyzer/metrics_calculator.py:143-179 | prompts is the number of results; with-mention, missed and won are the matching counts |
| MetricsFacts.LostTiedBound | src/analyzer/metrics_calculator.py:175-179 | lost and tied only count results that mention the brand |
| MetricsFacts.NoWinnerCountsNothing | src/analyzer/metrics_calculator.py:170 | a result without a winner changes none of won, lost or tied |
| MetricsFacts.BrandMetricsCounts | src/analyzer/metrics_calculator.py:122-189 | with-mention plus missed is the total; won counts the wins; lost plus tied is at most with-mention; visibility is within 0..100.0% |
| MetricsFacts.TallyNonNegative | src/analyzer/metrics_calculator.py:170-179 | won, lost and tied are never negative |
| MetricsFacts.TotalsBound | src/analyzer/metrics_calculator.py:147-161 | with non-negative counts, the brand's mentions are at most all mentions |
| MetricsFacts.CitationShareBounds | src/analyzer/metrics_calculator.py:186-189 | the citation share is between 0 and 100.0% |
| MetricsFacts.BreakdownPlatforms | src/analyzer/metrics_calculator.py:192-210 | the breakdown has exactly the platforms that occur |
| MetricsFacts.PlatformTallies | src/analyzer/metrics_calculator.py:138-162 | each per-platform counter equals the tally of that platform's results alone |
| MetricsFacts.BreakdownIsPlatformMetrics | src/analyzer/metrics_calculator.py:192-210 | a platform's breakdown is the metrics of that platform's results alone |
| MetricsFacts.TopContextsFacts | src/analyzer/metrics_calculator.py:213-220 | at most 5 top contexts, the first of each 50-character lowercase key, with distinct keys |
| MetricsFacts.TopContextsComplete | src/analyzer/metrics_calculator.py:213-220 | with fewer than 5 distinct keys, every key is represented |
| MetricsFacts.BrandTopContexts | src/analyzer/metrics_calculator.py:164-165 | top contexts are non-empty and at most 5 |
| Leaderboards.LeaderboardFacts | src/analyzer/metrics_calculator.py:224-254 | the leaderboard is a permutation of the metrics, sorted by mentions then visibility (both descending), ranked 1..n |
| Leaderboards.BuildLeaderboard | src/analyzer/metrics_calculator.py:243-254 | the loop returns `Leaderboard` |
| Leaderboards.Ranked | src/analyzer/metrics_calculator.py:289-290 | each row's rank is its position plus one |
| Leaderboards.PlatformRowsFacts | src/analyzer/metrics_calculator.py:275-283 | one row per brand with that platform in its breakdown, with its share and mentions |
| Leaderboards.PlatformBoardFacts | src/analyzer/metrics_calculator.py:273-292 | the platform board is a permutation of the rows, sorted by citation share descending, ranked 1..n |
| Leaderboards.PlatformBoardsKeys | src/analyzer/metrics_calculator.py:271-294 | one board per requested platform |
| Leaderboards.BuildPlatformLeaderboards | src/analyzer/metrics_calculator.py:256-294 | the loop returns `PlatformBoards` |
| Leaderboards.CollectRows | src/analyzer/metrics_calculator.py:275-283 | the inner loop returns `PlatformRows` |
| Leaderboards.AssignRanks | src/analyzer/metrics_calculator.py:289-290 | the ranking loop returns `Ranked` |
| MentionExtraction.Request | src/analyzer/mention_extractor.py:86-97 | the embedded text is the first 3000 characters of the answer |
| MentionExtraction.JsonCandidate | src/analyzer/mention_extractor.py:166-168 | the text from the first `{` to the last `}`, or the whole content when there is none |
| MentionExtraction.MatchBrand | src/analyzer/mention_extractor.py:180-183 | the first valid brand equal to the name ignoring case, and none exactly when no brand matches |
| MentionExtraction.IntField | src/analyzer/mention_extractor.py:187-188 | a missing key gives the default |
| MentionExtraction.ContextOf | src/analyzer/mention_extractor.py:189 | the context is at most 200 characters, and empty when missing |
| MentionExtraction.Extract | src/analyzer/mention_extractor.py:65-109 | empty input, an unsupported provider or a failed call give no mentions; otherwise the parsed response, or nothing when parsing raises |
| MentionExtraction.ParseMentionsLoop | src/analyzer/mention_extractor.py:177-192 | the loop returns `ParseMentions` |
| MentionExtraction.FailureSticks | src/analyzer/mention_extractor.py:177-192 | once a prefix raises, the whole list raises |
| MentionExtraction.MentionsFacts | src/analyzer/mention_extractor.py:177-192 | each kept mention names a valid brand, with a context of at most 200 characters |
| MentionExtraction.DropsEntry | src/analyzer/mention_extractor.py:178-184 | a non-object or unmatched entry adds nothing |
| MentionExtraction.DefaultsApply | src/analyzer/mention_extractor.py:185-191 | a mention without count, rank or context gets count 1, rank position+1 and an empty context |
| MentionExtraction.CitationsFacts | src/analyzer/mention_extractor.py:194-196 | the citations are exactly the non-empty string items |
| MentionExtraction.DecodeFailureIsEmpty | src/analyzer/mention_extractor.py:170-199 | text that does not decode gives an empty result |
| MentionExtraction.NonListMentionsAreNone | src/analyzer/mention_extractor.py:173-175 | a non-list `mentions` gives no mentions |
| CitationExtraction.SchemeEnd | src/analyzer/citation_extractor.py:11-14 | the scheme `http://` or `https://` matches case-insensitively and ends with a slash |
| CitationExtraction.RunEnd | src/analyzer/citation_extractor.py:11-14 | the tail run stops at the first stop character or at the end |
| CitationExtraction.MatchAt | src/analyzer/citation_extractor.py:11-14 | a match is at least 8 characters long |
| CitationExtraction.FindAllShaped | src/analyzer/citation_extractor.py:39 | every match has the URL shape |
| CitationExtraction.FindAllFound | src/analyzer/citation_extractor.py:39 | every match occurs in the text at or after the scan position |
| CitationExtraction.FindAllEmpty | src/analyzer/citation_extractor.py:39 | no matches if and only if no position starts a URL |
| CitationExtraction.RStrip | src/analyzer/citation_extractor.py:45 | the longest prefix without trailing `.,;:!?)` |
| CitationExtraction.ExtractCitations | src/analyzer/citation_extractor.py:25-60 | the method returns `Extract` |
| CitationExtraction.CleanedFacts | src/analyzer/citation_extractor.py:43-49 | every cleaned URL is valid and is the stripped form of some match |
| CitationExtraction.ExtractEntries | src/analyzer/citation_extractor.py:43-87 | every citation is stripped, contains a dot and no placeholder pattern |
| CitationExtraction.ExtractUnique | src/analyzer/citation_extractor.py:52-58 | citations are distinct ignoring case, and each is the first of its kind |
| CitationExtraction.NoUrlNoCitations | src/analyzer/citation_extractor.py:35-39 | text without a URL gives no citations |
| Formatters.FormatWinner | src/output/formatters.py:41-44 | with mentions, a first brand with the best count-then-rank key; ties are never reported as none |
| Formatters.FormatLoser | src/output/formatters.py:46-49 | with two or more mentions, the first brand with the least count |
| Formatters.WinnerRulesCompared | src/output/formatters.py:41-44 | the record's winner agrees with the metrics' winner except on a true tie, where only the record names one |
| Formatters.WinnerRulesDiffer | src/output/formatters.py:41-44 | two brands tied on count and rank: no winner in the metrics, the first in the record |
| Formatters.LoserRulesDiffer | src/output/formatters.py:46-49 | the two loser rules pick different brands on a count tie |
| Formatters.MentionedBrandsMembers | src/output/formatters.py:60 | a lowercase name is in the mentioned set if and only if some mention names it |
| Formatters.CompetitorSplit | src/output/formatters.py:61-62 | mentioned and missed competitors partition the competitor list |
| Formatters.CompetitorOrder | src/output/formatters.py:61-62 | both lists keep the competitors' order |
| Formatters.FormatMentions | src/output/formatters.py:71-80 | one record per mention |
| Formatters.FormatMentionsRoundTrip | src/output/formatters.py:71-80 | the mention records read back to the mentions |
| Formatters.FormatPromptResult | src/output/formatters.py:9-88 | the winner is present if and only if there are mentions, and the loser if and only if there are two; your brand is mentioned if and only if some mention matches; the competitor lists partition the competitors |
| Formatters.MyBrandRank | src/output/formatters.py:52-57 | your brand's rank is that of its first matching mention |
| Formatters.FormatBrandSummary | src/output/formatters.py:91-121 | the summary carries the metrics unchanged, with rank and total brands 0 |
| Formatters.FormatLeaderboard | src/output/formatters.py:124-142 | the record carries the rankings and platform boards |
| Formatters.FormatRunSummary | src/output/formatters.py:145-202 | input, execution and billing fields carry the arguments; the event type is `prompt_analyzed` |
| PromptGeneration.Templates | src/prompt_generator/generator.py:204-220 | there are 15 templates |
| PromptGeneration.Fallback | src/prompt_generator/generator.py:202-226 | `max(count, 0)` prompts, the i-th being template `i mod 15` |
| PromptGeneration.GenerateFallback | src/prompt_generator/generator.py:222-226 | the loop returns `Fallback` |
| PromptGeneration.FallbackCycles | src/prompt_generator/generator.py:222-226 | a shorter fallback is a prefix of a longer one, and the list repeats every 15 |
| PromptGeneration.ListPrompts | src/prompt_generator/generator.py:184-186 | the `str` of each truthy item, in order |
| PromptGeneration.ListPromptsFacts | src/prompt_generator/generator.py:184-186 | one prompt per truthy item |
| PromptGeneration.BracketSpanFacts | src/prompt_generator/generator.py:192 | none if and only if there is no `[`…`]` pair; otherwise the span from the first `[` to the first `]` after it |
| PromptGeneration.ParseJsonFacts | src/prompt_generator/generator.py:180-200 | a decoded list gives its prompts; otherwise the bracket span is tried; otherwise empty |
| PromptGeneration.PerplexityPrompts | src/prompt_generator/generator.py:152-178 | in `_generate_with_perplexity`, which `generate` never reaches, a non-200 status gives no prompts |
| PromptGeneration.LlmPrompts | src/prompt_generator/generator.py:68-77 | the Perplexity provider raises `AttributeError`, because `Platform.CLAUDE` does not exist |
| PromptGeneration.NormalizeFacts | src/prompt_generator/generator.py:80-88 | exactly `count` prompts: a long list is cut, a short list is topped up from the templates, and a negative count slices as Python does |
| PromptGeneration.GenerateFacts | src/prompt_generator/generator.py:47-93 | exactly `count` prompts for a non-negative count; the Perplexity provider and a raising call give the fallback |
| PromptGeneration.GenerateFromGemini | src/prompt_generator/generator.py:68-88 | with Gemini answering, the prompts parsed from its reply come first, topped up with fallback prompts or cut to `count` |
| PromptGeneration.GenerateFromOpenAI | src/prompt_generator/generator.py:70-88 | with OpenAI answering, the prompts parsed from its message content come first, topped up with fallback prompts or cut to `count` |
| PromptGeneration.EmptyReplyFallsBack | src/prompt_generator/generator.py:80-85 | an empty LLM list gives the fallback |
| PromptGeneration.PerplexityErrorFallsBack | src/prompt_generator/generator.py:176-178 | the empty list a non-200 status gives in `_generate_with_perplexity`, topped up as `generate` does (lines 80-85), is exactly the fallback prompts |
| ResponseGrouping.GroupByPlatform | src/analyzer/prompts/analysis_prompt.py:12-20 | the grouping loop returns `Grouped` |
| ResponseGrouping.GroupedKeys | src/analyzer/prompts/analysis_prompt.py:12-20 | one group per platform that occurs, with no duplicates |
| ResponseGrouping.GroupedContents | src/analyzer/prompts/analysis_prompt.py:12-20 | a platform's group is its exchanges as question/answer pairs, in order |
| ResponseGrouping.GroupedOrder | src/analyzer/prompts/analysis_prompt.py:12-20 | groups come in order of first appearance |
| ResponseGrouping.GroupedTotal | src/analyzer/prompts/analysis_prompt.py:12-20 | the groups together hold every exchange once |
| ResponseGrouping.GroupedEmpty | src/analyzer/prompts/analysis_prompt.py:12-23 | there are no groups if and only if there are no exchanges |
| ResponseGrouping.SectionsFacts | src/analyzer/prompts/analysis_prompt.py:25-33 | one section per group, queries numbered from 1, each field within its limit |
| ResponseGrouping.AppendQueries | src/analyzer/prompts/analysis_prompt.py:29-33 | the inner `+=` loop appends `QueriesText` |
| ResponseGrouping.RenderSections | src/analyzer/prompts/analysis_prompt.py:25-33 | the rendering loop returns `SectionsText` of the sections |
| ResponseGrouping.QueriesTextAppend | src/analyzer/prompts/analysis_prompt.py:29-33 | the rendering distributes over concatenation |
| ResponseGrouping.SectionsTextAppend | src/analyzer/prompts/analysis_prompt.py:25-33 | the rendering distributes over concatenation |
| ResponseGrouping.PerPlatformAgree | src/analyzer/analyzer.py:64 | the guarded division and the zero-check division agree, and give 0 without exchanges |
| AnalysisPrompt.BuildAnalysisPrompt | src/analyzer/prompts/analysis_prompt.py:6-159 | the builder returns `Request` of its inputs |
| AnalysisPrompt.RequestFieldFacts | src/analyzer/prompts/analysis_prompt.py:35-47 | brand and competitors are cut to 500 characters, the category to 200 or "General" when empty |
| AnalysisPrompt.RequestSectionFacts | src/analyzer/prompts/analysis_prompt.py:12-33 | count, per-platform division and sections as grouped, every field within 100/2000/50000 characters |
| BrandAnalysis.BuildAnalysisPrompt | src/analyzer/analyzer.py:30-167 | the builder returns `Request` of its inputs |
| BrandAnalysis.RequestFacts | src/analyzer/analyzer.py:48-74 | one section per platform, queries numbered from 1 and uncut, with the zero-check per-platform count |
| BrandAnalysis.JoinTextBlocks | src/analyzer/analyzer.py:217-222 | the loop joins the text blocks and skips the others |
| BrandAnalysis.ResultTextAppend | src/analyzer/analyzer.py:217-222 | the joined text distributes over concatenation |
| BrandAnalysis.ResultTextNoText | src/analyzer/analyzer.py:217-222 | no text blocks give the empty text |
| BrandAnalysis.StripFencesUnfenced | src/analyzer/analyzer.py:226-233 | unfenced text is only stripped |
| BrandAnalysis.StripFencesWrapped | src/analyzer/analyzer.py:226-233 | an unpadded body in a `json` or bare fence comes back as it was |
| BrandAnalysis.ApplyCategoryFacts | src/analyzer/analyzer.py:238-239 | a dict without a summary is kept; a summary is set if and only if it is a dict, and then it gets the input category |
| BrandAnalysis.AnalyzeFacts | src/analyzer/analyzer.py:169-253 | a failed call or an undecodable reply gives none; otherwise the fenced reply is parsed with the category applied |
| ConsolidatedAnalysis.ResultTextFacts | src/analyzer/consolidated_analyzer.py:202-245 | OpenAI needs content, Anthropic's first block must exist and hold text, Google's reply passes through |
| ConsolidatedAnalysis.AnalyzeFacts | src/analyzer/consolidated_analyzer.py:200-270 | an unsupported provider, a raising call and undecodable text all give none; otherwise the reply is parsed as is, with the category applied |
| Pipeline.PromptIdInjective | src/main.py:216-218 | prompt ids of one platform are equal if and only if the indices are |
| Pipeline.BatchesPartition | src/main.py:210-212 | the batches cover 0..n in order without gaps or overlap, each at most 5 long |
| Pipeline.BatchOfPrompt | src/main.py:210-217 | prompt i is in batch i div 5 |
| Pipeline.QueryOutcome | src/main.py:156-202 | a success gives the answer; a failure or an exception gives an unsuccessful record with the error |
| Pipeline.QuerySinglePrompt | src/main.py:156-202 | the record is `ResponseOf` the attempt, and the tracker gains exactly one success or one error |
| Pipeline.Responses | src/main.py:204-235 | one record per prompt in the range |
| Pipeline.QueryBatch | src/main.py:210-228 | the batch's records in prompt order, with the matching tracker entries appended |
| Pipeline.QueryPlatform | src/main.py:204-235 | all prompts' records for the platform, in order |
| Pipeline.QueryAllPlatforms | src/main.py:237-252 | platform blocks one after another, and the tracker gains each platform's errors and successes in the same order |
| Pipeline.PromptEntries | src/main.py:156-202 | one prompt leaves exactly one tracker entry: a success when its record is successful, otherwise a recoverable error |
| Pipeline.RangeEntries | src/main.py:204-235 | the prompts of a platform leave one tracker entry each, with as many successes as successful records |
| Pipeline.RangeErrorsRecoverable | src/main.py:204-235 | every error recorded for a platform's prompts is recoverable |
| Pipeline.TrackerEntriesPerRecord | src/main.py:156-252 | after querying all platforms there are as many tracker entries as records, as many successes as successful records, and every error is recoverable |
| Pipeline.AllResponsesFacts | src/main.py:237-252 | the total is platforms times prompts, each block being its platform's records |
| Pipeline.RecordOfPrompt | src/main.py:216-252 | the record at position p·n+i is prompt i on platform p |
| Pipeline.UnexpectedKeyword | src/main.py:330-340 | Python's keyword binding, as `main`'s calls of the formatters meet it: a call binds when every keyword names a parameter; otherwise it raises the `TypeError` of the first keyword that names none |
| Pipeline.PromptResultCallRaises | src/main.py:330-340 | `main` passes `your_brand` to `format_prompt_result`, whose parameter is `my_brand` (`src/output/formatters.py:17`), so the call raises |
| Pipeline.RunSummaryCallRaises | src/main.py:404-416 | `main` passes `your_brand` to `format_run_summary`, whose parameter is `my_brand` (`src/output/formatters.py:148`), so the call raises |
| Pipeline.AnalyzeOne | src/main.py:274-347 | one record: a skipped record leaves everything alone; an analysed one appends its prompt result, then records the push's failure or pushes the record |
| Pipeline.AnalyzeResponses | src/main.py:274-347 | the loop returns `AnalysedResults`, pushes `PushedRecords` and appends `AnalysisErrors` to the tracker's errors |
| Pipeline.AnalysedStep | src/main.py:274-347 | one more record adds exactly that record's result, error and pushed record |
| Pipeline.FailuresFor | src/main.py:342-347 | one `analysis_failed` error per record, in order, each naming its record |
| Pipeline.AnalysisFailsPerAnswer | src/main.py:274-347 | as written, the errors recorded are one recoverable `analysis_failed` error per analysable record, in order, naming its platform and prompt id and carrying the `TypeError` about `your_brand` |
| Pipeline.RecordFails | src/main.py:330-347 | an analysable record records the `TypeError` about `your_brand`; another record records nothing |
| Pipeline.NothingPushed | src/main.py:330-340 | as written, the analysis loop pushes no `prompt_result` record |
| Pipeline.AnalysedIsFilteredMap | src/main.py:274-278 | the analysed results are those of the successful non-empty responses, in order |
| Pipeline.AnalysedFacts | src/main.py:274-325 | one result per successful answer, carrying its ids and text |
| Pipeline.ResultBrandFacts | src/main.py:299-325 | your brand is mentioned if and only if a mention matches, and the rank is that mention's |
| Pipeline.NamedCompetitorsFacts | src/main.py:317-320 | the named competitors are exactly the mentioned brands that match a competitor ignoring case |
| Pipeline.ResultMissedFacts | src/main.py:321-324 | a competitor is missed if and only if no mention names it ignoring case |
| Pipeline.ResultAgreesWithRecord | src/main.py:305-325 | your brand's flag and rank and the missed competitors agree with the dataset record's, and so does the winner except on a true tie |
| Pipeline.NamedCompetitorsSpelling | src/main.py:317-324 | the result lists the mention's spelling, the record the competitor's |
| Pipeline.AllBrandMetrics | src/main.py:358-366 | one metrics entry per brand, in order |
| Pipeline.FindRanking | src/main.py:376-386 | the index of the first row with that brand, and -1 exactly when there is none |
| Pipeline.LeaderboardRank | src/main.py:369-386 | a brand with metrics gets a rank between 1 and n, and 0 otherwise |
| Pipeline.BrandsOnBoard | src/main.py:369-386 | a brand is on the board if and only if it has metrics |
| Pipeline.SummaryOf | src/main.py:376-388 | the summary carries the brand's metrics and the number of brands |
| Pipeline.SummariesRanked | src/main.py:376-388 | each brand summary's rank is its leaderboard position |
| Pipeline.ChargedPerAnalysedAnswer | src/main.py:401-427 | the charge `main` would make past the run summary: one event per analysable answer, and none when there is none. As written the charge is not reached (`RunStopsAtSummary`) |
| Pipeline.RunStopsAtSummary | src/main.py:398-446 | as written, the `FINALIZE` step stops at the run summary with the `TypeError` about `your_brand`, before the charge and the error summary |
| Pipeline.ErrorSummaryOf | src/main.py:430-446 | the summary `main` would push past the run summary exists if and only if there are errors or warnings, with the last 10 errors and last 5 warnings. As written it is not reached (`RunStopsAtSummary`) |

## Left out

- Network, LLM and browser calls are parameters: each call's outcome, reply, status code or raised exception is an input value. Which client is created (`create_platform_client`, the API keys) is left out; `QueryAllPlatforms` takes the platforms that got a client.
- Browser clients' page automation (`chatgpt_client.py`, `gemini_client.py` and `perplexity_client.py` under `browser_clients/`) is not part of this model. Only their shared retry loop and error type are.
- `json.loads` is an abstract `decode` parameter; `json.dumps` of the competitor list is kept as the list itself.
- Exceptions are modelled by their type name only. Exception messages after `str(e)` and all logging are left out.
- asyncio concurrency: the batch and platform gathers are modelled in their sequential result order. `asyncio.sleep` waits are recorded, not slept. An exception escaping a gathered task cannot happen in the model because every query failure is caught, so the `batch_exception` and `platform_exception` branches are not modelled.
- Clock readings (`datetime.now`, `time.time`) are `real` parameters; `isoformat` timestamps and the run summary's duration are left out. Error and success records' timestamps are left out because no logic reads them.
- Floating point: percentages are exact tenths, rounded half to even; representation artefacts of binary floats are not modelled.
- Python `lower` is ASCII-only here, and `\w`, `\s` and `\d` in the URL regex are approximated by ASCII classes.
- `Actor.push_data` and `Actor.charge` are not modelled as effects. The records they receive are the formatter functions' results.
- `ConsolidatedAnalyzer`, `BrandAnalyzer` and `build_analysis_prompt` are not called from `main.py`. They are modelled on their own.
- The fixed prose of the prompts (system messages, instructions) is left out; only the parts that depend on the input are modelled.
- ResponseGrouping.PerPlatformAgree: no bound is proved on the per-platform division itself, only that the two ways of guarding it agree.
- The early exits of `main` (the failed-validation record at `src/main.py:73-93` and the missing-key record at `src/main.py:111-119`) are not modelled as records; the validation itself is `Validators.ValidateInput`.
- The progress tracker's log lines and the `INPUT`/`PROMPTS`/`QUERY` step calls in `main` are not modelled; the tracker's operations are.
- Package `__init__.py` files only re-export names and are not modelled.
- MentionExtraction.IntField: a `count` or `rank` that is a float, a string or `null` becomes the default, where the source stores the value unchanged (so a string count later raises in `determine_winner`, and a float count is compared as a float). Mentions carry integer counts and ranks because the metrics compute with them.
- MentionExtraction.ContextOf: a list `context` becomes the empty context, where the source stores the sliced list.
- MentionExtraction.Entry: `isRecommended` becomes its truthiness (`"no"` is true), where the source stores the value unchanged.
- PerplexityClient.AnswerText: a truthy content that is not a string (a number, a list, a dict) is analysed as its `str`, where the source keeps the value itself.
- PromptGeneration.PerplexityErrorFallsBack: it is about `_generate_with_perplexity`, which `generate` never reaches, because the `Platform.CLAUDE` test raises first. That the Perplexity provider always gets the fallback is `PromptGeneration.GenerateFacts`.
- PromptGeneration.PerplexityPrompts and PromptGeneration.AnthropicPrompts model helpers that `generate` never calls: the Perplexity provider raises at the `Platform.CLAUDE` test, and no provider reaches the Anthropic branch.
- Pipeline.UnexpectedKeyword: only unexpected keywords are checked, not missing required parameters, because both calls of `main` fail on the unexpected keyword first.
