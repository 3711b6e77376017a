# LinkedIn outreach agents: a Dafny model

This project models the decision logic of a teaching repository about
LLM agents that research LinkedIn prospects and write outreach messages.
It covers six parts:

- **the raw agentic loop** (`lesson2/agent_raw_api.py`). The model is
  called at most five times. Tool requests are run and their results are
  fed back. The loop stops on `end_turn` or on a reply without tool
  requests. Metrics are kept per call.
- **the profile tool** (`lesson2/tools/linkedin.py`). It turns the
  EnrichLayer response into a profile or an error reply, with a
  completeness report.
- **the human review tool** (`lesson2/tools/human_feedback.py`). It
  collects a rating and remarks, or gives a fixed sample review in demo
  mode, and renders the text handed back to the model.
- **the fixed three-step workflow** (`lesson1/chained_outreach.py`): fetch,
  extract and prompt. It has no error recovery.
- **the debugging and tracking helpers**
  (`lesson2/utils/observability.py`).
- **the setup checker** (`lesson1/verify_setup.py`).

Everything the programs do not decide themselves is an input:

- the HTTP outcome of each request (`HttpOutcome`);
- the model's replies, as a sequence (`ModelResponse`) or as a function
  from prompt to text (`Model`);
- environment variables (`Option<string>`);
- what the human reviewer types (`Answers`);
- the probes of the setup checker (booleans, and a `string -> bool`
  for file existence).

Python semantics are written out where the code relies on them:

- truthiness (`JsonData.Truthy`);
- `dict.get` with and without a default;
- which values `len()` accepts;
- `str.strip`, `str.lower`, `str.isdigit` and `str.split`;
- negative slice bounds;
- the exceptions the code lets escape, as error values. These are
  `Result.Err` in the profile tool and `ChainedOutreach.Fault` in the
  workflow.

The modules:

| file | module | what it holds |
|---|---|---|
| core.dfy | Core | `Option` and `Result` |
| text.dfy | Text | string operations and their laws |
| json.dfy | JsonData | JSON values and Python access |
| http.dfy | Http | the outcome of one HTTP request |
| linkedin.dfy | LinkedIn | `analyze_profile_quality` and `fetch_linkedin_profile` |
| agent.dfy | Agent | `execute_tool`, one turn, and `run_agent` |
| agent_loop.dfy | AgentLoop | what `run_agent` guarantees |
| human_feedback.dfy | HumanFeedback | `request_human_review` and a decoder for its reply |
| chained_outreach.dfy | ChainedOutreach | the chained workflow |
| observability.dfy | Observability | `init_observability`, `debug_print` and `LLMTracker` |
| verify_setup.dfy | VerifySetup | the setup checks and the summary's exit code |

`AgentLoop` proves its guarantees in two steps. First, one lemma
(`RunSettles`) characterises every run. That characterisation is stated
against reference definitions of the history after k turns
(`Transcript`), the call log (`ApiLog`) and the tool log (`ToolLog`).
Each guarantee is then read off that characterisation.

`HumanFeedback` pairs the reply renderer with a decoder. Its round trip
shows that the reply text carries the whole review.

## Model

| member | source | states |
|---|---|---|
| Text.Lower | lesson2/tools/human_feedback.py:117 | lowercasing keeps the length and maps each character on its own |
| Text.LowerIdempotent | lesson1/chained_outreach.py:72-74 | lowercasing twice is lowercasing once |
| Text.Strip | lesson2/tools/human_feedback.py:115 | the stripped text is a slice of the input, with only whitespace cut on either side and none left at its ends |
| Text.Take | lesson2/agent_raw_api.py:128 | `s[:n]` is the prefix of length min(n, len(s)) |
| Text.NatToString | lesson2/tools/human_feedback.py:162 | a rating renders as non-empty decimal digits with no leading zero |
| Text.ParseNatToString | lesson2/tools/human_feedback.py:129 | parsing the rendered digits gives the number back |
| Text.Split | lesson2/utils/observability.py:124 | splitting on a separator gives at least one part, and no part contains the separator |
| Text.JoinSplit | lesson2/utils/observability.py:124 | joining the lines of a split with the same separator restores the text |
| Text.SplitJoin | lesson2/tools/human_feedback.py:179 | splitting a join of separator-free parts gives the parts back |
| Text.SplitNoSeparator | lesson2/tools/human_feedback.py:123 | a text without the separator splits into itself alone |
| Text.FlagOnExamples | lesson2/tools/human_feedback.py:27 | a flag is on for "TRUE", "Yes" and "1": the test ignores case |
| Text.FlagOffExamples | lesson2/tools/human_feedback.py:27 | a flag is off when unset or empty, and for words outside the list such as "on" and "false" |
| JsonData.Len | lesson2/tools/linkedin.py:51 | `len()` is defined exactly on strings, lists and dicts, and is positive exactly when the value is truthy |
| LinkedIn.Score | lesson2/tools/linkedin.py:64-67 | `round(present / 5 * 100)` is exactly 20 per present field |
| LinkedIn.FieldHints | lesson2/tools/linkedin.py:43-62 | the field checks never give the closing "incomplete" hint; they give the "limited history" hint exactly for a truthy history shorter than two |
| LinkedIn.AnalyzeProfileQuality | lesson2/tools/linkedin.py:26-78 | raises exactly when the experiences value is truthy but has no `len()`; otherwise a field is reported missing exactly when its value is falsy, in check order; the score is 20 per present field; quality is high for at most one missing field, medium for two and low for three or more |
| LinkedIn.MissingFromOrdered | lesson2/tools/linkedin.py:43-60 | the fields reported missing come in check order, each at most once |
| LinkedIn.MissingFromMembers | lesson2/tools/linkedin.py:43-60 | a field is reported missing exactly when its value is absent or falsy |
| LinkedIn.MissingFields | lesson2/tools/linkedin.py:43-60 | the fields reported missing are exactly those whose value is absent or falsy, in check order |
| LinkedIn.Report | lesson2/tools/linkedin.py:43-76 | with a usable history, the report lists the missing fields in check order, scores 20 per present field, grades high, medium or low by the number missing, and closes the hints with "incomplete" exactly for low quality |
| LinkedIn.ScoreValues | lesson2/tools/linkedin.py:64-67 | the completeness score is one of 0, 20, 40, 60, 80 and 100 |
| LinkedIn.IncompleteHintLast | lesson2/tools/linkedin.py:69-76 | the "incomplete" hint is given exactly for low quality, and then comes last |
| LinkedIn.LimitedHistoryHint | lesson2/tools/linkedin.py:48-52 | the "limited history" hint is given exactly for a truthy history of fewer than two entries, which does not count as missing |
| LinkedIn.HintCount | lesson2/tools/linkedin.py:43-76 | the hints are one per missing name, per missing or short history, per missing headline, and one for low quality; education and location add none |
| LinkedIn.CurrentRole | lesson2/tools/linkedin.py:139-145 | no role for a falsy history; for a list whose first entry is an object, its company and title, each defaulting to "Unknown"; a role only from such a list |
| LinkedIn.WellFormedRole | lesson2/tools/linkedin.py:139-145 | a falsy history gives no role; a list of position objects gives the first one's company and title, each defaulting to "Unknown" |
| LinkedIn.FromDocument | lesson2/tools/linkedin.py:133-171 | a decoded 200 body gives a profile exactly when it is an object whose quality can be assessed and whose role can be read; the profile carries that report, that role and the first name defaulting to "Unknown" |
| LinkedIn.FetchProfile | lesson2/tools/linkedin.py:125-231 | only a 200 response can give a profile; 404, 429, other statuses (with the body's first 200 characters, all of a shorter body), timeouts and other exceptions, including an undecodable 200 body, each give their own error reply |
| LinkedIn.WellFormedProfileFetched | lesson2/tools/linkedin.py:133-171 | a 200 object with no history or a list of position objects is always fetched, with the first position's company and title |
| Agent.ExecuteTool | lesson2/agent_raw_api.py:98-137 | unknown tools are reported by name; the JSON document is returned exactly for a 200 response whose body is an object; other statuses give "API error N: " and the body's first 200 characters (all of a shorter body); every other 200 response, a timeout and a failed request give "Exception: " and the exception's message |
| Agent.ToolUses | lesson2/agent_raw_api.py:236-257 | a reply yields at most one tool request per content block |
| Agent.ToolUsesAppend | lesson2/agent_raw_api.py:236-257 | requests are collected in block order: a joined reply's requests are its first part's followed by its second's |
| Agent.ToolUsesMembers | lesson2/agent_raw_api.py:236-257 | the tool requests of a reply are exactly its tool-use blocks |
| Agent.LastTextIsLast | lesson2/agent_raw_api.py:232-239 | `text_response` is the text of a text block with no text block after it, or "" if the reply has none |
| Agent.ExecuteAll | lesson2/agent_raw_api.py:268-276 | one tool result per request, in request order, each carrying its request's id |
| Agent.ToolCallsOf | lesson2/agent_raw_api.py:253-257 | one tool-call log entry per tool request of the reply |
| AgentLoop.RecordKeepsMetrics | lesson2/agent_raw_api.py:212-223 | recording a reply extends the metrics of t calls to the metrics of t + 1 calls |
| AgentLoop.StopSettles | lesson2/agent_raw_api.py:259-266 | a stopping reply after continuing turns completes the run with that reply appended to their transcript |
| AgentLoop.LoopSettles | lesson2/agent_raw_api.py:186-279 | the loop from any turn reached by continuing replies ends as the run characterisation describes |
| AgentLoop.RunSettles | lesson2/agent_raw_api.py:145-316 | every run either raises at the first missing reply or completes with the history and metrics of its turns |
| AgentLoop.TranscriptTurns | lesson2/agent_raw_api.py:259-279 | after k continuing turns the history is the prompt, then for each turn its assistant message at 2i + 1 and its results message at 2i + 2 |
| AgentLoop.TranscriptShape | lesson2/agent_raw_api.py:259-279 | after k continuing turns the history holds 1 + 2k messages: the prompt, then each turn's assistant message and results message |
| AgentLoop.UsesInAssistantParts | lesson2/agent_raw_api.py:245-252 | the assistant message keeps every tool request of the reply, in order |
| AgentLoop.ResultsAnswerReply | lesson2/agent_raw_api.py:268-279 | a results message answers exactly the requests of its assistant message, in order |
| AgentLoop.TranscriptPairs | lesson2/agent_raw_api.py:268-279 | in the history of continuing turns, the message after each assistant message answers its tool requests, in order |
| AgentLoop.PairedAfterUser | lesson2/agent_raw_api.py:259-266 | appending a message after a user message keeps every request answered |
| AgentLoop.HistoryPairs | lesson2/agent_raw_api.py:259-279 | a history of continuing turns, with or without a final stopping reply, answers every request of a non-final assistant message |
| AgentLoop.SettledPairs | lesson2/agent_raw_api.py:259-279 | a completed outcome of the loop answers every request of a non-final assistant message |
| AgentLoop.TurnBudget | lesson2/agent_raw_api.py:186-223 | a completed run made 1 to 5 calls, logged in `api_calls` numbered 1.. with each call's token counts; a run raises only before the budget is used up |
| AgentLoop.StoppingRule | lesson2/agent_raw_api.py:186-266 | the loop ends at the first stopping reply or after five replies; a raise comes only after continuing replies; with five replies available the run completes |
| AgentLoop.CompletedHistory | lesson2/agent_raw_api.py:259-279 | the history of a completed run is the transcript of its continuing turns, plus the stopping reply when there is one |
| AgentLoop.StoppedShape | lesson2/agent_raw_api.py:259-266 | a history ending at the k-th reply has 2k messages, alternates roles and ends on the assistant |
| AgentLoop.SettledShape | lesson2/agent_raw_api.py:160-279 | a completed outcome holds 2k messages after stopping on the k-th reply, 11 otherwise; it starts with the prompt, alternates roles and ends on the assistant exactly when it stopped on a reply |
| AgentLoop.HistoryShape | lesson2/agent_raw_api.py:160-279 | the history starts with the prompt and alternates user and assistant; it ends on the assistant exactly when the run stopped on a reply |
| AgentLoop.HistoryAssistants | lesson2/agent_raw_api.py:232-260 | in a history of k replies, position 2i + 1 holds the i-th reply's assistant message |
| AgentLoop.AssistantMessagesKept | lesson2/agent_raw_api.py:232-260 | the i-th assistant message is exactly the i-th reply's text and tool requests |
| AgentLoop.ResultsFollowRequests | lesson2/agent_raw_api.py:268-279 | every message after an assistant message answers exactly that message's tool requests, in order |
| AgentLoop.StoppingRequestsNotRun | lesson2/agent_raw_api.py:253-266 | the requests of the stopping reply are logged and kept in the history, but no results message follows them |
| AgentLoop.TokenTotals | lesson2/agent_raw_api.py:212-223 | the token totals are the sums of the per-call counts |
| AgentLoop.FinalResponse | lesson2/agent_raw_api.py:234-239 | `final_response` comes from the final reply only, and is "" when that reply has no text |
| AgentLoop.FirstReplyFinishes | lesson2/agent_raw_api.py:259-266 | a first reply that needs no tool ends the run after one call, with two messages |
| AgentLoop.BudgetExhausted | lesson2/agent_raw_api.py:186-279 | a model that always asks for a tool gets exactly five calls and 11 messages, ending with tool results |
| HumanFeedback.ParseRating | lesson2/tools/human_feedback.py:127-132 | the rating is always 1..5: typed values in range are kept, 0 becomes 1, values over 5 become 5, and non-digits become 3 |
| HumanFeedback.Remark | lesson2/tools/human_feedback.py:137-146 | a remark is dropped exactly when, stripped and lowercased, it is "none", "n" or empty; otherwise it is kept stripped |
| HumanFeedback.Collect | lesson2/tools/human_feedback.py:127-148 | the review has a rating in 1..5, is approved exactly at 4 or more, and keeps the three remarks |
| HumanFeedback.TakeRemarkOf | lesson2/tools/human_feedback.py:165-170 | a remark line reads back as its remark, and an absent remark consumes no line |
| HumanFeedback.RemarksRoundTrip | lesson2/tools/human_feedback.py:165-173 | the remark lines and the closing line read back as the three remarks |
| HumanFeedback.VerdictRoundTrip | lesson2/tools/human_feedback.py:163 | each verdict line reads back as the verdict it states |
| HumanFeedback.DecodeAssembled | lesson2/tools/human_feedback.py:161-173 | header, rating and verdict lines that read back, followed by remark lines that read back, decode to the whole report |
| HumanFeedback.LinesRoundTrip | lesson2/tools/human_feedback.py:161-173 | the reply lines read back as the prospect and the full review |
| HumanFeedback.ResponseRoundTrip | lesson2/tools/human_feedback.py:161-179 | the reply text read back gives the prospect and the full review |
| HumanFeedback.RatingTyped | lesson2/tools/human_feedback.py:127-147 | typing a rating from 1 to 5 records it, and only 4 or 5 approves |
| HumanFeedback.RatingExamples | lesson2/tools/human_feedback.py:127-132 | "0" gives 1, "9" and "42" give 5, and "", "-2" and "4.5" give 3 |
| HumanFeedback.AutoTextFollowsFormat | lesson2/tools/human_feedback.py:85-102 | the demo-mode text is the rendering of the sample review |
| HumanFeedback.AutoReplyDecodes | lesson2/tools/human_feedback.py:79-109 | in demo mode the reply reads back as rating 3, not approved, two remarks and no corrections |
| HumanFeedback.InteractiveReplyDecodes | lesson2/tools/human_feedback.py:115-181 | an interactive reply reads back with a rating in 1..5, approval exactly at 4 or more, and each remark stripped unless declined |
| HumanFeedback.SkipIsNotAReview | lesson2/tools/human_feedback.py:117-125 | the skip reply carries no review |
| HumanFeedback.NoIssuesLine | lesson2/tools/human_feedback.py:172-173 | the "no specific issues" line appears exactly when no remark was given |
| ChainedOutreach.FetchProfile | lesson1/chained_outreach.py:35-53 | a non-200 status fails with its status and body; a 200 JSON body is returned as is; nothing else succeeds |
| ChainedOutreach.First | lesson1/chained_outreach.py:67-68 | `v[0]` is the first item of a non-empty list, and succeeds only on a non-empty list or string |
| ChainedOutreach.ExtractProfileData | lesson1/chained_outreach.py:56-90 | extraction succeeds exactly when every field it reads is present with a usable type |
| ChainedOutreach.ExtractionCopiesFields | lesson1/chained_outreach.py:66-87 | a successful extraction copies the first name, company and description, and flags tech by the test on the lowercased fields |
| ChainedOutreach.IsTechByWordLists | lesson1/chained_outreach.py:76-80 | the tech test is a substring test of one word list per field |
| ChainedOutreach.RequiredFields | lesson1/chained_outreach.py:66-68 | a missing first name, missing or empty experiences, or a first position without company or description makes extraction fail |
| ChainedOutreach.NullHeadlineRaises | lesson1/chained_outreach.py:73 | a `null` headline raises although a missing one does not |
| ChainedOutreach.SubstringNotWord | lesson1/chained_outreach.py:76-80 | "ai" anywhere in the headline, even inside a word, makes the profile tech |
| ChainedOutreach.RetailCountsAsTech | lesson1/chained_outreach.py:78 | a "retail manager" headline counts as tech |
| ChainedOutreach.TechIgnoresCase | lesson1/chained_outreach.py:71-80 | two extractable profiles whose industry, headline and company agree once lowercased get the same tech flag |
| ChainedOutreach.StyleFollowsTech | lesson1/chained_outreach.py:101-105 | the prompt asks for rap exactly for tech profiles |
| ChainedOutreach.ChainedWorkflow | lesson1/chained_outreach.py:163-205 | the result always carries the requested URL |
| ChainedOutreach.WorkflowOutcome | lesson1/chained_outreach.py:163-205 | the workflow succeeds exactly when the fetch, the extraction and the model call all succeed, with the model's message; a non-200 fetch fails with its status and body |
| Observability.InitObservability | lesson2/utils/observability.py:31-77 | debug mode follows `DEBUG_LLM` alone; tracing is on exactly when the key is non-empty and initialisation succeeds |
| Observability.FitLine | lesson2/utils/observability.py:128-131 | a shown line is at most 68 characters, unchanged if it fits, else its first 65 characters and "..." |
| Observability.PrefixSlice | lesson2/utils/observability.py:126 | `lines[:n]` is a prefix: n items for n >= 0, and all but the last abs(n) for negative n |
| Observability.DebugLines | lesson2/utils/observability.py:107-117 | nothing is shown exactly when debug mode is off |
| Observability.UnlimitedShowsAll | lesson2/utils/observability.py:124-132 | with no limit, or zero, every line is shown, fitted |
| Observability.LimitedShowsPrefix | lesson2/utils/observability.py:124-132 | with a limit the content exceeds, the first lines are shown, then the count of the rest |
| Observability.WithinLimitShowsAll | lesson2/utils/observability.py:125 | content within the limit is shown as without a limit |
| Observability.NarrowContentShownVerbatim | lesson2/utils/observability.py:124-132 | narrow content with no limit is shown exactly: its lines join back to the content |
| Observability.NegativeLimit | lesson2/utils/observability.py:125-126 | a negative limit drops lines from the end and reports a count larger than the number of lines |
| Observability.FitLineIdempotent | lesson2/utils/observability.py:129-131 | fitting a shown line again changes nothing |
| Observability.EndGeneration | lesson2/utils/observability.py:199-238 | ending a generation appends exactly one record, named after the current generation or "Unknown" |
| Observability.TotalAppend | lesson2/utils/observability.py:243-244 | a token total over two runs of records is the sum of their totals |
| Observability.EndGenerationTotals | lesson2/utils/observability.py:199-253 | ending a generation adds one generation and the reported tokens, or nothing for an unreported count |
| Observability.SessionTotals | lesson2/utils/observability.py:165-253 | after a session of steps the summary grows by the number of steps and by exactly their reported token counts |
| Observability.NamesOfRecords | lesson2/utils/observability.py:218 | a generation ended twice is stored twice under the same name; without a name it is stored as "Unknown" |
| VerifySetup.PythonVersionExamples | lesson1/verify_setup.py:20-32 | 3.10 and 3.13 pass; 3.9, 2.12 and 4.0 fail |
| VerifySetup.MaskAnthropic | lesson1/verify_setup.py:165 | the shown Anthropic key is at most its first ten characters followed by ten stars |
| VerifySetup.MaskEnrich | lesson1/verify_setup.py:172 | the shown EnrichLayer key is ten characters and ten stars for a key longer than ten, else its first three characters (all of a shorter key) and five stars |
| VerifySetup.CheckEnvFile | lesson1/verify_setup.py:146-182 | the environment passes exactly when the file exists and loads, the Anthropic key starts with "sk-ant-" and the EnrichLayer key is non-empty; both keys are then shown masked |
| VerifySetup.AnthropicCheckedFirst | lesson1/verify_setup.py:164-169 | a bad Anthropic key fails the check whatever the EnrichLayer key is |
| VerifySetup.AnthropicMaskShape | lesson1/verify_setup.py:164-166 | an accepted Anthropic key shows its "sk-ant-" prefix and ends in ten stars |
| VerifySetup.EnrichMaskLength | lesson1/verify_setup.py:171-172 | the EnrichLayer mask is 20 characters for keys longer than ten, otherwise its first three characters (all of a shorter key) plus five stars, at most 8 |
| VerifySetup.CheckFileStructure | lesson1/verify_setup.py:215-234 | the structure check passes exactly when every required file exists; the missing list is exactly the required files that are absent |
| VerifySetup.Results | lesson1/verify_setup.py:263-277 | seven results, plus the API result exactly when dependencies and environment passed |
| VerifySetup.PrintSummary | lesson1/verify_setup.py:237-256 | the passed count equals the number of results exactly when every check passed, and the exit code is 0 exactly then |
| VerifySetup.RunChecks | lesson1/verify_setup.py:259-279 | the exit code is 0 exactly when all seven probes and the API test pass, and 1 otherwise |

## Left out

- Console output is not modelled: the printed banners, box borders, padding and titles, and progress lines. `debug_print` is modelled only by which lines it shows, fitted to the box width.
- JSON numbers with a fraction or exponent are Python floats, kept as exact reals: `TypeName` gives "float" and zero is falsy. Floats that are not finite (`NaN`, `Infinity`, which Python's decoder accepts) and rounding are not modelled.
- Floating point is not modelled: the cost estimate in `run_agent` and `end_trace`, `cost_usd`, and the durations of the tracker. The tracker does not store cost or duration.
- Agent.ExecuteTool: the successful result is kept as the JSON document rather than as its `json.dumps` text, whose spacing the model does not fix.
- LinkedIn.FetchProfile: the profile is kept as structured data rather than as the `str(result)` text. The `raw_profile_snippet` (the first 500 characters of `str(data)`) is omitted, and error replies are kept as failure kinds rather than their message texts.
- ChainedOutreach.ChainedWorkflow: the model sees only the values the prompt template is filled with, not the fixed template text. The `str(e)` texts of Python exceptions are kept as `Fault` values.
- Agent.ExecuteTool, LinkedIn.FetchProfile and ChainedOutreach.FetchProfile: an exception raised by `response.json()` is passed in as its message; the JSON decoder is not modelled.
- `str.lower` and `str.isdigit` are modelled on ASCII letters and ASCII digits; `str.strip` uses Python's full whitespace set. Non-ASCII capitals stay as they are, and non-ASCII digits (for which `isdigit` holds, then `int` either parses them or raises, giving 3) read as non-digits, giving 3.
- HumanFeedback.ResponseRoundTrip: the round trip needs a prospect name and remarks without line breaks. `input()` returns single lines, but the prospect name comes from the model and is not checked by the tool.
- An exception from `client.messages.create` ends `run_agent` with the exception and no metrics. The model follows the code here (`ApiRaised`), since there is no partial result to return.
- The model's replies, the tool's HTTP responses, environment variables and the human reviewer's answers are inputs. The Anthropic and EnrichLayer clients, `requests`, `dotenv` and `input()` are not modelled.
- `observe`, `flush_observations`, `is_debug_mode`, `is_observability_enabled`, `get_trace_url` and `LLMTracker.log_tool_call` only print or return module state. They are not modelled.
- `check_nodejs`, `check_claude_cli`, `check_venv`, `check_dependencies` and `check_api_connectivity` run subprocesses, imports or an API call. Their outcomes are boolean inputs (`VerifySetup.Probes`). The Python version check is modelled as a predicate on the major and minor numbers.
- The SDK-based agents and the data files of the repository are not part of this model.
