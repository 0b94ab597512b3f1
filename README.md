# Supply-chain exception orchestrator — a verified Dafny model

This project models the decision core of a supply-chain exception-handling
service and of its web client. A shipment-delay event becomes a *work item*.
The backend decides on an item in one of two ways:

- three threshold agents (risk, cost, SLA) vote, with a priority-flag
  override, and the orchestrator records an explainability context;
- a first-match policy rule chain (the one the `/run` route calls).

Escalated items wait for a human review (APPROVE or REJECT). Every decision
goes into an append-only log, and the item's trace reads that log back
oldest first.

Around this core the model covers:

- the knowledge-ingest route, whose duplicate lookup treats a null scope
  field as a wildcard, so the same chunk is stored only once;
- the sanitising around the LLM agent: order-preserving dedup of the
  retrieved texts, code-fence stripping before the JSON parse, and the
  normalisation of the answer with ESCALATE/0.5 fallbacks;
- the fixed-rubric portfolio grading route;
- the two screens of the web client: their display helpers (clamping,
  percentages, colours, badges, the decision banner, the sorted override
  breakdown) and the state their button handlers update.

Layout, one module per file:

| file | module | models |
|---|---|---|
| `wrappers.dfy` | `Wrappers` | `Option`, `Result` |
| `strings.dfy` | `Strings` | Python `strip`, JavaScript `trim`, upper-casing, `join`, integer rendering, UTF-16 length |
| `js_values.dfy` | `JsValues` | IEEE doubles seen abstractly (`NaN`, finite, infinities), parsed JSON, truthiness, clamping, `Math.round` |
| `shipments.dfy` | `Shipments` | the shipment-delay event and its request constraints |
| `agents.dfy` | `Agents` | `RiskAgent`, `CostAgent`, `SlaAgent` |
| `orchestrator.dfy` | `Orchestrator` | `orchestrate` |
| `decision_engine.dfy` | `DecisionEngine` | `decide_shipment_delay` |
| `llm_agent.dfy` | `LlmAgent` | dedup, retrieval scope, `_safe_json_loads`, the normalisation in `evaluate` |
| `http_errors.dfy` | `HttpErrors` | the routes' error responses |
| `work_items.dfy` | `WorkItems` | the work-item routes over an in-memory store (a class) |
| `knowledge.dfy` | `Knowledge` | the ingest route over an in-memory chunk table (a class) |
| `portfolio.dfy` | `Portfolio` | `grade_portfolio` |
| `display.dfy` | `Display` | the three-colour score scale |
| `work_items_page.dfy` | `WorkItemsPage` | the work-items screen (helpers, plus a class for its state) |
| `portfolio_page.dfy` | `PortfolioPage` | the portfolio screen (helpers, plus a class for its state) |
| `scenarios.dfy` | `Scenarios` | the simulation scenarios and the end-to-end test's events |

Modelling choices:

- **Scores are exact reals.** Python computes them in binary floating point.
  Every constant the agents use is exact in reals.
- **A JavaScript number, or a Python float where NaN matters, is `JsNum`:**
  `NaN | Fin(x) | PosInf | NegInf`.
- **Library calls become parameters.** Python's rendering of a float
  (`show: real -> string`) is one. So are `json.loads`, `str` of a
  non-string value and `float` of a string (`LlmAgent.Runtime`). So is
  JavaScript's number parsing of a text (`parse`).
- **The `POLICY` table is a parameter** (`DecisionEngine.Policy`); its
  module is not part of this model.
- **Ids and timestamps are counters.** `uuid.UUID(path)` becomes
  `IdParam`: malformed, or a well-formed id. `uuid4` becomes a counter.
  `created_at` becomes a clock that ticks once per stored decision.
- **Request-schema violations are `ValidationError`:** the framework's 422
  answer, whose detail is not modelled.
- **An `async` handler of the web client is a start step plus one
  completion or failure step per awaited call.** A `phase` field records
  which call is in flight. The outcome of a call is a parameter of the
  step that receives it.

Where the code and its accompanying description differ, the model follows the code:

- **The run route applies the rule chain, not the orchestrator.** It never
  stores a context (`work_items.py:90-103`). The end-to-end test expects an
  orchestrator context and reason prefixes. `Scenarios.CreateRunTrace`
  proves that the route as written gives neither.
- **SIM-2002 is labelled as escalating on order value.** Under the
  orchestrator it auto-resolves on a single vote
  (`Scenarios.HighOrderValueAutoResolvesUnderVote`). Under the rule chain it
  escalates only when the policy threshold catches it
  (`Scenarios.HighOrderValueUnderPolicy`).
- **Fence stripping is modelled exactly as written.** It strips every
  backtick at both ends, then whitespace, then one leading `json` tag in any
  letter case. There is no probing of other layouts.
- **In the priority branch `votes_escalate` is the number of agents (3),**
  not the number of escalating votes.

## Model

| member | source | states |
|---|---|---|
| Agents.RiskEvaluate | apps/api/app/core/agents.py:20-46 | With stock < 7 the score is 1.0, 0.85 or 0.6 for a delay ≥ 3, = 2 or < 2; otherwise it is 0.5, 0.25 or 0. It escalates iff the score is ≥ 0.6, which is iff stock < 7. The reason is "Low operational risk" iff delay < 2 and stock ≥ 7 (no heuristic fired); otherwise it is the fired reasons joined by " \| ". |
| Agents.CostEvaluate | apps/api/app/core/agents.py:49-60 | Score 0.9 from 100000, 0.6 from 50000, 0.2 below. It escalates iff the order value is ≥ 50000. Its name is CostAgent. |
| Agents.SlaEvaluate | apps/api/app/core/agents.py:63-74 | A priority shipment gives 0.95 and "priority_flag=true" whatever the delay. Otherwise a delay > 2 gives 0.85, and anything else gives 0.25 with "Within SLA buffer". It escalates iff priority or delay > 2. |
| Agents.EscalationMonotone | apps/api/app/core/agents.py:31-74 | A longer delay, a larger order, less stock or a kept priority flag never turns any agent's ESCALATE into AUTO_RESOLVE. |
| Orchestrator.AgentResults | apps/api/app/core/orchestrator.py:5-6 | Three results, each well-formed under its own agent's name, in the order Risk, Cost, SLA. |
| Orchestrator.EscalateVotes | apps/api/app/core/orchestrator.py:43 | The ESCALATE count never exceeds the number of results. |
| Orchestrator.EscalationReasons | apps/api/app/core/orchestrator.py:48 | One reason per escalating vote. |
| Orchestrator.Round3 | apps/api/app/core/orchestrator.py:74 | `round(x, 3)` is a multiple of 0.001 and lies within half a thousandth of `x`. |
| Orchestrator.Round3Bounds | apps/api/app/core/orchestrator.py:74 | Rounding keeps a value of [0.5, 1] in [0.5, 1]. |
| Orchestrator.Orchestrate | apps/api/app/core/orchestrator.py:4-76 | The trace is the three agent results and `final.decision` is the decision. The average is the mean score, in [0, 1]. With priority: ESCALATE, confidence 1.0, override PRIORITY_FLAG, votes 3. Without: ESCALATE iff ≥ 2 votes, `votes_escalate` is the count, no override, and the confidence is `round(min(1, 0.5 + avg/2), 3)`, in [0.5, 1]. |
| Orchestrator.TraceShape | apps/api/app/core/orchestrator.py:18-26 | The trace names RiskAgent, CostAgent and SlaAgent, in that order. |
| Orchestrator.PriorityReason | apps/api/app/core/orchestrator.py:12-15 | The priority reason is the fixed sentence, " \| ", and the escalating reasons joined. It starts with that sentence and " \| ", and ends with the SLA agent's "priority_flag=true". |
| Orchestrator.OverrideReasonShape | apps/api/app/core/orchestrator.py:14-15 | The override reason for non-empty reasons is the fixed sentence, " \| " and the reasons joined, ending with the last reason. |
| Orchestrator.NonPriorityReason | apps/api/app/core/orchestrator.py:48-52 | Without priority the reason is "Escalated because: " plus the joined reasons whenever at least one agent escalated. It is the fixed auto-resolve sentence iff none did. |
| Orchestrator.MajorityClosedForm | apps/api/app/core/orchestrator.py:43-44 | Without priority, ESCALATE iff at least two of "stock < 7", "order ≥ 50000" and "delay > 2" hold. |
| Orchestrator.SingleVoteAutoResolves | apps/api/app/core/orchestrator.py:43-52 | A single escalating vote gives AUTO_RESOLVE, with a reason that still starts "Escalated because: ". |
| DecisionEngine.DecideShipmentDelay | apps/api/app/core/decision_engine.py:3-25 | Confidence is always 1.0 and the decision is one of the two words. AUTO_RESOLVE iff none of the four rules fires. A priority shipment under an escalate-priority policy gets the fixed priority triple. Every auto-resolve carries the "meets policy" reason. |
| DecisionEngine.FirstMatch | apps/api/app/core/decision_engine.py:13-23 | When rule k fires and no earlier rule does, the result is ESCALATE with rule k's reason, whatever the later rules say. |
| DecisionEngine.AutoResolveDownwardClosed | apps/api/app/core/decision_engine.py:13-25 | If an event auto-resolves, any milder event (smaller order, shorter delay, more stock, no new priority flag) auto-resolves too. |
| DecisionEngine.ReasonDeterminesDecision | apps/api/app/core/decision_engine.py:13-25 | The reason is never empty. Its first letter tells the decision: 'M' iff AUTO_RESOLVE, and one of 'P', 'H', 'D', 'I' for ESCALATE. |
| Strings.Strip | apps/api/app/ai/llm_agent.py:34 | No dropped character is left at either end, the result is no longer than the input, and a text with no droppable end is left as it is. |
| Strings.StripEmpty | apps/api/app/ai/llm_agent.py:34-36 | A text strips to nothing iff every character is whitespace: this is the `if not key` test of dedup. |
| Strings.StripIdempotent | apps/api/app/ai/llm_agent.py:34 | Stripping twice is stripping once. |
| Strings.StripSurrounded | apps/api/app/ai/llm_agent.py:99-102 | Stripping droppable padding from both sides of a text with non-droppable ends gives back exactly that text. |
| Strings.Upper | apps/api/app/ai/llm_agent.py:178 | Upper-casing keeps the length and maps each character by `UpperChar`. |
| Strings.UpperIdempotent | supplychain-ui/app/work-items/page.tsx:58 | Upper-casing twice is upper-casing once. |
| Strings.JoinStartsWithFirst | apps/api/app/core/orchestrator.py:50 | A joined text starts with its first part. |
| Strings.JoinEndsWithLast | apps/api/app/core/orchestrator.py:15 | A text joined from two or more parts ends with the separator and the last part. |
| Strings.JoinedAfter | apps/api/app/core/orchestrator.py:15 | A lead text, a separator and a joined list start with the lead and separator, and end with the separator and the last part. |
| Strings.NatText | apps/api/app/core/agents.py:33 | The decimal rendering is non-empty, all digits, and without a leading zero. |
| Strings.NatTextRoundTrip | supplychain-ui/app/work-items/page.tsx:54 | Reading the digits back gives the number. |
| Strings.NatTextInjective | apps/api/app/core/decision_engine.py:20 | Different numbers render differently. |
| Strings.Utf16Length | supplychain-ui/app/portfolio/page.tsx:54 | JavaScript's `.length` lies between the number of characters and twice that. |
| JsValues.Member | supplychain-ui/app/work-items/page.tsx:191-193 | `v?.[key]` is defined iff `v` is an object holding `key`, and then it is that field. |
| JsValues.Clamp | supplychain-ui/app/work-items/page.tsx:47-50 | NaN maps to 0. The result lies in [0, hi]; it is the identity on [0, hi], maps +∞ and anything above to hi, and maps −∞ and anything below to 0. |
| JsValues.ClampIdempotent | supplychain-ui/app/portfolio/page.tsx:28-36 | Clamping a clamped value changes nothing, so `Bar`'s second clamp in `scoreColor(v)` is harmless. |
| JsValues.ClampMonotone | supplychain-ui/app/work-items/page.tsx:47-50 | A larger number never clamps lower. |
| JsValues.Round | supplychain-ui/app/work-items/page.tsx:54 | `Math.round(y)` is the integer in (y − 0.5, y + 0.5]. |
| JsValues.MessageOr | supplychain-ui/app/work-items/page.tsx:111 | `e?.message \|\| fallback` is the message when it is non-empty and the fallback otherwise, so with a non-empty fallback it is never empty. |
| LlmAgent.DedupKeepOrder | apps/api/app/ai/llm_agent.py:30-41 | The loop with a `seen` set returns exactly `Dedup` of its input under `strip`. |
| LlmAgent.Dedup | apps/api/app/ai/llm_agent.py:30-41 | The reference dedup, keyed by a key function: a blank key is never kept (its other properties are the Dedup lemmas below). |
| LlmAgent.DedupMembers | apps/api/app/ai/llm_agent.py:33-40 | The output holds exactly the non-blank stripped forms of the input items. |
| LlmAgent.DedupDistinct | apps/api/app/ai/llm_agent.py:37-40 | No text appears twice in the output. |
| LlmAgent.DedupShorter | apps/api/app/ai/llm_agent.py:30-41 | The output is no longer than the input. |
| LlmAgent.DedupKeepsFirstOccurrences | apps/api/app/ai/llm_agent.py:33-40 | The output is the keys at their first occurrences, in input order, against an independent definition. |
| LlmAgent.DedupFixpoint | apps/api/app/ai/llm_agent.py:30-41 | A list of distinct, non-blank, already-stripped texts is returned unchanged. |
| LlmAgent.DedupStripped | apps/api/app/ai/llm_agent.py:34-36 | Every kept text is non-blank and already stripped. |
| LlmAgent.DedupIdempotent | apps/api/app/ai/llm_agent.py:30-41 | Deduplicating twice is deduplicating once. |
| LlmAgent.DuplicateIsInRetrievalScope | apps/api/app/ai/llm_agent.py:60-72 | A chunk the ingest route counts as a duplicate of a request passes the retrieval scope filter for that request's scope (column equal, or null). |
| LlmAgent.InRetrievalScope | apps/api/app/ai/llm_agent.py:62-72 | A query without scope retrieves every chunk, and a global chunk (all three columns null) is retrieved for every scope. |
| LlmAgent.KnowledgeContext | apps/api/app/ai/llm_agent.py:83-91 | The prompt's knowledge context is empty iff nothing survives the dedup. |
| LlmAgent.LowerAscii | apps/api/app/ai/llm_agent.py:102 | Lower-casing keeps the length and maps each character by ASCII lower-casing. |
| LlmAgent.Unfence | apps/api/app/ai/llm_agent.py:101-103 | The unfenced text has no whitespace at either end and is no longer than its input. |
| LlmAgent.FenceStrip | apps/api/app/ai/llm_agent.py:97-103 | The cleaned text has no whitespace at either end and is no longer than the input. A text that does not open with three backticks is only stripped. |
| LlmAgent.SafeJsonLoads | apps/api/app/ai/llm_agent.py:93-108 | An empty text gives no value. Otherwise the result is the parser's answer on the cleaned text. |
| LlmAgent.FencedStripsToInner | apps/api/app/ai/llm_agent.py:97-101 | A fenced body is left intact by the first strip, opens with three backticks, and loses exactly its backticks. |
| LlmAgent.TaggedFenceRoundTrip | apps/api/app/ai/llm_agent.py:97-104 | A body fenced as "\`\`\`json" in any letter case is cleaned back to exactly that body. |
| LlmAgent.BareFenceRoundTrip | apps/api/app/ai/llm_agent.py:97-101 | A body in a bare "\`\`\`" fence is cleaned back to that body, unless the body itself opens with "json". |
| LlmAgent.UnfencedUnchanged | apps/api/app/ai/llm_agent.py:97-100 | A body without a fence reaches the parser unchanged. |
| LlmAgent.ClampConfidence | apps/api/app/ai/llm_agent.py:186 | `max(0.0, min(1.0, c))` lies in [0, 1] and is the identity on [0, 1]. It maps NaN and +∞ to 1.0 (Python's `min` keeps its first argument when the comparison with NaN is false). It maps −∞ and negatives to 0. |
| LlmAgent.NormalizeDecision | apps/api/app/ai/llm_agent.py:178-180 | The decision is one of the two words. It is AUTO_RESOLVE iff the stripped, upper-cased text is AUTO_RESOLVE; anything else is ESCALATE. |
| LlmAgent.NormalizeDecisionTolerant | apps/api/app/ai/llm_agent.py:178-180 | A decision word in any letter case, padded with whitespace, is read as that word. |
| LlmAgent.ShortWordEscalates | apps/api/app/ai/llm_agent.py:178-180 | A text shorter than AUTO_RESOLVE is read as ESCALATE. |
| LlmAgent.ReadDecision | apps/api/app/ai/llm_agent.py:178-180 | A missing decision defaults to ESCALATE. AUTO_RESOLVE iff the field is present and normalises to it. |
| LlmAgent.ReadConfidence | apps/api/app/ai/llm_agent.py:182-186 | The confidence is in [0, 1], and a finite number in [0, 1] is kept. It is 0.5 when the field is missing or `float()` raises. |
| LlmAgent.ReadReason | apps/api/app/ai/llm_agent.py:188 | "No reason provided" when the field is missing, and the stripped text when it is a string. Either way the result has no whitespace at either end. |
| LlmAgent.ReadAnswer | apps/api/app/ai/llm_agent.py:178-198 | The verdict read from an answer object is well-formed under the LlmDecisionAgent name. |
| LlmAgent.Evaluate | apps/api/app/ai/llm_agent.py:171-207 | The verdict is always well-formed. A failure before the reply gives the ESCALATE/0.5 failure verdict. An AUTO_RESOLVE can only come from a completed call. |
| LlmAgent.FailureReport | apps/api/app/ai/llm_agent.py:200-207 | The except branch's verdict: ESCALATE at 0.5 under the LlmDecisionAgent name, a well-formed result. |
| LlmAgent.FallbackDecision | apps/api/app/ai/llm_agent.py:172-180 | The fallback answer's decision reads as ESCALATE. |
| LlmAgent.FallbackConfidence | apps/api/app/ai/llm_agent.py:172-186 | The fallback answer's confidence reads as 0.5. |
| LlmAgent.FallbackReason | apps/api/app/ai/llm_agent.py:172-188 | The fallback answer's reason reads as the fixed parse-failure sentence. |
| LlmAgent.FallbackAnswerRead | apps/api/app/ai/llm_agent.py:172-188 | The fallback answer reads as ESCALATE at 0.5 with "LLM parsing failed (non-JSON response).". |
| LlmAgent.UnparsableReplyEscalates | apps/api/app/ai/llm_agent.py:171-188 | A reply that does not parse, or parses to a falsy value, gives ESCALATE at 0.5 with the parse-failure reason. |
| LlmAgent.EmptyReplyEscalates | apps/api/app/ai/llm_agent.py:171-176 | A null or empty reply takes that path, whatever the parser does. |
| LlmAgent.NonObjectReplyFails | apps/api/app/ai/llm_agent.py:178-207 | A reply that parses to a truthy non-object makes `.get` raise, which gives the "LLM agent failed" verdict. |
| LlmAgent.ObjectReplyRead | apps/api/app/ai/llm_agent.py:171-198 | A reply that parses to a non-empty object is read field by field: decision, confidence, reason. |
| LlmAgent.TwoFieldAnswer | apps/api/app/ai/llm_agent.py:178-186 | An object with a decision and a confidence in [0, 1] keeps that confidence, and is AUTO_RESOLVE iff the decision normalises to it. |
| LlmAgent.FencedAnswerAccepted | apps/api/app/ai/llm_agent.py:93-198 | An answer object with a decision and a confidence in [0, 1], inside a "\`\`\`json" fence with the tag in any letter case, is accepted as meant: the confidence becomes the score, and the recommendation is AUTO_RESOLVE iff the decision normalises to it. |
| Knowledge.FirstDuplicate | apps/api/app/api/routes/knowledge.py:51-75 | There is no result iff no row matches the duplicate query (equal source and text; each non-null scope parameter equal to its column). A result is the id of a matching row. |
| Knowledge.ValidRequest | apps/api/app/api/routes/knowledge.py:16-21 | The ingest schema: a source of at most 200 characters, a non-empty text, and optional scope fields of at most 50 characters each. |
| Knowledge.DuplicateNamesOneRow | apps/api/app/api/routes/knowledge.py:51-75 | In a table with distinct ids, the id the duplicate query returns belongs to exactly one row. |
| Knowledge.KnowledgeBase.constructor | apps/api/app/api/routes/knowledge.py:78-81 | The table starts empty and valid. |
| Knowledge.StoredChunkIsFound | apps/api/app/api/routes/knowledge.py:82-119 | With no duplicate present, the row an ingest stores is the duplicate found from then on. |
| Knowledge.KnowledgeBase.FindDuplicate | apps/api/app/api/routes/knowledge.py:38-75 | The scan over the table returns exactly `FirstDuplicate`. |
| Knowledge.KnowledgeBase.Ingest | apps/api/app/api/routes/knowledge.py:78-123 | An invalid request is rejected. A duplicate returns the existing id, deduped, and stores nothing. A failure after the check gives a 500 with the failure prefix and leaves the table unchanged. Otherwise exactly one row with the request's fields is appended under a fresh id, deduped false. The status is always "stored" and the source is echoed. Every id returned names exactly one row of the table. |
| Knowledge.IngestTwice | apps/api/app/api/routes/knowledge.py:82-119 | Ingesting the same valid request twice returns the same id both times, the second deduped, and adds at most one row. |
| Portfolio.RubricFor | apps/api/app/api/routes/portfolio.py:41-48 | Overall is the base; impact, clarity, technical depth, relevance and presentation are base − 5, − 8, − 3, − 6 and − 10. |
| Portfolio.RubricOrder | apps/api/app/api/routes/portfolio.py:41-48 | Whatever the base, the sub-scores rank presentation < clarity < relevance < impact < technical depth < overall. |
| Portfolio.Grade | apps/api/app/api/routes/portfolio.py:34-70 | The rubric is the fixed-offset rubric of its overall score, which is 72 iff the stripped text has more than 200 characters and 58 otherwise, so every score lies in [48, 72]. The strengths are exactly ["Target role provided" or "Role missing", "Text provided" or "No text provided"], by the truthiness of the role and of the text. The gaps, recommendations and rewritten bullets are exactly the fixed lists. The report id is the one given. |
| Portfolio.GradeIgnoresOtherFields | apps/api/app/api/routes/portfolio.py:35-70 | Two requests with the same role and text get the same grade: name, URL and notes are ignored. |
| Portfolio.ShortTextIsProvidedButBase58 | apps/api/app/api/routes/portfolio.py:38-55 | A non-empty text of at most 200 characters counts as provided yet scores the base 58. |
| Display.ThresholdColor | supplychain-ui/app/portfolio/page.tsx:20-25 | Emerald iff the score is ≥ high, amber iff in [mid, high), red iff below mid. |
| Display.ThresholdColorMonotone | supplychain-ui/app/work-items/page.tsx:71-76 | A higher score never gets a lower colour. |
| PortfolioPage.Clamp100 | supplychain-ui/app/portfolio/page.tsx:15-18 | `clamp100` always lies in [0, 100]. |
| PortfolioPage.ScoreColor | supplychain-ui/app/portfolio/page.tsx:20-25 | Emerald iff the clamped score is ≥ 80, amber iff in [60, 80), red iff below 60. |
| PortfolioPage.Bar | supplychain-ui/app/portfolio/page.tsx:27-40 | The value shown and the width are both the clamped value, so the width is in [0, 100]. The colour is `scoreColor` of the value. |
| PortfolioPage.RubricBarsExact | supplychain-ui/app/portfolio/page.tsx:185-190 | All six bars of a report are drawn at exactly their score's width. They are all amber when the request carries more than 200 characters of stripped text, and all red otherwise. |
| PortfolioPage.RubricBars | supplychain-ui/app/portfolio/page.tsx:185-190 | For the rubric built from 72 or from 58, each of the six bars is drawn at exactly its score. All six are amber for 72 and red for 58. |
| PortfolioPage.ScoreBar | supplychain-ui/app/portfolio/page.tsx:20-40 | A whole score between 48 and 72 is drawn at its own width. It is amber from 62 and red up to 58. |
| PortfolioPage.UntrimmedLongEnough | supplychain-ui/app/portfolio/page.tsx:53-57 | A text with no surrounding whitespace and more than n characters passes the `trim().length > n` test. |
| PortfolioPage.BlankTextCannotGrade | supplychain-ui/app/portfolio/page.tsx:53-57 | Whitespace alone never passes it. |
| PortfolioPage.BlankFieldTooShort | supplychain-ui/app/portfolio/page.tsx:54-55 | A missing or all-whitespace field never passes the length test. |
| PortfolioPage.CanGrade | supplychain-ui/app/portfolio/page.tsx:53-57 | `canGrade` holds only when the text or the URL holds more than whitespace. |
| PortfolioPage.DefaultRequestCanGrade | supplychain-ui/app/portfolio/page.tsx:7-13 | The initial form has no usable text, yet Grade is enabled at once because the placeholder URL is long enough. |
| PortfolioPage.PortfolioScreen.constructor | supplychain-ui/app/portfolio/page.tsx:43-47 | The screen starts with the given request, idle, with no error and no report. |
| PortfolioPage.PortfolioScreen.SetField | supplychain-ui/app/portfolio/page.tsx:49-51 | Typing into a field sets exactly that field of the request; nothing else changes. |
| PortfolioPage.PortfolioScreen.OnGrade | supplychain-ui/app/portfolio/page.tsx:59-61 | Only an enabled Grade button starts a grade. The error is cleared and the screen is busy, which disables Grade and Clear. The request and the report are kept. |
| PortfolioPage.PortfolioScreen.GradeSucceeded | supplychain-ui/app/portfolio/page.tsx:62-69 | The response replaces the report and the screen is idle again. |
| PortfolioPage.PortfolioScreen.GradeFailed | supplychain-ui/app/portfolio/page.tsx:65-69 | The error is the message or "Grade failed", never empty. The previous report is kept and the screen is idle. |
| PortfolioPage.PortfolioScreen.Clear | supplychain-ui/app/portfolio/page.tsx:150-156 | Clear, enabled only when idle, removes the report and nothing else. |
| WorkItems.DecisionsOf | apps/api/app/api/routes/work_items.py:180-186 | An item's history is no longer than the log. |
| Shipments.ValidEvent | apps/api/app/api/routes/work_items.py:15-24 | The event schema: identifiers and region of at most 50 characters, day counts in [0, 365], a non-negative order value. |
| WorkItems.ValidReview | apps/api/app/api/routes/work_items.py:114-117 | The review schema: APPROVE or REJECT exactly, a reviewer of at most 120 characters and a comment of at most 500. A valid action is one of the stored decision words. |
| WorkItems.DecisionsOfMembers | apps/api/app/api/routes/work_items.py:180-186 | The history holds exactly the log's decisions for that item. |
| WorkItems.DecisionsOfChronological | apps/api/app/api/routes/work_items.py:182 | A history taken from a log in `created_at` order is in `created_at` order. |
| WorkItems.NoDecisionsOfUnknown | apps/api/app/api/routes/work_items.py:180-186 | An item with no decision in the log has an empty history. |
| WorkItems.OneDecisionHistory | apps/api/app/api/routes/work_items.py:94-103 | The first decision for an item is its whole history. |
| WorkItems.TwoDecisionHistory | apps/api/app/api/routes/work_items.py:136-146 | Two decisions for a new item form its history in the order they were stored. |
| WorkItems.StatusAfter | apps/api/app/api/routes/work_items.py:41-46 | The status a history leads to is NEW iff the history is empty. |
| WorkItems.StatusOfRuleWords | apps/api/app/api/routes/work_items.py:92 | AUTO_RESOLVE sets AUTO_RESOLVED; ESCALATE sets ESCALATED. |
| WorkItems.StatusOfReviewWords | apps/api/app/api/routes/work_items.py:133-134 | APPROVE sets HUMAN_APPROVED; REJECT sets HUMAN_REJECTED. |
| WorkItems.ReviewsFollowAppend | apps/api/app/api/routes/work_items.py:130-142 | Appending a non-review decision, or a review right after an escalation, keeps every review right after an escalation. |
| WorkItems.EscalatedEndsWithEscalate | apps/api/app/api/routes/work_items.py:130-131 | An item whose history leads to ESCALATED has an ESCALATE as its latest decision. |
| WorkItems.AddItemKeepsInvariants | apps/api/app/api/routes/work_items.py:39-49 | Storing a new NEW item under a fresh id keeps the store invariants: items, log and histories. |
| WorkItems.AppendKeepsLog | apps/api/app/api/routes/work_items.py:94-103 | A decision with a fresh id and the current time keeps the log invariant. |
| WorkItems.AppendKeepsHistory | apps/api/app/api/routes/work_items.py:130-146 | After a decision the item's status is the one its history leads to, and a review still follows an escalation. |
| WorkItems.HistoryWords | apps/api/app/api/routes/work_items.py:180-186 | An item's history holds only the four stored decision words when the log does. |
| WorkItems.StatusChangeKeepsItems | apps/api/app/api/routes/work_items.py:92 | Changing a stored item's status keeps the item invariant. |
| WorkItems.AppendKeepsHistories | apps/api/app/api/routes/work_items.py:130-146 | A decision for one item leaves every other item's history alone and moves that item to the status the decision sets. |
| WorkItems.AppendKeepsInvariants | apps/api/app/api/routes/work_items.py:90-146 | A fresh decision for a stored item, with the status it sets, keeps all store invariants when a review is only appended to an escalated item. |
| WorkItems.WorkItemStore.constructor | apps/api/app/api/routes/work_items.py:39-49 | The store starts empty and valid, with the given policy and float rendering. |
| WorkItems.WorkItemStore.Resolve | apps/api/app/api/routes/work_items.py:62-69 | A malformed id gives 400 "Invalid work_item_id", an unknown id 404 "WorkItem not found", and a known id resolves to itself. The same check opens run, review and trace. |
| WorkItems.WorkItemStore.Create | apps/api/app/api/routes/work_items.py:39-57 | An invalid event is rejected with no change. Otherwise a SHIPMENT_DELAY item with status NEW, the event as payload and no context is stored under a fresh id. No other item and no decision changes. |
| WorkItems.WorkItemStore.Get | apps/api/app/api/routes/work_items.py:60-77 | The id error, or the stored item. |
| WorkItems.WorkItemStore.Run | apps/api/app/api/routes/work_items.py:79-111 | An id error changes nothing. Otherwise: the status becomes AUTO_RESOLVED iff the rule chain says AUTO_RESOLVE, else ESCALATED. Exactly one decision carrying the rule's word, reason and confidence is appended, with no status precondition. The response echoes them. The context is untouched. |
| WorkItems.WorkItemStore.Review | apps/api/app/api/routes/work_items.py:114-152 | An invalid review or an id error changes nothing. A non-escalated item gives 400 naming its status. Otherwise APPROVE gives HUMAN_APPROVED and REJECT gives HUMAN_REJECTED, and one decision is appended: the action, the comment, confidence 1.0, the reviewer. |
| WorkItems.WorkItemStore.Trace | apps/api/app/api/routes/work_items.py:168-207 | The id error, or the item with exactly its decisions in log order, which is `created_at` order. |
| WorkItems.EscalateThenApprove | apps/api/app/api/routes/work_items.py:79-207 | Create, run and approve an item the policy escalates. The trace is then HUMAN_APPROVED with two decisions: the rule's ESCALATE and reason, followed by the APPROVE with the comment and reviewer, in time order. |
| WorkItems.CreateEscalated | apps/api/app/api/routes/work_items.py:39-111 | Creating and running an item the policy escalates leaves it ESCALATED, with the rule's ESCALATE and reason as the only decision stored for it, appended last. |
| WorkItems.TraceIsCompleteAndOrdered | apps/api/app/api/routes/work_items.py:179-186 | The trace lists exactly the item's decisions, oldest to newest. |
| WorkItemsPage.Clamp01 | supplychain-ui/app/work-items/page.tsx:47-50 | `clamp01` always lies in [0, 1]. |
| WorkItemsPage.PctValue | supplychain-ui/app/work-items/page.tsx:52-55 | The percentage is in [0, 100] and within half a unit of 100 × clamp01(n). It is 0 at 0 and 100 at 1. |
| WorkItemsPage.FmtPct | supplychain-ui/app/work-items/page.tsx:52-55 | `fmtPct` is one to three digits followed by '%'. |
| WorkItemsPage.FmtPctReadsBack | supplychain-ui/app/work-items/page.tsx:52-55 | The digits read back as the rounded percentage. It is "0%" for n ≤ 0, NaN and −∞, and "100%" for n ≥ 1 and +∞. |
| WorkItemsPage.FmtPctDigits | supplychain-ui/app/work-items/page.tsx:52-55 | The digits of `fmtPct` are the decimal rendering of the rounded percentage. |
| WorkItemsPage.Num | supplychain-ui/app/work-items/page.tsx:78-81 | A finite number is kept; NaN and the infinities become 0. |
| WorkItemsPage.RateCell | supplychain-ui/app/work-items/page.tsx:409-410 | A rate cell is always 0% to 100%, whatever the report holds: the rounded rate when it is in [0, 1], and 0% when it is not a finite number. |
| WorkItemsPage.ScoreBarColor | supplychain-ui/app/work-items/page.tsx:71-76 | Emerald iff the clamped score is ≥ 0.8, amber iff in [0.5, 0.8), red iff below 0.5. |
| WorkItemsPage.ScoreBarColorMonotone | supplychain-ui/app/work-items/page.tsx:71-76 | A higher clamped score never gets a lower colour. |
| WorkItemsPage.DecisionBadge | supplychain-ui/app/work-items/page.tsx:57-69 | `decisionBadge` and `recBadge` give red iff the text is present and upper-cases to ESCALATE, and emerald iff it upper-cases to AUTO_RESOLVE. |
| WorkItemsPage.DecisionBadgeIgnoresCase | supplychain-ui/app/work-items/page.tsx:57-62 | The badge does not depend on letter case. |
| WorkItemsPage.Context | supplychain-ui/app/work-items/page.tsx:191 | No trace means no context. |
| WorkItemsPage.AgentTrace | supplychain-ui/app/work-items/page.tsx:193 | A missing or falsy `agent_trace` gives the empty list; a truthy one is used as it is. |
| WorkItemsPage.SummaryDecision | supplychain-ui/app/work-items/page.tsx:192-198 | The summary's decision is read iff `final.decision` is a text, `""` included. It is absent when missing or a falsy non-text. A truthy non-text is a `TypeError`, since the page upper-cases it. |
| WorkItemsPage.FinalDecision | supplychain-ui/app/work-items/page.tsx:195-199 | The upper-cased run decision if it is non-empty, else the upper-cased summary decision, else "". The result is "" exactly when neither is a non-empty text. It is a `TypeError` exactly when the run has no decision and the summary holds a truthy non-text. |
| WorkItemsPage.AgentScore | supplychain-ui/app/work-items/page.tsx:465-466 | A trace card's score is in [0, 1], and 0 when the agent has no score. A `null` element is a `TypeError`, since the page reads `a.score` off it. |
| WorkItemsPage.DecisionConfidence | supplychain-ui/app/work-items/page.tsx:565 | `Number(d.confidence \|\| 0)`: NaN and 0 become 0; any other number is kept. |
| WorkItemsPage.InsertByCount | supplychain-ui/app/work-items/page.tsx:205 | Inserting an entry adds exactly that entry. |
| WorkItemsPage.SortByCount | supplychain-ui/app/work-items/page.tsx:205 | The sort returns a permutation of its input. |
| WorkItemsPage.SortByCountCorrect | supplychain-ui/app/work-items/page.tsx:205 | The sorted entries are in non-increasing count order, and entries with equal counts keep their order: a stable sort. |
| WorkItemsPage.InsertKeepsOrder | supplychain-ui/app/work-items/page.tsx:205 | Inserting into entries in non-increasing count order keeps them in that order. |
| WorkItemsPage.InsertKeepsTies | supplychain-ui/app/work-items/page.tsx:205 | Inserting an entry puts it ahead of every existing entry with the same count. |
| WorkItemsPage.BreakdownEntries | supplychain-ui/app/work-items/page.tsx:203-206 | No report or no breakdown gives nothing. Otherwise the result is a permutation of the breakdown's entries in non-increasing count order. |
| WorkItemsPage.WorkItemsScreen.OnCreate | supplychain-ui/app/work-items/page.tsx:102-104 | Create, enabled only when idle, clears the error and makes the panel busy, which disables Create, Run and Refresh. Nothing else changes. |
| WorkItemsPage.WorkItemsScreen.CreateSucceeded | supplychain-ui/app/work-items/page.tsx:105-115 | The new item replaces the created one and clears the run result and trace; the panel is idle. |
| WorkItemsPage.WorkItemsScreen.CreateFailed | supplychain-ui/app/work-items/page.tsx:110-114 | The error is the message or "Create failed", never empty. The created item, run result and trace are kept, and the panel is idle. |
| WorkItemsPage.WorkItemsScreen.OnRun | supplychain-ui/app/work-items/page.tsx:117-120 | Without a created id nothing changes. Otherwise the error is cleared and the panel waits for the run. |
| WorkItemsPage.WorkItemsScreen.RunSucceeded | supplychain-ui/app/work-items/page.tsx:122-123 | The run result is shown at once; the panel stays busy for the trace call. |
| WorkItemsPage.WorkItemsScreen.TraceSucceeded | supplychain-ui/app/work-items/page.tsx:124-139 | The trace, after a run or a refresh, replaces the shown trace; the panel is idle. |
| WorkItemsPage.WorkItemsScreen.CallFailed | supplychain-ui/app/work-items/page.tsx:126-143 | A failed run, trace-after-run or refresh sets the message or "Run failed"/"Trace failed", never empty. Whatever already arrived is kept, including the run result when only the trace failed. The panel is idle. |
| WorkItemsPage.WorkItemsScreen.OnRefreshTrace | supplychain-ui/app/work-items/page.tsx:133-136 | Without a created id nothing changes. Otherwise the error is cleared and the panel waits for the trace. |
| WorkItemsPage.WorkItemsScreen.OnMetrics | supplychain-ui/app/work-items/page.tsx:147-177 | Refresh, Run Simulations or Reset, enabled only when the metrics panel is idle, clears its error and makes it busy. The work-item panel is untouched. |
| WorkItemsPage.WorkItemsScreen.MetricsChangeDone | supplychain-ui/app/work-items/page.tsx:165-181 | After the simulation or reset call, the report is fetched next; the panel stays busy. |
| WorkItemsPage.WorkItemsScreen.ReportArrived | supplychain-ui/app/work-items/page.tsx:151-182 | The report replaces the metrics; the panel is idle. |
| WorkItemsPage.WorkItemsScreen.MetricsFailed | supplychain-ui/app/work-items/page.tsx:153-187 | The error is the message or the handler's own fallback, never empty. The previous report is kept and the panel is idle. |
| WorkItemsPage.MetricsFallback | supplychain-ui/app/work-items/page.tsx:154-184 | Each metrics handler's fallback error text is non-empty. |
| WorkItemsPage.WorkItemsScreen.constructor | supplychain-ui/app/work-items/page.tsx:86-96 | Both panels start idle, with no item, run result, trace, report or error. |
| Scenarios.AutoResolveScenarios | apps/api/app/core/scenarios.py:3-24 | SIM-1001 and SIM-1002 auto-resolve under the orchestrator with the fixed auto-resolve sentence. |
| Scenarios.DelayAndLowStockEscalates | apps/api/app/core/scenarios.py:26-37 | SIM-2001 escalates with two votes and an "Escalated because: " reason. |
| Scenarios.HighOrderValueAutoResolvesUnderVote | apps/api/app/core/scenarios.py:39-50 | SIM-2002, labelled as escalating on order value, gets a single vote and auto-resolves under the orchestrator, though its reason opens "Escalated because: ". |
| Scenarios.HighOrderValueUnderPolicy | apps/api/app/core/scenarios.py:39-50 | Under the rule chain SIM-2002 escalates iff the order threshold is ≤ 150000, the delay limit is < 2 or the stock minimum is > 12. With the order threshold met, the reason is "High order value >= " and the threshold. |
| Scenarios.PriorityScenario | apps/api/app/core/scenarios.py:52-63 | SIM-3001 escalates through the override at confidence 1.0, with the priority sentence first. |
| Scenarios.AutoResolveTestEventUnderVote | apps/api/tests/test_e2e_workflow.py:35-48 | Under the orchestrator T-1001 auto-resolves with an "Auto-resolved:" reason, as the test expects. |
| Scenarios.EscalateTestEventUnderVote | apps/api/tests/test_e2e_workflow.py:50-63 | Under the orchestrator T-3002 escalates with three votes and an "Escalated because:" reason, as the test expects. |
| Scenarios.RuleReasonsLackTestPrefixes | apps/api/tests/test_e2e_workflow.py:123 | No rule-chain reason starts with either prefix the test checks, whatever the event and policy. |
| Scenarios.CreateRunTrace | apps/api/tests/test_e2e_workflow.py:66-123 | Against the routes as written, create–run–trace gives a context that stays null and a single decision carrying the rule chain's word and reason, with neither prefix. |

## Left out

- The chat completion, the embedding calls and the vector search are foreign services with floating-point vector arithmetic. Their outcome is the `LlmAgent.LlmCall` input, and the stored embedding is an input of `Knowledge.KnowledgeBase.Ingest`.
- The similarity ordering and `top_k` limit of `_retrieve_knowledge` and the `/knowledge/query` route are left out for the same reason. Only the scope filter is stated, as `LlmAgent.InRetrievalScope`, and the knowledge context is taken over whatever rows the search returns.
- The prompt text, `json.dumps` of the event and the logging and timing calls of the LLM agent are I/O with no effect on the verdict.
- `json.loads`, Python's `str` of a number, list or dict, and `float` of a string are parameters (`LlmAgent.Runtime`). JavaScript's conversion of a text to a number is a parameter too (`parse`). Float rendering in reasons is the parameter `show`.
- LlmAgent.DedupKeepOrder: takes texts, not `None`. The source's `(t or "")` turns a null row into the empty key, which is dropped, the same as a blank text.
- Binary floating point is not modelled: scores, averages and confidences are exact reals. The agent scores are the same in both. `round(x, 3)` is modelled as rounding halves upwards; for the averages the agents can produce, no tie arises.
- Integer width is not modelled: the day counts are bounded to [0, 365] by the request schema. Order values and rates are reals.
- The database session, commit and rollback are replaced by the store objects. A route either completes or changes nothing. `LIMIT 1` without an ordering lets the database pick any duplicate row; `Knowledge.FirstDuplicate` picks the first stored.
- UUIDs are counters, and `created_at` is a clock that ticks once per stored decision. The item timestamps are never read and are left out, and so is `isoformat` rendering of `created_at`.
- Request-body validation failures become `ValidationError` without the framework's detail. Beyond the stated field constraints, pydantic's type coercion is not modelled.
- The web client's HTTP helpers (`lib/api.ts`) are network I/O. The pages import `runSimulations`, `getSimulationsReport`, `resetSimulations` and `gradePortfolio`, which `lib/api.ts` does not export. Each call is an outcome passed to a completion or failure step.
- React's scheduling is not modelled. Each handler is a start step followed by completion or failure steps, without interleavings. `setField` of the work-items event form is not modelled, since its handlers read the event only to send it.
- Rendering is not modelled: markup, Tailwind classes, `toFixed(3)` of the average score, `Date.toLocaleString`, and the static landing page.
- WorkItemsPage.AgentTrace: returns a truthy `agent_trace` as it is. The card list is not rendered, so the `TypeError` that `.map` throws on a non-empty string there is not modelled.
- Strings.Upper: covers the ASCII letters and the two other characters whose upper case is an ASCII letter (dotless i, long s). Multi-character expansions such as ß → SS are not modelled; none of them yields ESCALATE or AUTO_RESOLVE.
- `orchestrate` emits `votes_escalate`, not the `weighted_escalate_score` the end-to-end test asserts (test_e2e_workflow.py:110). No route stores a context, as `Scenarios.CreateRunTrace` shows. These two expectations of the test are not modelled as properties of the service.
- Scenarios.HighOrderValueUnderPolicy: covers only this event. The policy thresholds are unknown, so the source's label for this scenario is neither confirmed nor refuted.
