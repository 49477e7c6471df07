# llm-cost-guard budget metering, modelled in Dafny

This project models the metering core of llm-cost-guard. That core prices each
LLM call from a per-model catalog and appends the priced call to an in-memory
usage ledger. It then checks every budget rule against the ledger: a rule's
rolling-window spend, per scope (global, per user, per feature, or per user and
feature), escalates through 80/90/100 % alert thresholds and may trip a kill
switch. A usage summary can be read back over any filter.

Modules, in dependency order:

- `Wrappers`: `Option`, `Result`, and `Present` (JavaScript truthiness of an
  optional string, where `""` counts as absent).
- `Decimal`: the decimal rendering of a rule index inside the alert-state key
  `${i}:${scope.key}`, with its round trip.
- `Types`: the records of `src/types.ts`.
- `Pricing` (pure): catalog lookup and cost.
- `Storage`: `matchesFilter` and `MemoryStorageAdapter`, a class over a
  `seq` of events.
- `Summary`: `usageSummaryFromEvents`, written as a loop and proved against the
  fold `Summarize`.
- `Rules`: rule matching, scope keys, threshold escalation and the kill decision.
  `Evaluate` is the functional reference for one `evaluateBudgets` pass.
- `Sniffing` (pure): token-usage extraction from provider responses and
  request arguments, and the attribution rule of `wrap`.
- `Guard`: the state `createGuard` closes over, as class `LlmCostGuard`.
  - `Track` and `EvaluateBudgets` are imperative methods proved against `Evaluate`.
  - Subscriber callbacks are ids in insertion order.
  - Every callback invocation is recorded in a ghost trace `delivered`.

The clock is a parameter: each `Track`, `EvaluateBudgets` or `GetUsage` call
receives one `now`. Costs, token counts and percentages are `real`; timestamps
are `int` milliseconds.

The ledger has no order by creation time. `list` filters the whole array
(src/storage.ts:39), and `track` stamps `createdAt` with `input.timestamp` when
the caller gives one (src/guard.ts:270, 286), which may lie in the past. The
model therefore assumes no order: `FilterMembership` and the window lemmas hold
for any ledger.

Successive `Track` calls chain their passes: each call's `ensures` ties it to
`Evaluate` over the ledger with the new event appended, starting from the alert
state the previous call left. For a guard with one rule, `PassAlerts` is that
chain of passes, and `PassesFollowEpisode` shows that when every event falls in
one scope the chain alerts exactly `EpisodeAlerts` of the percentages measured.

## Model

| member | source | states |
|---|---|---|
| Decimal.NatToString | src/guard.ts:220 | the rendering of a rule index is a non-empty string of decimal digits |
| Decimal.NatToStringRoundTrip | src/guard.ts:220 | reading the digits back gives the index: the rendering is lossless |
| Decimal.NatToStringInjective | src/guard.ts:220 | distinct rule indices render differently |
| Pricing.GetModelPricing | src/pricing.ts:36-38 | returns exactly the catalog entry of the model, and nothing iff the model has no entry |
| Pricing.CalculateCostUsd | src/pricing.ts:40-49 | undefined exactly when the model is not in the catalog; otherwise input/1e6 times the input price plus output/1e6 times the output price |
| Pricing.MergeCatalog | src/guard.ts:185 | the effective catalog has the keys of both; an override entry wins; every other built-in entry is kept |
| Pricing.ZeroTokensCostNothing | src/pricing.ts:46-48 | zero input and output tokens cost exactly 0 for any known model |
| Pricing.CostNonNegativeAndMonotone | src/pricing.ts:46-48 | with non-negative prices and counts the cost is non-negative and non-decreasing in both token counts |
| Pricing.CostIsAdditive | src/pricing.ts:46-48 | the cost of two calls' tokens together equals the sum of their costs |
| Pricing.MiniModelExample | src/pricing.ts:40-49 | gpt-4o-mini at 0.15/0.6 per million, 500k input and 250k output tokens, costs 0.225 |
| Storage.MatchesFilter | src/storage.ts:3-29 | the filter predicate; its meaning is stated by MatchesFilterMeaning |
| Storage.MatchesFilterMeaning | src/storage.ts:3-29 | a filter accepts an event iff each non-empty model/userId/feature equals the event's, and createdAt lies within since/until, both ends included |
| Storage.FilterEvents | src/storage.ts:39 | filtering never yields more events than it is given |
| Storage.FilterMembership | src/storage.ts:38-40 | an event is listed iff it is stored and matches the filter |
| Storage.FilterConcat | src/storage.ts:38-40 | filtering distributes over concatenation, so the listing is a subsequence in stored order |
| Storage.NoFilterKeepsAll | src/storage.ts:3-6 | with no filter, or a filter with every field unset, every stored event is listed, in order |
| Storage.InclusiveBoundsExample | src/storage.ts:20-26 | over events at 100..500: since=300 lists 300,400,500; since=250 with until=450 lists 300,400; since=501 lists nothing |
| Storage.MemoryStorageAdapter.constructor | src/storage.ts:32 | a new adapter holds no events |
| Storage.MemoryStorageAdapter.Append | src/storage.ts:34-36 | the ledger becomes the old ledger plus exactly the new event at the end |
| Storage.MemoryStorageAdapter.List | src/storage.ts:38-40 | returns exactly the stored events that match, reading the ledger without changing it |
| Storage.MemoryStorageAdapter.Reset | src/storage.ts:42-44 | the ledger becomes empty, and afterwards every query lists nothing |
| Pricing.TokenCost | src/pricing.ts:46-48 | the per-call price formula; its properties are stated by ZeroTokensCostNothing, CostNonNegativeAndMonotone and CostIsAdditive |
| Summary.Accumulate | src/guard.ts:51-66 | one iteration of the summary loop; its effect over a whole ledger is stated by SummaryTotals, BreakdownKeys and BreakdownSpend |
| Summary.Summarize | src/guard.ts:39-68 | the in-order fold of Accumulate from the empty summary; the reference for UsageSummaryFromEvents, described by SummaryTotals, BreakdownKeys and BreakdownSpend |
| Summary.UsageSummaryFromEvents | src/guard.ts:39-68 | the accumulation loop computes the in-order fold `Summarize` of the events |
| Summary.SummaryTotals | src/guard.ts:50-54 | totalCalls is the number of events; spend and both token totals are the exact sums |
| Summary.BreakdownKeys | src/guard.ts:56-64 | byModel has a key iff some event has that model; byUser/byFeature iff some event has that non-empty user/feature |
| Summary.BreakdownSpend | src/guard.ts:56-64 | each breakdown entry is the total cost of exactly the events carrying that key |
| Summary.SpendWhereAbsent | src/guard.ts:56-64 | events with no matching key contribute nothing to a breakdown entry |
| Rules.BaseRuleMatch | src/guard.ts:70-84 | the rule filter predicate; its meaning is stated by BaseRuleMatchMeaning |
| Rules.BaseRuleMatchMeaning | src/guard.ts:70-84 | a rule applies iff each of its non-empty model/userId/feature filters equals the event's field |
| Rules.JoinKey | src/guard.ts:106-111 | joining the id part, then the user or feature parts, or "global", with a vertical bar gives the key of each scope mode |
| Rules.GetScopeIdentity | src/guard.ts:86-115 | null iff the mode needs a user or feature the event lacks or has empty; else the key per mode, with the scope user/feature from the event when the mode uses it and from the rule otherwise |
| Rules.WithDefaultId | src/guard.ts:204 | an explicit id, even an empty one, is kept; a missing id becomes "rule-" followed by the rule's index; nothing else changes |
| Rules.DefaultIdsDistinct | src/guard.ts:204 | two rules without an id at different indices get different default ids |
| Rules.UserScopesAreIsolated | src/guard.ts:90-96 | under scopeBy "user" two events share a scope key only if they have the same user |
| Rules.UserFeatureRegroup | src/guard.ts:95-111 | moving a "feature:" segment, with the vertical bar before it, from the end of the user part to the front of the feature part leaves a user_feature key unchanged |
| Rules.UserFeatureKeysCanCollide | src/guard.ts:86-115 | under user_feature, a user id that itself holds a vertical bar and "feature:" lets two different user/feature pairs share one scope key |
| Rules.StateKey | src/guard.ts:220 | the alert-state key; StateKeyInjective states that it separates rules and scopes |
| Rules.StateKeyInjective | src/guard.ts:220 | two alert-state keys are equal only for the same rule index and scope key |
| Rules.Reached | src/guard.ts:223-228 | the level reached is always 0, 80, 90 or 100; ReachedIsHighest states which |
| Rules.ReachedIsHighest | src/guard.ts:223-228 | the level reached is the largest threshold at most the percentage, or 0 below 80 |
| Rules.Fired | src/guard.ts:230-232 | the thresholds one evaluation fires; their meaning is stated by FiredMeaning and FiredClosedForm |
| Rules.FiredMeaning | src/guard.ts:230-244 | the thresholds fired are exactly those above the stored level and at most the level reached, strictly ascending |
| Rules.FiredClosedForm | src/guard.ts:231-232 | firing tests 80, then 90, then 100, each once |
| Rules.FiredNothingUnlessAbove | src/guard.ts:230 | nothing fires unless the level reached exceeds the stored level |
| Rules.AlertsForMeaning | src/guard.ts:233-240 | one alert per fired threshold, in order, each carrying the rule, threshold, usage, limit and scope key |
| Rules.KillCandidate | src/guard.ts:252-259 | a rule proposes a kill iff usage strictly exceeds its limit and its killSwitch is not false; the kill carries rule, usage, limit and scope key |
| Rules.WindowUsage | src/guard.ts:209-218 | a rule's window spend in a scope; which events it sums is stated by WindowMembership |
| Rules.EvaluateRule | src/guard.ts:199-259 | one iteration of the rule loop; its effect is stated by KillIsFirstCandidate, StateRecordsHighest, OtherStateUnchanged and SingleRulePass |
| Rules.Evaluate | src/guard.ts:194-267 | the reference pass over the rules in list order; described by KillIsFirstCandidate, StateRecordsHighest, OtherStateUnchanged and SingleRulePass |
| Rules.KillIsFirstCandidate | src/guard.ts:252-259 | a pass kills iff some rule has a kill candidate, and then it is the first such rule in list order |
| Rules.StateRecordsHighest | src/guard.ts:220-250 | after a pass each applying rule's state key holds the level its window usage reached, 0 below 80; later rules never overwrite it |
| Rules.OtherStateUnchanged | src/guard.ts:246-250 | state keys no applying rule owns are left exactly as they were |
| Rules.FiredTelescopes | src/guard.ts:230-250 | rising from a to b and then to c fires what rising from a to c at once fires |
| Rules.MonotoneEpisodeFiresOnce | src/guard.ts:230-250 | over non-decreasing usage every threshold up to the last level reached fires exactly once, in order |
| Rules.EscalationExample | src/guard.ts:223-244 | usage at 80 %, 90 %, 100 % fires 80, 90, 100 once each; one jump to 250 % fires 80, 90, 100 in that order |
| Rules.ReArmExample | src/guard.ts:246-250 | 85 %, then 50 %, then 85 % fires 80 twice: dropping below 80 re-arms the scope |
| Rules.NoRefireWhileAbove | src/guard.ts:230-232 | a threshold at or below the stored level never fires again |
| Rules.SingleRulePass | src/guard.ts:194-259 | a one-rule pass whose rule applies alerts the thresholds above the stored level up to the level reached, stores that level under the scope's key, and proposes the rule's kill candidate |
| Rules.SingleRuleSkips | src/guard.ts:199-207 | a one-rule pass whose rule does not apply changes no state and reports nothing |
| Rules.PassesFollowEpisode | src/guard.ts:220-250 | successive passes of a one-rule guard over events of one scope alert exactly EpisodeAlerts of the percentages they measure, starting from the stored level |
| Rules.WindowMembership | src/guard.ts:209-216 | a rule's window holds exactly the ledger events of the rule's model and the scope's user and feature created in [now - windowMs, now] |
| Rules.OwnEventInWindow | src/guard.ts:290-292 | a freshly appended event inside the window counts toward its own rule's usage |
| Sniffing.ToNumber | src/guard.ts:158-164 | a number is returned exactly for a numeric field, unchanged |
| Sniffing.FirstNumber | src/guard.ts:131-143 | undefined iff no listed field is numeric; otherwise the first numeric field in list order |
| Sniffing.GetUsageDataFromResponse | src/guard.ts:117-156 | null for a non-object, for an empty model or for a missing usage record; any result has the non-empty model and a positive token count |
| Sniffing.CountsFromFirstFiniteField | src/guard.ts:130-147 | when either count is positive, the result is the model with the first numeric input and output fields, 0 when none |
| Sniffing.TotalBecomesInput | src/guard.ts:145-152 | when neither count is positive, a positive total becomes all input with output 0; otherwise null |
| Sniffing.OpenAiResponseExample | src/guard.ts:117-156 | an OpenAI-shaped response with prompt 100 and completion 200 tokens gives model, 100, 200 |
| Sniffing.TotalOnlyExample | src/guard.ts:149-152 | a usageMetadata record with only totalTokenCount 42 and the request's model gives 42 input and 0 output |
| Sniffing.AsModelFromArgs | src/guard.ts:166-181 | undefined without a first object argument; else its string model, or failing that its string modelId |
| Sniffing.Coalesce | src/guard.ts:348-349 | `a ?? b`: a when set, b otherwise |
| Sniffing.WrappedTrackRequest | src/guard.ts:339-350 | a wrapped call records iff usage is extracted; the record has the extracted model and counts, and user/feature from the extractor when set, else from the static options |
| Guard.AlertDeliveriesConcat | src/guard.ts:240-241 | delivering two batches of alerts in turn equals delivering them together |
| Guard.Register | src/guard.ts:314-315 | adding keeps the existing callbacks in order and places the new one after them, or changes nothing if it is present |
| Guard.Unregister | src/guard.ts:316 | removing a callback leaves exactly the other callbacks |
| Guard.UnregisterConcat | src/guard.ts:316 | removal distributes over concatenation, so the remaining callbacks keep their order |
| Guard.UnregisterIdempotent | src/guard.ts:316 | calling an unsubscribe function twice is the same as calling it once |
| Guard.UnregisterAbsent | src/guard.ts:316 | removing an unregistered callback changes nothing |
| Guard.SubscribeThenUnsubscribe | src/guard.ts:314-317 | subscribing a new callback and then unsubscribing restores the list |
| Guard.RegisterKeepsNoDuplicates | src/guard.ts:314-315 | a Set holds each callback at most once after adding |
| Guard.UnregisterKeepsNoDuplicates | src/guard.ts:316 | and after removing |
| Guard.NewEvent | src/guard.ts:279-288 | the event copies model, tokens, user and feature; timestamp and createdAt are the input timestamp, else now; the cost is the price, else 0 |
| Guard.ResolveFilter | src/guard.ts:305-308 | since becomes now - windowMs when the filter has a windowMs and is kept otherwise; every other field is the given filter's, and a missing filter is the empty one |
| Guard.RollingWindowExcludesOld | src/guard.ts:304-311 | with windowMs, events created before now - windowMs are never counted |
| Guard.UnfilteredSpendIsTotal | src/guard.ts:304-311 | without a filter the summary covers every call and all spend in the ledger |
| Guard.HighestTriggered | src/guard.ts:223-228 | the threshold loop yields the level reached |
| Guard.CollectAlerts | src/guard.ts:230-244 | the alert loop yields exactly the alerts of the thresholds fired, ascending |
| Guard.LlmCostGuard.constructor | src/guard.ts:183-192 | built-in prices overlaid by the configured ones; throwOnKill defaults to true and onUnknownModel to "error"; empty ledger, state and subscriber sets |
| Guard.LlmCostGuard.EvaluateBudgets | src/guard.ts:194-267 | alerts, kill and new alert state are those of the reference pass `Evaluate`; each alert goes to every alert subscriber, then any kill to every kill subscriber |
| Guard.LlmCostGuard.EvaluateRuleAt | src/guard.ts:199-259 | one loop iteration performs `Evaluate`'s step for rule i and delivers its alerts |
| Guard.LlmCostGuard.MeasureRule | src/guard.ts:199-218 | whether rule i applies and in which scope, and that scope's window spend read from the ledger, as the reference pass defines them |
| Guard.LlmCostGuard.ApplyThresholds | src/guard.ts:230-259 | fires and delivers the crossed thresholds, stores the level reached and keeps or takes the kill |
| Guard.LlmCostGuard.Track | src/guard.ts:269-302 | an unknown model under "error" fails and changes nothing; otherwise the event is appended first and then evaluated; a kill fails the call when throwOnKill, else sets killTriggered |
| Guard.LlmCostGuard.GetUsage | src/guard.ts:304-312 | the summary of exactly the ledger events matching the resolved filter |
| Guard.LlmCostGuard.OnBudgetAlert | src/guard.ts:314-315 | adds the callback to the alert subscribers once and changes nothing else |
| Guard.LlmCostGuard.OffBudgetAlert | src/guard.ts:316 | removes the callback from the alert subscribers and changes nothing else |
| Guard.LlmCostGuard.OnKill | src/guard.ts:319-320 | adds the callback to the kill subscribers once and changes nothing else |
| Guard.LlmCostGuard.OffKill | src/guard.ts:321 | removes the callback from the kill subscribers and changes nothing else |

## Left out

- `wrap` (src/guard.ts:324-370): the Proxy interception, lazy recursive wrapping and the WeakMap cache are reflective and are not modelled. Only the extraction helpers and the attribution rule (`WrappedTrackRequest`) are.
- Asynchrony and pluggable storage backends: calls run one after another against the in-memory adapter. The race between concurrent `track` calls on one scope is not modelled.
- Subscriber callbacks are ids whose invocations are logged in a ghost trace. What a callback does, and any exception it throws midway through a pass, are not modelled.
- IEEE-754 numbers: prices, costs, token counts and percentages are exact reals.
  - `Number.isFinite` in `toNumber` becomes "the field holds a number".
  - NaN and the infinities are not modelled.
  - The `toFixed(6)` error message of `BudgetExceededError` is dropped.
- The clock: one `now` per call, although `evaluateBudgets` reads the clock twice (src/guard.ts:209, 215).
- The 30 built-in prices (src/pricing.ts:3-34) are a `builtIn` parameter of the constructor, not a table.
- Plain JavaScript objects used as dictionaries are maps in the model, and names such an object inherits from its prototype are not modelled.
  - Catalog lookups (src/pricing.ts:36-38): a model named "constructor" finds an inherited value in the source.
  - The byModel, byUser and byFeature objects of `usageSummaryFromEvents` (src/guard.ts:45-47, 56-64): a key such as "toString" starts from the inherited function, so `?? 0` keeps it and `+` concatenates strings, and "__proto__" never becomes a key. `Summary.Accumulate` adds numbers for every key.
- `scopeBy` values outside the four documented ones are not modelled. In the source such a value produces a key with only the rule id.
- Guard.LlmCostGuard.constructor: the model requires every budget limit to be positive. The source divides by the limit without checking it.
- Sniffing.GetUsageDataFromResponse: its own contract gives the failure cases and the shape of any result. The exact counts are stated by `CountsFromFirstFiniteField` and `TotalBecomesInput`.
- `getScopeIdentity`'s fallback id "rule" is modelled but never reached from `evaluateBudgets`, which always supplies `rule-${i}`.
- src/middleware.ts, src/cli.ts, src/index.ts and scripts/write-cjs-package.mjs are not part of this model: they hold web-framework glue, console output, re-exports and build scripts.
