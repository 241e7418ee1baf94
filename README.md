# ReportPilot learning engine and in-memory store, in Dafny

This project models the server core of ReportPilot, a sprint-reporting tool
that learns a user's habits. It has three parts:

- **The behaviour-learning engine** (`LearningEngine`). Every tracked user action is appended to an
  event log. Every tenth event starts an analysis pass, which does three things:
  - It builds frequency histograms:
    - over the hour and the weekday of actions whose name contains `report`;
    - over the `format` value of events whose context carries one.
  - It reconciles the confidence of every stored automation rule against those patterns, with a 70/30 weighted average capped at 100.
  - It synthesises a timing rule and/or a format rule when a pattern's confidence is above 50.
- **The in-memory store** (`MemStorage`). It has six insertion-ordered tables:
  - projects, reports, integrations, team members, automation rules and user behaviour events.
  - The first five support create-with-defaults, update-by-merge, delete and getters.
  - The behaviour-event log supports only create, list all and list by action.
  - There is also a `getMetrics` aggregate.
- **The report generator** (`ReportGenerator`):
  - drives a report through pending → generating → completed or failed;
  - computes per-report project metrics;
  - drafts the weekly report.

The modules, in dependency order:

| file | module | content |
|---|---|---|
| `wrappers.dfy` | `Wrappers` | `Option`, `Result`, `Outcome` |
| `json.dfy` | `Json` | JSON values, JavaScript falsiness, `x \|\| fallback` |
| `text.dfy` | `Text` | `includes`, decimal printing of numbers, ASCII `toUpperCase` |
| `seqs.dfy` | `Seqs` | `Array.prototype.filter` |
| `numbers.dfy` | `Numbers` | `Math.round` of a quotient, as half-up integer rounding |
| `tables.dfy` | `Tables` | a JavaScript `Map` with string keys, keeping insertion order |
| `schema.dfy` | `Schema` | the records, their insert shapes and their partial-update shapes |
| `histogram.dfy` | `Histogram` | the count-then-`reduce` argmax the engine uses |
| `storage.dfy` | `Storage` | record builders and merges, `getMetrics`, and `class MemStorage` |
| `learning.dfy` | `Learning` | pattern detection, confidence, rule synthesis, the analysis pass, `trackUserAction` |
| `report_generator.dfy` | `ReportGenerator` | project selection, metrics, the status machine, the weekly draft |

Environment inputs become parameters:
- The clock is a `now: Timestamp` parameter. A timestamp carries only the local hour (0..23) and weekday (0..6).
- `randomUUID` is a counter `nextId`. The n-th id is the decimal text of n, and `Text.ParseNatToString` makes every new id provably fresh.
- `TRELLO_API_KEY` is a constructor parameter.
- The locale date text in the weekly report's title is a `dateLabel` parameter.
- A failure of report processing is a `fault` parameter. The in-memory store itself never fails.

Behaviours of the code that a reader might not expect, and that the model keeps:

- **Tie-break.**
  - The histogram reduce keeps the earlier entry only when its count is strictly greater.
  - Among values with the same count, the value whose *first occurrence is latest* wins, not the lowest value.
  - Example: hours 3,3,5,5 give 5, and hours 5,3,3,5 give 3. See `Histogram.TieGoesToLaterFirstOccurrence` and `Histogram.TieIsNotDecidedByKeyOrder`.
- **Clamping.**
  - Confidence is capped with `Math.min(100, …)` only; there is no lower clamp.
  - `Learning.ConfidenceInRange` shows that the range 0..100 is preserved when it already holds.
- **Validation.** No input is validated: an empty `userId` or `action` is tracked like any other, and `Learning.TrackUserAction` takes any strings.
- **Errors.** An error raised by the analysis pass propagates out of `trackUserAction`, and the event that triggered the pass stays appended.
- **Non-string format.** A winning format value that is truthy but not a string makes `toUpperCase` throw a TypeError:
  - the reconciliation writes have already happened;
  - no rule has been created yet.
- **Partial updates carry `id`.** Partial updates are `Partial<T>`, so they may carry an `id`. A stored record's `id` can then differ from its key.
  - The analysis pass writes to `rule.id` and the metrics write goes to `report.id`, as the code does.
  - `Learning.ReconcileAll`, the recalibration clause of `Learning.AnalysisPass` and `ReportGenerator.GenerationSuccess` assume each record sits under its own id; `Learning.AnalysisPassAppends` holds without that assumption.

## Model

| member | source | states |
|---|---|---|
| Histogram.TallyCorrect | server/services/learningEngine.ts:53-59 | the fold of `(counts.get(x) \|\| 0) + 1` over the events yields exactly the multiset counts, covers every value, and keeps first-appearance order |
| Histogram.BumpCorrect | server/services/learningEngine.ts:53-59 | one `counts.set(x, (counts.get(x) \|\| 0) + 1)` step keeps the entry list an exact histogram in first-occurrence order; `Histogram.Tally` is that step folded over the values |
| Histogram.ReduceIndex | server/services/learningEngine.ts:64-65 | `reduce((a,b) => a[1] > b[1] ? a : b)` returns an entry of maximal count and no later entry has that count |
| Histogram.Preferred | server/services/learningEngine.ts:62-65 | the reduced key is one of the values counted |
| Histogram.PreferredIsLatestFirstSeenMode | server/services/learningEngine.ts:62-65 | the preferred value has maximal count and, among values of that count, the latest first occurrence |
| Histogram.LatestFirstSeenModeUnique | server/services/learningEngine.ts:64-65 | that characterisation picks exactly one value, so the tie-break is deterministic |
| Histogram.TieGoesToLaterFirstOccurrence | server/services/learningEngine.ts:64 | hours 3,3,5,5 give 5 |
| Histogram.TieIsNotDecidedByKeyOrder | server/services/learningEngine.ts:64 | hours 5,3,3,5 give 3: ties are not broken by the lowest key |
| Learning.AnalyzeTimingPattern | server/services/learningEngine.ts:49-68 | preferred hour and weekday are the latest-first-seen modes of the events' hours and days; confidence is 10 per event |
| Learning.AnalyzeFormatPattern | server/services/learningEngine.ts:70-83 | the preferred format is the latest-first-seen mode of the format values, replaced by `"pdf"` when falsy, so never falsy; confidence is 15 per event |
| Text.ContainsInfix | server/services/learningEngine.ts:31 | `includes` holds for any text with the searched string written inside it |
| Text.ContainsIsCaseSensitive | server/services/learningEngine.ts:31 | `"generate_report"` contains `report`, `"Report"` does not: the test is case-sensitive |
| Learning.DetectPatterns | server/services/learningEngine.ts:27-47 | a timing pattern exists iff some action contains `report`, with confidence 10 × their number and modal hour/day; a format pattern exists iff some context has a `format` key, with confidence 15 × their number |
| Learning.FormatPatternIsMode | server/services/learningEngine.ts:38-43 | the detected format pattern is exactly the falsy-to-`"pdf"` mode of the format values of the events that carry one |
| Learning.CalculateConfidence | server/services/learningEngine.ts:85-95 | a rule whose type has no pattern keeps its confidence; otherwise it becomes `min(100, round(0.7·old + 0.3·pattern))` |
| Learning.Blend | server/services/learningEngine.ts:94 | the result is the integer nearest to `0.7·c + 0.3·p`, halves rounded up |
| Learning.BlendBetween | server/services/learningEngine.ts:93-94 | the blend lies between the rule's confidence and the pattern's |
| Learning.BlendApproachesPattern | server/services/learningEngine.ts:93-94 | a reconciliation never moves a confidence away from the pattern's, and moves it when they differ by at least 2 |
| Learning.ConfidenceFixedPoint | server/services/learningEngine.ts:85-95 | a rule already at the pattern's confidence (≤ 100) keeps it |
| Learning.ConfidenceInRange | server/services/learningEngine.ts:85-95 | a confidence in 0..100 stays in 0..100 against a non-negative pattern, although the code has no lower clamp |
| Learning.DayName | server/services/learningEngine.ts:133-136 | 0..6 map to Sunday, Monday, …, Saturday in that order, anything else to `"Unknown"` |
| Learning.DayNameInjective | server/services/learningEngine.ts:133-136 | distinct weekdays get distinct names |
| Learning.TimingDescription | server/services/learningEngine.ts:105 | the description starts with "User prefers reports on " and names the learned weekday |
| Learning.TimingRule | server/services/learningEngine.ts:101-113 | the timing draft has title "Optimal Report Timing", the description naming the learned weekday and hour, type `timing`, condition `{ day, hour }` holding them, action `{ schedule: "auto", notify: true }`, confidence `min(100, pattern)`, 0 applications, active |
| Learning.FormatRule | server/services/learningEngine.ts:116-128 | the format draft has title "Preferred Report Format", the description with the upper-cased format, type `format`, condition `{ reportType: "all" }`, action `{ defaultFormat: format }`, confidence `min(100, pattern)`, 0 applications, active |
| Learning.GenerateNewRules | server/services/learningEngine.ts:97-131 | one rule per pattern whose confidence exceeds 50, timing first, each with confidence in 51..100; a TypeError exactly when the format pattern is strong and its value is not a string |
| Learning.TimingThreshold | server/services/learningEngine.ts:100-102 | a timing rule is due iff at least 6 actions contain `report` |
| Learning.FormatThreshold | server/services/learningEngine.ts:115-117 | a format rule is due iff at least 4 events carry a `format` |
| Learning.Reconcile | server/services/learningEngine.ts:12-18 | folding the snapshot of rules keeps the table's keys and order |
| Learning.ReconcileAll | server/services/learningEngine.ts:12-18 | reconciling every stored rule sets each rule's confidence to its recalibrated value and leaves every other field and every key as it was |
| Learning.ReconcileRules | server/services/learningEngine.ts:13-18 | the loop leaves the rules table equal to the fold of `{ confidence }` patches over the snapshot, written only where the confidence changes |
| Learning.CreateRules | server/services/learningEngine.ts:21-24 | the loop appends one rule per draft, in order, under consecutive fresh ids |
| Learning.AnalyzeUserBehavior | server/services/learningEngine.ts:5-25 | the pass reads events and rules first, reconciles the snapshot, then fails with the TypeError (no rule created) or appends every generated rule |
| Learning.AnalysisPassAppends | server/services/learningEngine.ts:6-24 | after a successful pass, for any table, the old keys keep their order, the counter advanced by the number of generated rules, and the new rows are exactly those rules under consecutive fresh ids, without de-duplication |
| Learning.AnalysisPass | server/services/learningEngine.ts:6-18 | after a successful pass on a table whose rules sit under their own ids, every earlier rule is present and recalibrated, and the table grew by exactly the number of generated rules |
| Learning.TrackUserAction | server/services/learningEngine.ts:138-150 | exactly one event is appended; the analysis runs iff the event count is a multiple of 10, and its error is returned with the event kept |
| Storage.MemStorage.constructor | server/storage.ts:75-113 | the store starts with the seeded team member, Trello integration and weekly-timing rule (confidence 94, 12 applications), under three distinct ids |
| Storage.MemStorage.FreshId | server/storage.ts:126 | the new id is in no table, and the counter moves on |
| Text.ParseNatToString | server/storage.ts:126 | the id text of a counter reads back as that counter, which makes ids fresh |
| Storage.ProjectFromInsert | server/storage.ts:125-137 | the stored project carries the new id; a falsy status becomes `active`, absent team members `[]`, falsy metadata `{}`, a falsy description null; truthy inputs are kept |
| Storage.ReportFromInsert | server/storage.ts:160-174 | the stored report carries the new id; `generatedAt` is set iff the status given is `completed`; a falsy status becomes `pending`, a falsy format `pdf`, absent project ids `[]`, falsy metrics `{}`, a falsy file path null; truthy inputs are kept |
| Storage.MergeReport | server/storage.ts:176-185 | `{ ...existing, ...patch }` field by field (a carried key overrides, an absent key keeps its value); a `generatedAt` the merged report already has is kept, and a completed report without one is stamped with the clock |
| Storage.IntegrationFromInsert | server/storage.ts:200-212 | the stored integration carries the new id; a falsy status becomes `active`, a falsy key null, a falsy config `{}`; truthy inputs are kept; never synced |
| Storage.TeamMemberFromInsert | server/storage.ts:235-244 | the stored member carries the new id and its fields; absent project ids become `[]` |
| Storage.RuleFromInsert | server/storage.ts:267-278 | confidence and applications default to 0; `isActive` is true unless explicitly false |
| Storage.MergeProject | server/storage.ts:142 | `{ ...existing, ...patch }`: each key the patch carries overrides, every other keeps the stored value |
| Storage.MergeIntegration | server/storage.ts:217 | the same overlay for integrations |
| Storage.MergeTeamMember | server/storage.ts:249 | the same overlay for team members |
| Storage.MergeRule | server/storage.ts:283 | the same overlay for automation rules |
| Storage.ConfidencePatchOnly | server/storage.ts:280-286 | a `{ confidence }` update changes the confidence and no other field |
| Storage.MergeRuleIdempotent | server/storage.ts:280-286 | applying the same partial update twice is applying it once |
| Storage.UpdateRuleIn | server/storage.ts:280-286 | a missing id leaves the table as it is; a present one is overlaid in place, keys and order kept |
| Storage.BehaviorFromInsert | server/storage.ts:297-307 | the event carries the new id and the clock's time; a falsy or absent context becomes `{}`, a truthy one is kept |
| Storage.Metrics | server/storage.ts:314-340 | completed reports, five hours saved per completed report, active projects, and the completed share rounded half-up to a percentage in 0..100 (0 without projects) |
| Storage.MemStorage.GetProjects | server/storage.ts:117-119 | the projects in insertion order |
| Storage.MemStorage.GetProject | server/storage.ts:121-123 | the project under the key, or nothing |
| Storage.MemStorage.CreateProject | server/storage.ts:125-137 | one project appended under a fresh id; nothing else changes |
| Storage.MemStorage.UpdateProject | server/storage.ts:139-145 | missing id: nothing, table unchanged; otherwise the merge, stored under the same key and position, other keys untouched |
| Storage.MemStorage.DeleteProject | server/storage.ts:147-149 | true iff the key was present; afterwards it is absent and the rest keep their order |
| Storage.MemStorage.GetReports | server/storage.ts:152-154 | the reports in insertion order |
| Storage.MemStorage.GetReport | server/storage.ts:156-158 | the report under the key, or nothing |
| Storage.MemStorage.CreateReport | server/storage.ts:160-174 | one report appended under a fresh id; nothing else changes |
| Storage.MemStorage.UpdateReport | server/storage.ts:176-185 | missing id: nothing; otherwise the merge with the `generatedAt` stamp, in place |
| Storage.MemStorage.DeleteReport | server/storage.ts:187-189 | true iff the key was present; afterwards it is absent |
| Storage.MemStorage.GetIntegrations | server/storage.ts:192-194 | the integrations in insertion order |
| Storage.MemStorage.GetIntegration | server/storage.ts:196-198 | the integration under the key, or nothing |
| Storage.MemStorage.CreateIntegration | server/storage.ts:200-212 | one integration appended under a fresh id |
| Storage.MemStorage.UpdateIntegration | server/storage.ts:214-220 | missing id: nothing; otherwise the merge, in place |
| Storage.MemStorage.DeleteIntegration | server/storage.ts:222-224 | true iff the key was present; afterwards it is absent |
| Storage.MemStorage.GetTeamMembers | server/storage.ts:227-229 | the team members in insertion order |
| Storage.MemStorage.GetTeamMember | server/storage.ts:231-233 | the member under the key, or nothing |
| Storage.MemStorage.CreateTeamMember | server/storage.ts:235-244 | one member appended under a fresh id |
| Storage.MemStorage.UpdateTeamMember | server/storage.ts:246-252 | missing id: nothing; otherwise the merge, in place |
| Storage.MemStorage.DeleteTeamMember | server/storage.ts:254-256 | true iff the key was present; afterwards it is absent |
| Storage.MemStorage.GetAutomationRules | server/storage.ts:259-261 | the rules in insertion order |
| Storage.MemStorage.GetAutomationRule | server/storage.ts:263-265 | the rule under the key, or nothing |
| Storage.MemStorage.CreateAutomationRule | server/storage.ts:267-278 | one rule appended under a fresh id, with the defaults above |
| Storage.MemStorage.UpdateAutomationRule | server/storage.ts:280-286 | missing id: nothing; otherwise the merge, in place |
| Storage.MemStorage.DeleteAutomationRule | server/storage.ts:288-290 | true iff the key was present; afterwards it is absent |
| Storage.MemStorage.GetUserBehaviors | server/storage.ts:293-295 | the events in insertion order |
| Storage.MemStorage.CreateUserBehavior | server/storage.ts:297-307 | one event appended under a fresh id |
| Storage.MemStorage.GetUserBehaviorsByAction | server/storage.ts:309-311 | exactly the stored events whose action equals the argument, in log order |
| Storage.MemStorage.GetMetrics | server/storage.ts:314-340 | the metrics of the current reports and projects |
| Tables.Values | server/storage.ts:117-119 | `Array.from(map.values())` lists one value per key, in key insertion order |
| Tables.PutNewAppends | server/storage.ts:135 | setting a new key appends it and its value at the end |
| Tables.PutExistingInPlace | server/storage.ts:143 | setting an existing key keeps its position and changes only its value |
| Tables.Remove | server/storage.ts:147-149 | deleting removes exactly that key and keeps the others in order |
| Tables.PutThenRemove | server/storage.ts:125-149 | creating then deleting the same fresh key restores the table |
| Seqs.Filter | server/storage.ts:309-311 | every kept element passes the test and comes from the input; every passing element is kept; no more elements than the input |
| Seqs.FilterCounts | server/storage.ts:309-311 | each passing value is kept exactly as many times as it occurs, every other value not at all |
| Seqs.FilterAppend | server/storage.ts:309-311 | filtering a concatenation is concatenating the filtered parts, so kept elements stay in input order |
| Seqs.FilterDisjointBound | server/services/reportGenerator.ts:50-51 | two filters by exclusive conditions together select at most the whole list |
| Numbers.RoundHalfUp | server/storage.ts:328-329 | the result is the integer nearest to the quotient, halves rounded up |
| Numbers.RoundHalfUpBetween | server/storage.ts:328-329 | a quotient between two integers rounds to a value between them |
| Json.Or | server/services/learningEngine.ts:81 | `x \|\| fallback`: the fallback exactly when `x` is falsy |
| Json.OrDefault | server/storage.ts:130 | an absent or falsy optional value falls back |
| Text.ToUpper | server/services/learningEngine.ts:120 | each ASCII lower-case letter becomes upper-case, everything else is kept |
| ReportGenerator.SelectProjects | server/services/reportGenerator.ts:37-39 | all projects when the id list is absent or empty; otherwise exactly the projects whose id is listed, each as many times as it is stored |
| ReportGenerator.TeamMemberCount | server/services/reportGenerator.ts:58 | 0 for no projects, a single project's team size for one project; with `TeamMemberCountAppend` this fixes the sum of the team sizes |
| ReportGenerator.TeamMemberCountAppend | server/services/reportGenerator.ts:58 | team-member totals add up over concatenated project lists |
| ReportGenerator.CompletionRate | server/services/reportGenerator.ts:57 | 0 without projects, otherwise the exact percentage `100·completed/total`, within 0..100 |
| ReportGenerator.CalculateMetrics | server/services/reportGenerator.ts:48-60 | total, completed and active counts with completed + active ≤ total, the completion rate, and the team-member total |
| ReportGenerator.MetricsJson | server/services/reportGenerator.ts:53-59 | the metrics object has exactly the five metric keys, each holding the computed number |
| ReportGenerator.FilePath | server/services/reportGenerator.ts:21 | the path is `/reports/`, then the report id, a dot and the format, each readable back at its position |
| ReportGenerator.Generated | server/services/reportGenerator.ts:5-29 | generation keeps the set and order of report keys |
| ReportGenerator.GenerationFailure | server/services/reportGenerator.ts:25-28 | a failed generation leaves the report exactly as it was, but with status `failed` |
| ReportGenerator.GenerationSuccess | server/services/reportGenerator.ts:13-23 | a successful generation leaves the report completed, with file path `/reports/<id>.<format>`, the clock's time and the computed metrics, and every other report untouched |
| ReportGenerator.GenerateReport | server/services/reportGenerator.ts:5-29 | unknown id: "Report not found" and no change; otherwise the generation above, with the processing error rethrown |
| ReportGenerator.ProcessReportData | server/services/reportGenerator.ts:31-46 | the selected projects' metrics are merged into the report under the snapshot's id |
| ReportGenerator.GenerateWeeklyReport | server/services/reportGenerator.ts:62-76 | one new report is stored under a fresh id and appended: weekly, pending, pdf, no project ids, empty metrics, titled with the date; the counter moves on |

## Left out

- Floating point: `Math.round(c·0.7 + p·0.3)` and `Math.round(c/t·100)` are computed exactly, with half-up rounding of the rational value. A double that lands just beside a half may round the other way in the source. `calculateMetrics`' unrounded completion rate is an exact `real`.
- Timestamps are an abstract (hour, weekday) pair.
  - Time zones, `Date` values and the `toLocaleDateString` text are not modelled.
  - Each operation reads the clock once, as the parameter `now`.
- `randomUUID` is a counter: ids are the decimal texts of 0, 1, 2, …
- The `setTimeout` delays are not modelled: generation runs as a direct call. `generateWeeklyReport`'s deferred `generateReport` call is not part of the model; callers invoke `ReportGenerator.GenerateReport` themselves.
- `async`/`await` is not modelled: every store call is a sequential method.
- A JavaScript `Map` compares object and array keys by reference. The histogram compares format values structurally, so two equal-looking object formats count as one value here.
- JSON numbers carry no `NaN`, `-0` or `undefined`; falsiness covers `null`, `false`, `0` and `""`.
- `toUpperCase` is modelled for ASCII letters only; Unicode case mapping is not modelled.
- A partial update with a key present but set to `undefined` is not modelled: a patch field is either absent or a value.
- Processing failure in `generateReport` is an injected `fault`. No failure of the store itself is modelled, because the in-memory store has none.
- Learning.AnalyzeTimingPattern: requires a non-empty event list, where the source's `reduce` would throw; its only caller never passes an empty list.
- Learning.AnalyzeFormatPattern: requires at least one format value, for the same reason.
- Histogram.Preferred: requires a non-empty list, for the same reason.
- Learning.AnalysisPass: its recalibration clause is stated only for tables whose rules sit under their own ids; `Learning.AnalysisPassAppends` gives the row count and the appended rules for any table.
- Learning.ReconcileAll: stated only for tables whose records sit under their own ids. `Learning.Reconcile` covers the general case, where writes follow `rule.id`.
- ReportGenerator.GenerationSuccess: stated only for a report stored under its own id. `ReportGenerator.Generated` covers the general case, where the metrics go to `report.id`.
- The HTTP routes are not part of this model. Among other things they always track user `"user1"` and turn analysis errors into status 500.
- The interval scheduler is not part of this model.
- The React client is not part of this model.
- The drizzle/zod schema DSL is not part of this model. Only its record shapes are modelled, as datatypes; the JavaScript field `type` is named `kind`.
- The store does not enforce email uniqueness or any other constraint, and neither does the model.
