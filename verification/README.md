# Dox: a verified model of its governance services

Dox watches software agents: it ingests their events, charges them against tenant quotas, scores
behavioural drift, evaluates policies, notifies webhooks and runs two workflows over the alerts it
opens. This project models that logic in Dafny and proves what it guarantees. `dafny verify
dfyconfig.toml` checks everything.

## How the model is built

| file | models |
|---|---|
| `common.dfy`, `sentinel.dfy` | option and result values, the closed vocabularies, events, alerts, policies, the trigger table |
| `sums.dfy`, `distance.dfy` | finite sums over sets; total variation distance of two finite distributions |
| `drift.dfy`, `baselines.dfy` | histograms, the drift score and its report; the baseline table and analysis |
| `calendar.dfy`, `quota.dfy`, `ledger.dfy` | UTC instants; the quota service; the quota counters against a log that is simply recounted |
| `quota_limits.dfy`, `quota_reports.dfy`, `ledger_witness.dfy` | bounds for each date and month; what status reports promise and which calls they reveal; concrete runs |
| `ingestion.dfy`, `ingestion_guarantees.dfy` | the ingestion pipeline; what all its runs keep, with direct quota calls in between, and batches against single calls |
| `policy.dfy` | policy evaluation |
| `response.dfy`, `review.dfy` | the sentinel-response and human-review workflows, with the audit trail |
| `notify.dfy` | webhook dispatch and failure streaks |

Services are classes that hold the tables they write; a row that a service loads and edits in place is an
object (`TenantQuota`, `SentinelAlert`, `AgentBaseline`, `WebhookEndpoint`). Quota rows and alerts reach
their table only on commit, so dropping the object models a discarded session. Methods are proved against
functions on values, or against their own old state, and the theorems are about those functions and states.

Assumptions: sessions are serialised; where a theorem says so, the clock does not go back; a service call
that raises has committed nothing except a quota row that its own first commit had already created. Every
await can fail: a failure carries the text of its exception, and which calls fail is a parameter. The event
store rejects a repeated event id (`common/models/event.py:22-24`). Identifiers
stand for UUIDs and are positions in append-only tables, so they are fresh. An alert id that does not parse
behaves as an id that names no alert.

## What the code does not do

Four promises fail in the code as written. The model keeps the code, shows the failure, and proves exactly when
the promise holds.

- *A failed load ends the sentinel response.* The router tests the error text for truth
  (`langgraph_workflows/sentinels/graph.py:128-129`), so an exception without text, such as a bare
  `TimeoutError()`, lets the run go on and even resolve the alert (`BlankFailureDoesNotStop`). The run stops
  exactly when the exception has text (`FailedLoadStopsExactly`).
- *A human decision is recorded only after its review was requested.* The same test at
  `langgraph_workflows/human_review/graph.py:120-123` lets a request that failed without text be followed by
  the resolution (`UnrequestedResolution`, `ResolutionIsRequestedExactly`).
- *The status returned by the daily reset describes the next decision.* `reset_daily` does not roll the
  month, so it can report a monthly limit that has expired (`ResetStatusMayBeStale` gives the exact case). For the
  same reason its report can tell whether a status was read before (`QuietCallsInResetReports`). `StaleResetStatus`
  is a run: 20,000 events in January, a reset in February that reports the monthly limit, and an event that is admitted.
- *The printed drift score has the printed severity.* The score is rounded after it is labelled;
  `PrintedScoreMayDisagree` gives the exact intervals, and `MislabelledReport` computes a report of score 0.19997
  that prints 0.2, the threshold of low drift, and says that there is no drift. Scores are exact here: the closed ends
  0.19995, 0.39995 and 0.59995 are ties and rest on the tie-to-even rule for exact numbers; a binary score there may
  lie on either side. The witness is well inside its interval.

## Model

| member | source | states |
|---|---|---|
| DriftScore.CountEvents | services/drift/service.py:65-67 | the counting loop yields one entry per occurring type, holding its number of occurrences |
| DriftScore.CountingConserves | services/drift/service.py:148-150 | the histogram of any list of events sums to the length of the list |
| DriftScore.SumGaps | services/drift/service.py:246-259 | the loop sums the absolute frequency gaps over the types in ascending alphabetical order, and reports exactly the types whose gap exceeds 0.001, in order |
| DriftScore.ComputeTvd | services/drift/service.py:231-261 | the result is the half gap over the union of the key sets, capped at 1; if either window is empty it is 0 without deviations |
| DriftScore.DeviationsExactly | services/drift/service.py:246-259 | a type is reported exactly if its two shares of events differ by more than 0.001, with both shares and the difference to four digits, in alphabetical order |
| DriftScore.FourDigits | services/drift/service.py:253-257 | rounding gives the nearest multiple of 0.0001, and of two equally near ones the even multiple |
| DriftScore.ScoreUnclamped | services/drift/service.py:239-261 | for counted, non-empty windows the half gap is within [0,1], so the cap never changes it, and it is the same over any larger set of types |
| DriftScore.ScoreSymmetric | services/drift/service.py:231-261 | the score does not depend on which window is the baseline |
| DriftScore.ScoreTriangle | services/drift/service.py:231-261 | the triangle inequality over any three non-empty windows, whatever their key sets |
| DriftScore.ScoreIsLargestDifference | services/drift/service.py:242-261 | the score is the largest difference in probability over all sets of event types, attained where the baseline frequency exceeds the recent one |
| DriftScore.ScoreExtremes | services/drift/service.py:239-261 | the score is 0 exactly for proportional histograms and 1 exactly for histograms without a common type |
| DriftScore.OneMoreEventMovesLittle | services/drift/service.py:148-168 | one more event in a window of n moves the score against any baseline by at most 1/(n+1) |
| DriftScore.DriftIsExplained | services/drift/service.py:246-261 | whenever drift is low or worse, the reported deviations name a type that became rarer and one that became more frequent, also after rounding |
| DriftScore.SameEventsScoreZero | services/drift/service.py:148-168 | the same events in any order are at distance 0 |
| DriftScore.ScoreToSeverity | services/drift/service.py:30-34 | high from 0.6, medium from 0.4, low from 0.2, none below |
| DriftDetection.PrintedScoreMayDisagree | services/drift/service.py:195-203 | a report's severity differs from the label of the score it prints exactly when the windows score within 0.00005 below a threshold; on exact numbers the far end of the interval, a rounding tie, is included |
| DriftDetection.MislabelledReport | services/drift/service.py:148-168 | comparing one tool-selected event with 80,003 of them and 19,997 RAG queries, at score 0.19997, gives a report that prints 0.2 and says no drift |
| DriftDetection.DriftDetectionService.ComputeBaseline | services/drift/service.py:50-93 | for every type the new row holds the number of events of that tenant and agent within the last hours; it becomes the only active row of its pair; no other pair's row changes; no pair ever has two active rows |
| DriftDetection.WindowCounts | services/drift/service.py:52-63 | a window holds, for each type, exactly the events of that tenant and agent from that instant on |
| DriftDetection.DriftDetectionService.DeactivateBaseline | services/drift/service.py:122-126 | only the named row is switched off; an unknown id changes nothing |
| DriftDetection.DriftDetectionService.GetActiveBaseline | services/drift/service.py:214-229 | the newest active row of a pair is its only active row, or there is none |
| DriftDetection.DriftDetectionService.Analyze | services/drift/service.py:132-208 | the recent window holds exactly the events of that tenant and agent within the last hours; the report compares it with the pair's active baseline; an empty window or baseline reports score 0, no drift, no deviations and no alert; the very events of the baseline score 0; medium and high drift open one drift alert of that severity about the agent, and only then can the call raise, leaving the alerts as they were |
| Enums.AtMostAllTypes | common/schemas/enums.py:14-48 | no set of event types has more than 34 members |
| Calendar.BeforeMonthStart | services/quota/service.py:135-136 | comparing with the first instant of the month is comparing months |
| Quota.TenantQuota.MaybeResetWindows | services/quota/service.py:130-138 | a day window from an earlier date and a month window from an earlier month restart now with a zero counter; the other is left |
| Quota.QuotaService.CheckAndIncrement | services/quota/service.py:78-94 | the call is one step of the tenant's cell, under every failure; a refused call stores no change but a newly created row |
| Quota.QuotaService.Provision | services/quota/service.py:39-62 | the call sets the tier with its two limits and changes no counter or window, or creates the row with zero counters and both windows opened now |
| Quota.QuotaService.GetStatus | services/quota/service.py:68-72 | the row is stored rolled and reported as stored: what is used and what remains add up to each limit, and each flag says whether its own limit is reached |
| Quota.QuotaService.ResetDaily | services/quota/service.py:100-105 | the day restarts with a zero counter, the month is left as it was; the report shows the stored row in the same way |
| Quota.TenantsAreIndependent | services/quota/service.py:111-127 | a call for one tenant changes no other tenant's row or history |
| QuotaLedger.CountersDecideByRecount | services/quota/service.py:78-138 | in every run, with every tier change, reset, refusal and failure, the counters decide as a ledger that recounts the log each time, and still summarise that log |
| QuotaLedger.RolledRowIsRecount | services/quota/service.py:129-138 | after every run the rolled counters are the admissions of the date since its last reset and those of the month |
| QuotaLedger.StoredTodayWithinMonth | services/quota/service.py:92-105 | in every reachable row the daily count is at most the monthly count, and a day window in a later month than the month window is empty |
| QuotaLimits.DailyLimitHolds | services/quota/service.py:83-86 | a date admits at most (1 + its resets) times the largest daily limit in force at that date's own charges, whatever the tiers before and after |
| QuotaLimits.MonthlyLimitHolds | services/quota/service.py:87-90 | whatever is reset, a month admits at most the largest monthly limit in force at that month's own charges |
| QuotaLimits.MonthlyCountIsBounded | services/quota/service.py:19-28 | by the daily limits alone, the month counts at most 100,000 for each day so far and each reset so far; without resets at most 3,100,000 |
| QuotaLimits.EnterpriseNeverMonthlyRefused | services/quota/service.py:87-90 | with at most 19 resets in the month an enterprise tenant is never refused for its monthly limit |
| QuotaWitness.TwentyResetsCanRefuse | services/quota/service.py:100-105 | the bound of 19 is sharp: a run with 20 resets in a month after which an enterprise tenant is refused for its monthly limit |
| QuotaReports.StatusPredictsCharges | services/quota/service.py:141-155 | n charges at the instant of a status read are all admitted exactly if n is within both remaining counts |
| QuotaReports.StatusPredictsRefusal | services/quota/service.py:78-90 | of the charges at the instant of a status read the smaller remaining count is admitted, and the refusal that follows is a daily one exactly if the daily remaining count is at most the monthly one |
| QuotaReports.StatusAgainstHistory | services/quota/service.py:141-155 | after any run a status read reports the recount of the history, what remains of the limits of the tier last given, and both flags |
| QuotaReports.ResetStatusMayBeStale | services/quota/service.py:100-105 | after any run, the flags returned by the reset predict the next charge unless the month window has expired with a full counter |
| QuotaWitness.StaleResetStatus | services/quota/service.py:100-105 | a run whose reset reports the monthly limit although the next event is admitted |
| QuotaReports.QuietCallsAreInvisible | services/quota/service.py:68-90 | status reads, refused charges and failed calls change no later outcome and no figure of a later status read, and its windows lie on the same date and in the same month |
| QuotaReports.QuietCallsInResetReports | services/quota/service.py:68-105 | a later reset report shows such a call in exactly one case: a status read that found the month expired with a counter above 0, with no rolled row stored in between |
| Sentinel.SentinelService.CreateAlert | services/sentinel/service.py:37-50 | one unresolved alert is appended, or nothing |
| Sentinel.SentinelService.ResolveAlert | services/sentinel/service.py:87-95 | the named alert is resolved with the action and the instant given and keeps its source; every other row stays; an exception leaves the table as it was |
| Sentinel.SentinelService.DeactivatePolicy | services/sentinel/service.py:127-136 | only the named policy is deactivated; an unknown id raises |
| Sentinel.SentinelService.UpdatePolicy | services/policy/service.py:56-62 | in the named policy exactly the fields present in the update are replaced, a flag set to false included; every other policy stays |
| Ingestion.IngestionService.Ingest | services/ingestion/service.py:28-36 | the call is the pipeline on one event, stopping at whichever await fails; if accepted, the event is stored, published and metered once, and exactly the seven triggering types open one alert, about the event's own tenant and agent |
| Ingestion.IngestionService.IngestBatch | services/ingestion/service.py:38-52 | the call is the pipeline on the batch; an empty batch does nothing; if accepted, all events are stored, published and metered in order, and each opens the alerts that it would open alone |
| Ingestion.IngestionService.Store | common/models/event.py:22-24 | one commit adds all the records or none; a repeated event id makes it raise |
| Ingestion.IngestionService.RunSentinel | services/ingestion/service.py:62-70 | one event opens one alert exactly if its type is one of seven, of the sentinel type and severity of its group; a failure leaves the alerts as they were |
| Ingestion.AlertsOfEvent | services/sentinel/service.py:18-26 | which seven event types open an alert, of which sentinel type and severity, for the event's own id, tenant and agent |
| Ingestion.PipelineEnds | services/ingestion/service.py:28-52 | each way a call can end: a refusal or a failed store writes only charges, a failed publication leaves the events stored and a prefix published, a failed alert leaves them metered and a prefix of the alerts |
| Ingestion.NothingFails | services/ingestion/service.py:28-52 | if no await fails, only a refused charge or a repeated event id keeps a call from being accepted |
| IngestionGuarantees.EveryRunIsSound | services/ingestion/service.py:28-70 | under every failure pattern the bus is the store with events left out, the alerts are those of the bus with some left out, metered events were published, and no tenant has more stored events than committed charges |
| IngestionGuarantees.IngestionStaysWithinQuota | services/ingestion/service.py:54-60 | in every run of ingestion and direct quota calls with a clock that never goes back, a tenant is charged on a date for at most (1 + its resets) times the largest daily limit in force at that date's charges, and its rolled counters recount its charges |
| IngestionGuarantees.IngestionStaysWithinMonthlyQuota | services/ingestion/service.py:54-60 | in the same runs a month charges a tenant for at most the largest monthly limit in force at its charges |
| IngestionGuarantees.UnprovisionedStaysWithinQuota | services/quota/service.py:114-127 | a tenant that no call provisions is charged for at most 1,000 events on any date, and as many again after each reset, but at most 20,000 in a month |
| IngestionGuarantees.BatchAgreesWithSingles | services/ingestion/service.py:38-52 | at a fixed clock with no failures a batch succeeds exactly when its events succeed one by one, leaving the same quotas, store, bus, alerts and number of metered events |
| IngestionGuarantees.RefusedBatchKeepsCharges | services/ingestion/service.py:41-42 | whatever fails, a batch refused at event k changes only the quota table and keeps the charges of exactly the k events before |
| IngestionGuarantees.UnrefusedChargesAll | services/ingestion/service.py:41-42 | a call that is not refused charges each event once to its own tenant, whether or not the store then fails |
| IngestionGuarantees.RefusedBatchAgainstSingles | services/ingestion/service.py:38-52 | at a fixed clock with no failures these are the charges that single calls make before the same refusal; the single calls keep their events too |
| PolicyEvaluation.WinnerIsJoin | services/policy/service.py:95-100 | the winner of two lists together is the higher-ranked of their winners, with allow as identity |
| PolicyEvaluation.WinnerIgnoresOrder | services/policy/service.py:95-100 | the winning action depends only on which policies there are |
| PolicyEvaluation.EvaluationMonotone | services/policy/service.py:64-93 | a higher request severity never lowers the action and never unblocks |
| PolicyEvaluation.EvaluationExact | services/policy/service.py:64-100 | blocking holds exactly when some applicable policy blocks; the action is the strictest applicable one, or allow when none applies |
| PolicyEvaluation.EvaluationInWords | services/policy/service.py:19-100 | without ranks: how many policies take part, the action is the strictest that one of them demands in the order of the ten actions, and four actions do not block |
| PolicyEvaluation.MatchedMembers | services/policy/service.py:65-75 | the matched policies are exactly the applicable rows, each as often as stored |
| PolicyEvaluation.DeactivationNeverRaises | services/sentinel/service.py:127-136 | deactivating a policy never makes any evaluation stricter |
| SentinelResponse.Graph.Invoke | langgraph_workflows/sentinels/graph.py:136-148 | a run of the graph is the walk over its nodes and edges |
| SentinelResponse.EveryRun | langgraph_workflows/sentinels/graph.py:45-148 | at most four nodes; a stopped run writes nothing; every other run makes one resolve attempt and then one audit attempt; `resolved` is true exactly if the alert exists and nothing raised, and then that alert alone is changed, with the action reported; the audit entry holds the fields of the final state |
| SentinelResponse.FinalState | langgraph_workflows/sentinels/graph.py:58-126 | which error a run reports: a failed listing is still reported after a default resolution |
| SentinelResponse.ActionWithoutPolicy | langgraph_workflows/sentinels/graph.py:75-98 | without a matching policy a run reports the warning it resolved with, or no action |
| SentinelResponse.MissingAlertStops | services/sentinel/service.py:57-58 | an alert that does not exist stops the run before any write |
| SentinelResponse.FailedLoadStopsExactly | langgraph_workflows/sentinels/graph.py:128-129 | a run whose load failed stops exactly if the exception has text |
| SentinelResponse.BlankFailureDoesNotStop | langgraph_workflows/sentinels/graph.py:55-56 | a load that fails without text can still end in a resolved alert |
| SentinelResponse.ExecutedPolicy | langgraph_workflows/sentinels/graph.py:58-84 | the executed policy is the newest active one for the alert's type, and evaluation at critical severity is at least as strict |
| SentinelResponse.DefaultResponse | langgraph_workflows/sentinels/graph.py:86-98 | the default is taken exactly if listing failed or no policy matches, and it warns |
| HumanReview.Graph.Invoke | langgraph_workflows/human_review/graph.py:125-133 | a run of the graph is the walk over its nodes and edges |
| HumanReview.EveryRun | langgraph_workflows/human_review/graph.py:44-133 | the writes, the audit entries with all their fields and `resolved` of a run from its inputs; a resolution changes the named alert alone; an alert whose completion was not recorded stays resolved though the run says otherwise |
| HumanReview.HowFarExactly | langgraph_workflows/human_review/graph.py:117-123 | when a run goes on after loading, records a decision and resolves its alert, from which calls raise and whether their texts are empty |
| HumanReview.FinalState | langgraph_workflows/human_review/graph.py:45-123 | which audit entry and which error a run reports: a request that failed without text is hidden by the outcome of the decision |
| HumanReview.ResolvedMeansDecided | langgraph_workflows/human_review/graph.py:86-113 | `resolved` implies that the stored action is the image of the decision given |
| HumanReview.DecisionsAndRanks | langgraph_workflows/human_review/graph.py:86-92 | rejecting is the only decision that blocks, escalating ranks just below it, an unknown decision warns |
| HumanReview.FallbackUnreachable | langgraph_workflows/human_review/graph.py:91 | the fallback decision is never used |
| HumanReview.EveryHistoryIsBalanced | langgraph_workflows/human_review/graph.py:56-133 | over all runs and failures, at every moment and for every alert: completions are at most resolutions, and these at most requests plus the runs on that same alert whose request failed without text |
| HumanReview.ResolutionIsRequestedExactly | langgraph_workflows/human_review/graph.py:120-123 | from any store, the first write of a run that resolves is its request, or, exactly if the request failed without text, the resolution itself |
| HumanReview.UnrequestedResolution | langgraph_workflows/human_review/graph.py:79-80 | from any store, a request that fails without text is followed by a resolution and its completion alone |
| Notification.StreakIsLastFailures | services/notify/service.py:159-162 | the streak is the run of failures back to the last success or the beginning |
| Notification.NotificationService.MatchingExactly | services/notify/service.py:95-100 | a dispatch selects exactly the tenant's active webhooks that list the type or the star |
| Notification.NotificationService.Deliver | services/notify/service.py:114-172 | success is a status from 200 to 299; a failed commit leaves the webhook as stored |
| Notification.NotificationService.Dispatch | services/notify/service.py:94-112 | one delivery to each selected webhook, newest first, no other touched; as many successes as responses from 200 to 299, the rest failed; every failure count the current streak |

## Left out

- The texts of the event types: their alphabetical order is the order of positions in `Enums.TypeAt`.
- Floating point: frequencies and scores are exact reals and rounding to four digits is exact; binary rounding error is not modelled, so a score within an ulp of a rounding tie may print otherwise.
- Concurrent sessions: the quota check is an unlocked read-modify-write, so its limits are proved for serialised calls only.
- Policy, webhook and baseline listings among rows created at the same instant: the code leaves their order to the database; the model takes the later row first. The order of events within a drift window is not modelled: the counts ignore it.
- Action and severity columns holding text outside the enumerations, which the request schemas reject, and the rank-0 fallback for such text.
- Message texts, alert details, policy descriptions and configuration, trace and session fields of events.
- Payload hashing, webhook signatures, tokens and passwords: library code.
- Failed commits of baseline and policy changes: such a call changes nothing, and only the calls that succeed are modelled.
- A publish or a commit that takes effect and then raises.
- Alerts resolved by other callers between the nodes of a workflow run.
- `services/query/service.py`, the replay and drift-analysis graphs, compliance, registry, tenant, user and audit queries, HTTP routing: they would only add easy members.
