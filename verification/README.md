# Verified model of the budgeted LLM client and its operational checkers

The LLM client of this repository sends chat and stream requests through a
budget: every provider call is admitted, reserved with a remote owner, dispatched
and settled, while retries, a JSON-mode fallback, an attempt allowance, a
deadline that may fire at any await and lost acknowledgements all interact. Its
counters are later reconciled by a budget report. This project models that
protocol, its counters and its report in Dafny and proves what they guarantee,
together with four smaller cores of the operations tooling.

How the parts fit together:

- `CallTrace` says what one request visibly does, as a sequence of events, and
  which sequences the protocol accepts. `Telemetry` ties each counter method to
  one event: it can be called only where the protocol allows that event.
- `ChatSpec` and `StreamSpec` say what a request comes to as a function of the
  request, the budget and an arbitrary script of everything the provider, the
  owner, the network and the clock do, and why: by the guards of its last turn.
  `ChatOutcomes` and `StreamOutcomes` tell every result and status by the replies,
  polls and acknowledgements themselves.
- `ChatClient` and `StreamClient` are the client's loops. Their methods prove
  that the request ends exactly as its script demands, that its trace is accepted
  and completed, and that the result tells the truth about it.
- `BudgetControl` is the client side of the ledger, `SharedOwner` the owner and
  all interleavings of accepted traces over one ledger, whose requests may be
  applied on the spot, late or never. `Admission` is the
  semaphore, `Exclusion` puts it together with the ledger.
- `Requests` names the causes of an unbalanced request, `ClientSpend` closes the
  spend theorem for requests that the client ran.
- `BudgetReport` runs the report's balance checks over the counters that any mix
  of completed requests leaves behind, `UnbalancedRuns` has concrete runs that
  fail them. `GenerationDigest` is the report's sample digest.
- `Subnets` and `FlatJson` carry `ContinuityGuard`, the crash-safe network guard;
  `GuardOutcomes` says when each of its actions succeeds.
- `ImportReadiness`, `SseObservation` and `NearestRank` stand alone;
  `ReadinessOutcomes` and `SseOutcomes` say what the first two record. `MapSum` has
  sums over finite maps, `LlmTypes` the shared types.

`dafny verify dfyconfig.toml` checks everything.

## What the code does differently from what one may expect

- The client emits the attempt status `truncated` (crates/llm-client/src/client.rs:302),
  which the report's vocabulary lacks (tools/llm-budget/verify.py:42-47): such an
  export is refused. `BudgetReport.VocabularyVerdict` is exact.
- The report's attempt and usage equations do not hold of every run.
  `BudgetReport.Verdict` says exactly when they fail, by causes that the script of
  a request shows: an attempt scheduled but not dispatched, or a failure after the
  usage report. `UnbalancedRuns` runs the client on one such script each. The token
  equations hold of every run, because each provider builds its usage through
  `Usage::new` and a count it refuses ends as an error.
- A retried attempt is never settled, so its reservation stays pending. At any
  time one pending reservation is at work, but an open request may have more
  pending ones (`Exclusion.RetryAbandonsReservation`).
- A job counted `unknown` at exactly its cutoff can still turn good, because the
  report uses a strict comparison and the merge does not
  (`ImportReadiness.UnknownCanTurnGood`).
- The stream observer follows its own framing, not section 9.2.6 of the HTML Living
  Standard: it dispatches an event without data and splits at line feeds only.

## Model

| member | source | states |
|---|---|---|
| SharedOwner.RunSafe | crates/llm-client/src/diagnostic_transport_tests.rs:259-283 | over every interleaving of any number of requests, with any acknowledgement lost and any request to the owner applied late, after its client gave it up: the books balance, the charge stays under the cap, every id the ledger knows was reserved by its request at the request's own quote, and every dispatched id is still charged |
| SharedOwner.ChargeIsExactAndCapped | crates/llm-client/src/diagnostic_transport_tests.rs:259-283 | charged = quotes of unsettled reservations + actual costs of settled ones, at most the cap |
| SharedOwner.AttemptsCounted | crates/llm-client/src/diagnostic_transport_tests.rs:259-275 | the ledger's ordinal counts exactly the reservations it applied |
| SharedOwner.DispatchIsPaidFor | crates/llm-client/src/client.rs:217-238 | in any run, a budgeted dispatch finds its own reservation pending at full quote, under an id never dispatched before |
| SharedOwner.SettlementLowersCharge | crates/llm-client/src/diagnostic_budget.rs:528-566 | a settlement, sent or arriving late, finds its own reservation pending and not settled yet, and never raises the charge |
| SharedOwner.ReservationStaysCharged | crates/llm-client/src/diagnostic_budget.rs:424-435 | a reservation the owner applied, at once or late, stays charged at full quote to the end of the run, unless a settlement of that very id was applied: a lost or mismatched acknowledgement leaves the charge |
| SharedOwner.LateReservationIsCharged | crates/llm-client/src/diagnostic_budget.rs:424-435 | a concrete run: a reservation that arrives after its request gave it up and ended is charged and stays, though nothing was dispatched |
| SharedOwner.SpendNeverExceedsCharge | crates/llm-client/src/diagnostic_budget.rs:536-544 | if settlements carry what the provider reported, and it reports truly and stays within each grant, the true cost of everything ever dispatched never exceeds the charge, nor the cap |
| ClientSpend.ClientSpendNeverExceedsCharge | crates/llm-client/src/diagnostic_budget.rs:528-566 | the same for requests that the client ran, retried setups included, over every interleaving and every late arrival: nothing is assumed of the client, and of the provider only true reports within the grants |
| ClientSpend.RunningForwards | crates/llm-client/src/client.rs:253-257 | the client settles every attempt with the usage the provider reported for that very attempt; of a stream only the attempt that opened reports any |
| Requests.SettlesWhatWasReported | crates/llm-client/src/client.rs:253-257 | the same for one chat or stream, from the state its contract guarantees |
| Requests.ReportedExactly | crates/llm-client/src/client.rs:253-257 | which usage counts as reported for an attempt: of a chat that of its counted reply, of a stream the one it showed, for the attempt that opened it |
| SharedOwner.ViewsAreLocal | crates/llm-client/src/client.rs:163-408 | whatever the interleaving, the state of a request depends on its own steps only |
| SharedOwner.SettlementFindsReservation | crates/llm-client/src/diagnostic_transport_tests.rs:279-282 | a protocol-conforming settlement, on time or late, always finds its reservation, and costs at most it: the owner's unwrap and subtraction cannot fail |
| SharedOwner.Owner.Reserve | crates/llm-client/src/diagnostic_transport_tests.rs:259-275 | adds the quote exactly when it fits under the cap, and otherwise changes nothing; peak and largest pending count follow exactly |
| SharedOwner.Owner.Settle | crates/llm-client/src/diagnostic_transport_tests.rs:277-283 | replaces the quote by the actual cost, whatever it is, and keeps the books balanced; the charge stays under the cap when the cost is at most the quote |
| CallTrace.DispatchOwnsReservation | crates/llm-client/src/client.rs:217-238 | in an accepted budgeted trace the two events before a dispatch are its own charged reservation and its acknowledgement |
| CallTrace.FreshAttempts | crates/llm-client/src/diagnostic_budget.rs:405 | no attempt id is reserved twice or dispatched twice: retries and the JSON fallback each take a fresh one |
| CallTrace.SettlementFollowsDispatch | crates/llm-client/src/client.rs:253-261 | a settlement follows the dispatch of its own attempt, and no attempt is settled twice |
| CallTrace.CompletedRequestBalance | crates/llm-client/src/client.rs:203-406 | a completed request has one start and one terminal status, at most one usage report and one on success, attempts + undispatched = started + retries, and books exactly the usages noted at its replies (`ChatSpec.Receipts` says which for chat) |
| CallTrace.TraceSound | crates/llm-client/src/client.rs:203-406 | the invariant behind it, at every point of every accepted trace |
| CallTrace.ReceiptBalance | crates/llm-client/src/telemetry.rs:219-233 | each usage is billed once: input = cached + uncached input, and the output and cached totals agree |
| BudgetControl.Quote | crates/llm-client/src/diagnostic_budget.rs:601-646 | a quote exists exactly when the dispatch matches the profile and the exact cost and token sums fit 64 bits; then it is the exact cost of the whole grant |
| BudgetControl.SettledUsageFitsQuote | crates/llm-client/src/diagnostic_budget.rs:536-544 | any usage that may be settled costs at most the quote |
| BudgetControl.CompiledProfileNeverOverflows | crates/llm-client/src/diagnostic_budget.rs:630-646 | for the v4 profile the checked arithmetic never refuses a dispatch |
| BudgetControl.GrantedExactly | crates/llm-client/src/diagnostic_budget.rs:396-446 | a grant comes back exactly for a dispatch within the profile that the owner acknowledged in time with this binding, this attempt id, an ordinal within the limit and the exact worst-case amount; it carries the limits of that dispatch |
| BudgetControl.ReservationExpiresExactly | crates/llm-client/src/diagnostic_budget.rs:404-426 | the deadline ends a reservation exactly where one was sent: for a dispatch within the profile whose worst case fits 64 bits |
| BudgetControl.SettledExactly | crates/llm-client/src/diagnostic_budget.rs:528-566 | a settlement is acknowledged exactly by the reply with this binding and attempt id that repeats the model, input, output and cached counts in their own fields, all within the grant |
| BudgetControl.ReadBody | crates/llm-client/src/diagnostic_budget.rs:381-389 | a control response is accepted exactly when every chunk arrives and all together have at most 4096 bytes; it is then their concatenation |
| BudgetControl.BudgetClient.Reserve | crates/llm-client/src/diagnostic_budget.rs:396-442 | equals `ReserveResult`: a grant, with all its fields, comes back exactly for a matching, timely acknowledgement; everything else leaves the charge and nothing to dispatch |
| BudgetControl.BudgetClient.Exchange | crates/llm-client/src/diagnostic_budget.rs:409-435 | the same for the exchange itself: what counts as a match, what the deadline does, and which events happen |
| BudgetControl.BudgetClient.Settle | crates/llm-client/src/diagnostic_budget.rs:528-566 | equals `SettleResult`: true exactly for a settleable usage whose own acknowledgement came back; an unusable usage is never sent, and a sent one is this usage |
| ChatClient.LlmClient.Chat | crates/llm-client/src/client.rs:163-408 | a request that does not begin leaves no counter; any other ends exactly as its script demands: outcome, terminal status, dispatches, undispatched attempt, every attempt's status, every booked usage, the usage report, and settlements that carry the reported usage |
| ChatClient.LlmClient.Run | crates/llm-client/src/client.rs:187-408 | the same for an admitted request, from its started counter on |
| ChatClient.LlmClient.BeginsExactly | crates/llm-client/src/client.rs:163-188 | a request begins exactly when it is valid, supported, configured and let in; `Chat` names the reason otherwise |
| ChatClient.LlmClient.Attempts | crates/llm-client/src/client.rs:203-386 | the retry loop leaves the request where the script does, and terminates with the retries left plus JSON mode |
| ChatClient.LlmClient.Turn | crates/llm-client/src/client.rs:206-385 | one turn does what `TurnOf` says and books exactly the status and the usage of its reply |
| ChatClient.LlmClient.Begin | crates/llm-client/src/client.rs:207-235 | dispatches exactly with allowance and, under a budget, a grant; each refusal and the late reservation end as they must |
| ChatClient.LlmClient.OnAnswer | crates/llm-client/src/client.rs:239-272 | the reply's own usage is booked and settled; success follows exactly from an acknowledged settlement within the series limit, a refused one is an evidence error, a cut one is left to the deadline |
| ChatClient.LlmClient.BookAnswer | crates/llm-client/src/client.rs:241-252 | the one usage report says `present` exactly when this reply and every earlier empty one carried usage |
| ChatClient.LlmClient.OnFailure | crates/llm-client/src/client.rs:273-383 | which failures end the request, which fall back once to plain mode, and which are retried, with the usage each books |
| ChatClient.LlmClient.OnEmptyJson | crates/llm-client/src/client.rs:318-354 | an empty JSON reply's usage is booked, then settled, and only then followed by a fallback that uses no retry |
| ChatClient.LlmClient.OnSeriesReceipt | crates/llm-client/src/client.rs:292-317 | an empty or cut series reply books its own usage once, reports it, and is final |
| ChatClient.LlmClient.OnProviderError | crates/llm-client/src/client.rs:355-383 | a retry follows exactly for a retryable status with retries left, and never for a truncated completion or series matching |
| ChatClient.LlmClient.Expire | crates/llm-client/src/client.rs:390-406 | the deadline: `timeout` for a pending attempt, and the result and state the script demands: an evidence error exactly when the provider call of the last turn began |
| ChatClient.LlmClient.ReserveAttempt | crates/llm-client/src/client.rs:641-659 | equals `ReserveFor`: without a budget nothing to reserve; with one, a grant exactly as `ReserveResult` says |
| ChatSpec.TruncatedMeansCutSeries | crates/llm-client/src/client.rs:292-317 | an attempt ends `truncated` exactly for a cut series-matching reply |
| ChatSpec.EndingOfChat | crates/llm-client/src/client.rs:203-406 | why a request ends as it does, both directions, by the guards of its last turn: answered iff the last answer was paid for and within the limit, `budget_error` iff allowance or reservation was refused, undispatched iff one of these or a deadline at reserve or sleep, `timeout` iff the deadline fired at reserve, call, settle or sleep, with an evidence error iff that turn reached the provider |
| ChatSpec.LastTurn | crates/llm-client/src/client.rs:206-385 | the request ends at the first turn that is neither a paid fallback nor a retry that wakes in time |
| ChatSpec.EndWithinLimit | crates/llm-client/src/retry.rs:10-23 | at most min(allowance, 5) dispatches, 4 without JSON mode, 1 for series matching |
| ChatSpec.GivesUpLast | crates/llm-client/src/client.rs:367-382 | a retryable failure ends a request only after all retries |
| ChatSpec.FailedReportOfChat | crates/llm-client/src/client.rs:245-269 | a usage report without success means an answer that was not paid for or too long, or a series receipt, and conversely |
| ChatOutcomes.OutcomeOfChat | crates/llm-client/src/client.rs:203-406 | the result of a request, each an if-and-only-if over what its last turn met: answered, evidence failure, control error, spent allowance, overlong series answer, lost response evidence, deadline, and provider failure |
| ChatOutcomes.StatusOfChat | crates/llm-client/src/client.rs:203-406 | its terminal status, each of the five an if-and-only-if over the same, and its dispatches |
| ChatOutcomes.LastTurnExactly | crates/llm-client/src/client.rs:305-385 | a request goes on to another turn exactly after a paid-for empty JSON reply in JSON mode, and after a reply that another attempt may mend with a retry left and a sleep that ends in time |
| ChatOutcomes.PaidExactly | crates/llm-client/src/client.rs:253-261 | a budgeted reply is paid for exactly when the owner repeats its usage field by field under this binding and turn, and it stays within the reserved model and limits |
| ChatOutcomes.StartExactly | crates/llm-client/src/client.rs:207-235 | the allowance comes first, then a budgeted turn needs an encoding and a grant |
| ChatOutcomes.AttemptExactly | crates/llm-client/src/client.rs:239-372 | the status of an attempt by its reply, each an if-and-only-if |
| ChatOutcomes.RetriesCounted | crates/llm-client/src/client.rs:333-380 | the retries used are the earlier turns that were no fallback |
| ChatOutcomes.ReportOfChat | crates/llm-client/src/client.rs:239-252 | the usage report is made exactly by a last reply that is an answer or a final series reply, and says present exactly when every counted reply carried usage |
| StreamClient.ChatStream | crates/llm-client/src/client.rs:414-539 | a stream that does not begin leaves no counter; any other ends exactly as its scripts demand: the setup error or the relayed items, status, dispatches, statuses, usage report and settlements with the observed usage |
| StreamClient.RunStream | crates/llm-client/src/client.rs:440-539 | the same for an admitted stream |
| StreamClient.StreamBeginsExactly | crates/llm-client/src/client.rs:414-438 | a stream begins exactly for a valid request without schema, observer or attempt limit; `ChatStream` names the reason otherwise |
| StreamClient.OpenStream | crates/llm-client/src/client.rs:456-512 | setup ends exactly as its script demands and never runs past its last permitted attempt, so the code behind the loop is unreachable |
| StreamClient.SetupAttempt | crates/llm-client/src/client.rs:457-507 | one setup attempt does what `SetupTurnOf` says: dispatched exactly with a grant, retried exactly as the policy says |
| StreamClient.SetupFailed | crates/llm-client/src/client.rs:485-506 | a failed setup attempt is retried exactly as the policy says |
| StreamClient.SetupExpired | crates/llm-client/src/client.rs:514-529 | setup cut off by the deadline: under a budget an evidence error exactly when the provider call of this attempt began, else a control error |
| StreamSpec.EndingOfSetup | crates/llm-client/src/client.rs:456-529 | why setup ends as it does, both directions, by the guards of its last attempt; at most four dispatches |
| StreamClient.ObserveStream | crates/llm-client/src/client.rs:816-887 | refines the specification: the consumer gets the upstream text in order up to the first fault or Finished, then the ending, and nothing more; the request is closed once |
| StreamSpec.EndingIsHonest | crates/llm-client/src/client.rs:817-887 | at most one terminal item; a budgeted Finished needs an acknowledged settlement, and every other visible end of a budgeted stream is an evidence error |
| StreamClient.OnFinished | crates/llm-client/src/client.rs:865-879 | settlement comes before Finished; a consumer that drops the stream meanwhile leaves `consumer_dropped` |
| StreamClient.OnFault | crates/llm-client/src/client.rs:824-884 | the status and the item of each fault |
| StreamSpec.StopIndex | crates/llm-client/src/client.rs:822-886 | the first poll that ends the stream, and none before it |
| StreamOutcomes.OutcomeOfStream | crates/llm-client/src/client.rs:798-892 | status and item of a stream by the first poll that ends it: Finished, a changed model, a malformed or second usage, an error, the end or the deadline, over the polls themselves |
| StreamOutcomes.RunsExactly | crates/llm-client/src/client.rs:798-892 | a stream goes on exactly while no poll ends it; a model that repeats an earlier one does not |
| StreamOutcomes.TextsExactly | crates/llm-client/src/client.rs:837-843 | every delta is relayed in its place, and nothing else |
| StreamOutcomes.OutcomeOfSetup | crates/llm-client/src/client.rs:455-535 | grant, status and error of setup, each an if-and-only-if over what its last attempt met |
| StreamOutcomes.LastSetupExactly | crates/llm-client/src/client.rs:488-507 | setup goes on exactly after a transport error, a 429 or a 5xx, with fewer than three retries and a sleep that ends in time |
| StreamClient.StreamGuard.Finish | crates/llm-client/src/client.rs:780-789 | records one terminal status and at most one usage report; later calls change nothing |
| StreamClient.StreamGuard.Drop | crates/llm-client/src/client.rs:792-796 | a stream dropped before its end closes as `consumer_dropped` |
| LlmTypes.NewUsage | crates/llm-client/src/types.rs:366-381 | usage is accepted exactly when cached does not exceed input |
| LlmTypes.ChatRequest.EffectiveMaxOutputTokens | crates/llm-client/src/types.rs:340-348 | with thinking, the exact minimum of 8192 and the limit plus 4096: the 32-bit saturation never shows |
| LlmTypes.ShouldRetry | crates/llm-client/src/retry.rs:10-12 | a status is retried exactly while retries are left and its label is `rate_limited` or `provider_error` |
| LlmTypes.Delay | crates/llm-client/src/retry.rs:14-19 | every wait is at most 120 seconds, and the table is indexed only for a retry the policy admits |
| Telemetry.RequestLabels.Started | crates/llm-client/src/telemetry.rs:84-101 | one event, one counter; allowed only where the protocol allows it |
| Telemetry.RequestLabels.Attempt | crates/llm-client/src/telemetry.rs:103-122 | one ended attempt, counted with its status |
| Telemetry.RequestLabels.Retry | crates/llm-client/src/telemetry.rs:124-134 | one scheduled retry, counted with its reason |
| Telemetry.RequestLabels.Finish | crates/llm-client/src/telemetry.rs:158-177 | the terminal status |
| Telemetry.RequestLabels.ReportUsage | crates/llm-client/src/telemetry.rs:189-213 | the usage report, and the tokens if there are any |
| Telemetry.RequestLabels.ReportAdditionalUsage | crates/llm-client/src/telemetry.rs:215-217 | tokens without a report |
| Telemetry.RecordUsageTotal | crates/llm-client/src/telemetry.rs:219-268 | booking one usage moves every total of the report by exactly that usage, and of its own operation only |
| Telemetry.RecordTotal | crates/llm-client/src/telemetry.rs:84-268 | each event moves each total of the report by its own weight, and of its own operation only |
| Telemetry.RecordAllTotal | tools/llm-budget/verify.py:139-147 | a total over an export equals the tally of the trace that made it |
| Telemetry.RecordExactly | crates/llm-client/src/telemetry.rs:84-268 | every event moves exactly the series with its own labels, by exactly what it counts, and no other series |
| BudgetReport.ExportDistinct | tools/llm-budget/verify.py:100-103 | after any interleaving of any requests, a process exports no series twice, so the duplicate check cannot fire on its export |
| BudgetReport.Verdict | tools/llm-budget/verify.py:235-302 | over any generations of completed requests: the start/terminal and token checks never fail; the attempt check fails exactly when some request was left undispatched, and the usage check exactly when some request failed after its usage report |
| Requests.UndispatchedHasCause | crates/llm-client/src/client.rs:206-235 | an undispatched attempt has exactly four causes: allowance spent, reservation refused, deadline while reserving, deadline while sleeping |
| Requests.FailedReportHasCause | crates/llm-client/src/client.rs:253-269 | a usage report without success: for chat an unpaid or overlong answer or a series receipt, for a stream a seen usage and any end but success |
| Requests.TruncatedHasCause | crates/llm-client/src/client.rs:291-316 | a `truncated` attempt comes exactly from a cut series-matching reply |
| UnbalancedRuns.OneRequest | tools/llm-budget/verify.py:235-246 | the report on a process that served one request |
| UnbalancedRuns.RefusedReservation | tools/llm-budget/verify.py:237-238 | a concrete run, a refused reservation, after which the attempt check fails |
| UnbalancedRuns.OverlongSeriesAnswer | tools/llm-budget/verify.py:243-244 | a concrete run, an overlong series answer, after which the usage check fails |
| UnbalancedRuns.CutSeriesReply | tools/llm-budget/verify.py:42-47 | a concrete run, a cut series reply, after which the usage check fails and the export carries a label the report refuses |
| UnbalancedRuns.DroppedAfterUsage | tools/llm-budget/verify.py:243-244 | a concrete run, a stream dropped after its usage was seen, after which the usage check fails |
| BudgetReport.SlackZero | tools/llm-budget/verify.py:235-246 | the summed slack is zero exactly when no request has the cause |
| BudgetReport.ExportsBalance | tools/llm-budget/verify.py:200-246 | the totals of all generations balance up to the summed slack |
| BudgetReport.ExportTotal | tools/llm-budget/verify.py:139-147 | however the requests interleave, an exported total is the sum over the requests |
| BudgetReport.RequestAccounts | crates/llm-client/src/client.rs:203-406 | the accounts of one completed request with its slack |
| BudgetReport.TokensConserved | tools/llm-budget/verify.py:266-302 | token totals are the usages of all replies in the scripts that count as answered and carried one |
| BudgetReport.VocabularyVerdict | tools/llm-budget/verify.py:40-52 | an export stays within the report's status and reason vocabulary exactly when no series-matching reply was cut short |
| BudgetReport.ExtraTerminalShows | tools/llm-budget/verify.py:235-236 | on completed requests, one start or terminal status too many makes the terminal check fail |
| BudgetReport.ExtraAttemptShows | tools/llm-budget/verify.py:237-238 | a retry too many makes the attempt check fail; so does an attempt too many, unless it replaces as many that were never dispatched |
| BudgetReport.ExtraReportShows | tools/llm-budget/verify.py:243-244 | a usage report too many makes the usage check fail |
| BudgetReport.ExtraTokensShow | tools/llm-budget/verify.py:297-302 | tokens too many of any kind, on either side, make the token check fail |
| Admission.RunConserves | crates/llm-client/src/client.rs:39-44 | held and available permits always add up to eight |
| Admission.AtMostEight | crates/llm-client/src/client.rs:96-114 | never more than eight requests are admitted |
| Exclusion.BudgetedCallsExclude | crates/llm-client/src/client.rs:96-106 | between any event of a budgeted request, a reservation among them, and its terminal status, no other request in the process does anything |
| Exclusion.BudgetedIsAlone | crates/llm-client/src/client.rs:96-106 | while a budgeted request is open, no other request is open or holds a permit |
| Exclusion.AtMostOneLive | crates/llm-client/src/diagnostic_transport_tests.rs:241-284 | at any point at most one pending reservation is at work; every other one belongs to a closed request or to an earlier attempt of the open one |
| Exclusion.NeverTwoPending | crates/llm-client/src/diagnostic_transport_tests.rs:241-284 | with nothing abandoned, at most one reservation is pending at a time |
| Exclusion.RetryAbandonsReservation | crates/llm-client/src/client.rs:365-380 | a concrete run: a retried attempt leaves its reservation pending while its request is open and reserves again |
| Admission.Semaphore.TryAcquire | crates/llm-client/src/client.rs:108-112 | takes the permits exactly when they are free |
| Admission.Semaphore.Free | crates/llm-client/src/client.rs:769-777 | dropping the holder returns its permits |
| GenerationDigest.PreimageInjective | tools/llm-budget/verify.py:336-341 | different nonempty lists of accepted generations have different digest preimages |
| GenerationDigest.FramesInjective | tools/llm-budget/verify.py:340-340 | length-prefixed framing is uniquely decodable |
| GenerationDigest.OneGenerationIsPlain | tools/llm-budget/verify.py:336-341 | a single generation is hashed as it is |
| GenerationDigest.ManyGenerations | tools/llm-budget/verify.py:336-341 | several are hashed as the tag and, in order, each whole behind its length in eight bytes, and nothing else |
| GenerationDigest.TaggedFileIsRefused | tools/llm-budget/verify.py:84-92 | a file that starts with the domain tag does not parse |
| GenerationDigest.DecodeExactly | tools/llm-budget/verify.py:86 | a file decodes to a text exactly when it is the UTF-8 encoding of that text (section 3 of RFC 3629) |
| GenerationDigest.ValueOfBigEndian | tools/llm-budget/verify.py:340-340 | the eight-byte length prefix determines the length |
| Subnets.ChooseSubnets | infra/monitoring/notification_drill.py:109-121 | sound and complete first fit: the two lowest free candidates, a failure exactly when fewer than two of the 256 are free, an error exactly on an unreadable inventory |
| Subnets.NestedOrDisjoint | infra/docker/qualification_network.py:137-157 | section 3.1 of RFC 4632: aligned blocks that share an address are nested |
| Subnets.OverlapsIffShares | infra/docker/qualification_network.py:151-156 | the library's four membership tests find every common address |
| Subnets.MaskIsMembership | infra/docker/qualification_network.py:151-156 | comparing masked addresses is range membership |
| Subnets.Topology | infra/docker/qualification_network.py:134-159 | accepts exactly a valid block that shares no address with any foreign allocation or route of a readable inventory; the refusals name a real cause |
| Subnets.CheckNetwork | infra/docker/qualification_network.py:140-147 | the allocations of one network |
| Subnets.CheckRoute | infra/docker/qualification_network.py:149-157 | one route, with the exception for the owned bridge |
| Subnets.FreeIffAdmitted | infra/docker/qualification_network.py:134-159 | a candidate is free for the drill exactly when the guard's check admits it over the same readable inventory |
| Subnets.AdmitsExactly | infra/docker/qualification_network.py:134-160 | in terms of addresses: admitted exactly when every network but the owned one is readable and has no address of the block, and every route is the default one, leads elsewhere, or is the owned bridge's to addresses of the block only |
| Subnets.ValidSubnetExactly | infra/docker/qualification_network.py:24-36 | an accepted block is sixteen addresses on a boundary of sixteen within a private range of RFC 1918 |
| ContinuityGuard.StateDirectory.Guard | infra/docker/qualification_network.py:204-240 | one invocation: the new files, the result and the identity it saw are those of the decision, at any crash point |
| ContinuityGuard.StateDirectory.WriteOnce | infra/docker/qualification_network.py:177-190 | never overwrites; a crash leaves no file or a prefix of the bytes |
| ContinuityGuard.StateDirectory.Confirm | infra/docker/qualification_network.py:221-226 | with a receipt: success only for the very network it names |
| ContinuityGuard.StateDirectory.Certify | infra/docker/qualification_network.py:227-231 | the first look after the attempt makes the receipt |
| ContinuityGuard.StateDirectory.Announce | infra/docker/qualification_network.py:232-239 | before any attempt, the project must own nothing and the block be free |
| ContinuityGuard.FilesNeverChange | infra/docker/qualification_network.py:177-190 | over any run of invocations and crashes, no file is removed or changed once it exists |
| ContinuityGuard.OneFreshBefore | infra/docker/qualification_network.py:232-239 | a `before` without a receipt succeeds at most once per state directory, over any arguments |
| ContinuityGuard.OneIdentity | infra/docker/qualification_network.py:221-231 | all successes that name a network name the same one |
| ContinuityGuard.ReceiptForcesIdentity | infra/docker/qualification_network.py:221-226 | once there is a receipt, every success names a network |
| ContinuityGuard.TornFileBlocks | infra/docker/qualification_network.py:167-190 | a write of any of the three files that a crash cuts short makes every later check, before and after fail |
| ContinuityGuard.AttemptPins | infra/docker/qualification_network.py:216-219 | after a fresh `before`, only its own project and subnet can succeed |
| ContinuityGuard.IdentityFollowsBefore | infra/docker/qualification_network.py:227-231 | from an empty directory, a network is named only after a `before` of the same project and subnet |
| ContinuityGuard.ReceiptConfirms | infra/docker/qualification_network.py:221-231 | a receipt just made confirms the same network for every later action, over any inventory that still shows it as the project's own and the block clear |
| ContinuityGuard.CreationWorks | infra/docker/qualification_network.py:204-240 | the intended sequence works, over any inventories: `before` where the project owns nothing and the block is free, then `after` and any further actions where the project's one network is well made and the block is otherwise clear, all succeed, and all but the first see that network |
| GuardOutcomes.CheckExactly | infra/docker/qualification_network.py:204-240 | without a receipt `check` succeeds, and changes nothing, exactly when the arguments are valid, the files are the call's own, nothing was attempted, nothing belongs to the project, and the block is admitted |
| GuardOutcomes.BeforeExactly | infra/docker/qualification_network.py:204-240 | `before` succeeds under the same condition and leaves the attempt file |
| GuardOutcomes.AfterExactly | infra/docker/qualification_network.py:226-231 | without a receipt `after` succeeds exactly when an attempt was announced and the project's one network is well made and clear; it leaves that network's receipt |
| GuardOutcomes.KnownExactly | infra/docker/qualification_network.py:219-225 | with a receipt every action but `overlay` succeeds exactly when the receipt names the project's one network, which is there and clear; it changes nothing |
| GuardOutcomes.OverlayExactly | infra/docker/qualification_network.py:208-211 | `overlay` succeeds exactly when no other overlay is there, and leaves this one |
| GuardOutcomes.FailureChangesNothing | infra/docker/qualification_network.py:204-240 | without a crash an invocation that fails changes nothing |
| GuardOutcomes.AttemptPinsBlock | infra/docker/qualification_network.py:216-218 | after a fresh `before` only the very block it announced can succeed, because the spelling of a block determines it |
| ContinuityGuard.OwnedNetwork | infra/docker/qualification_network.py:115-131 | an identity exists exactly when one single network is the project's and it is well made; it is then that network's |
| ContinuityGuard.AttemptInjective | infra/docker/qualification_network.py:216-217 | the attempt text determines the project and the subnet |
| FlatJson.DecodeEncode | infra/docker/qualification_network.py:223-231 | what the guard writes, it reads back |
| FlatJson.TornIsNoObject | infra/docker/qualification_network.py:54-65 | a proper prefix of an object text is no object |
| ImportReadiness.Merge | infra/ops/import_readiness.py:171-228 | a snapshot is accepted exactly when it extends the evidence; the new evidence and counts with every latency between zero and the cutoff, or a failure code that names a real defect |
| ImportReadiness.GoodIsEarliest | infra/ops/import_readiness.py:200-205 | a job's good time is the earliest observation of the run where it was completed, ready and not past its cutoff |
| ImportReadiness.FoldIsFirstOnTime | infra/ops/import_readiness.py:200-205 | the incremental merge equals the declarative fold |
| ImportReadiness.GoodNeverChanges | infra/ops/import_readiness.py:200-205 | a good time never changes once set |
| ImportReadiness.UnknownForever | infra/ops/import_readiness.py:200-221 | a job not good strictly past its cutoff stays unknown forever |
| ImportReadiness.UnknownCanTurnGood | infra/ops/import_readiness.py:200-221 | at the cutoff itself it can still turn good: a concrete run |
| ImportReadiness.MergedIsValid | infra/ops/import_readiness.py:154-168 | merged evidence passes the validation of the next observation |
| ImportReadiness.TimesGrow | infra/ops/import_readiness.py:176-178 | observation times never go back within an accepted run |
| ImportReadiness.ValidateEvidence | infra/ops/import_readiness.py:154-168 | accepts exactly the sound evidence of this registration |
| ImportReadiness.ReadRows | infra/ops/import_readiness.py:180-193 | the rows fit exactly when equal in number, distinct, enrolled and sound; they then cover all jobs |
| ImportReadiness.Pigeonhole | infra/ops/import_readiness.py:180-193 | equally many rows without repeats cover all enrolled jobs |
| ImportReadiness.CountJobs | infra/ops/import_readiness.py:212-227 | good + open + unknown = denominator, bad = 0, observed + missing = denominator, and the latency extremes are attained bounds |
| ImportReadiness.FillGood | infra/ops/import_readiness.py:200-205 | the loop over the rows computes every job's new good time |
| ImportReadiness.Register | infra/ops/import_readiness.py:92-109 | a registration is accepted exactly with a cutoff in range, unique jobs and cutoffs within the calendar |
| ImportReadiness.EvidenceFile.Observe | infra/ops/import_readiness.py:262-274 | the file always holds the fold of the accepted snapshots; a refused one changes nothing |
| ReadinessOutcomes.EvidenceOfRun | infra/ops/import_readiness.py:206-211 | over any accepted run the evidence counts its observations, and keeps the first and the last time and the registration's digest |
| ReadinessOutcomes.GoodExactly | infra/ops/import_readiness.py:200-205 | a job's recorded time is that of the earliest observation whose rows show it completed and ready by its deadline, and there is none exactly when no observation did |
| ReadinessOutcomes.AcceptedExactly | infra/ops/import_readiness.py:171-200 | a snapshot is accepted exactly when it comes read-only from the registered database, not before the evidence it extends, with one fitting row per job, and at first with every job there before its deadline |
| ReadinessOutcomes.CountedExactly | infra/ops/import_readiness.py:212-227 | good, open and unknown are the jobs with a time, before their deadline without one, and past it without one; observed are those with both rows |
| ReadinessOutcomes.LatenciesExactly | infra/ops/import_readiness.py:212-227 | the least and the greatest latency of the good jobs, and none exactly when no job is good |
| SseObservation.ChatStreamObservation.FeedLine | tools/capacity/run.py:370-409 | after every line the fields are the batch result of all lines fed so far |
| SseObservation.ChatStreamObservation.Deliver | tools/capacity/run.py:382-409 | what one delimited frame does |
| SseObservation.UndelimitedHasNoEffect | tools/capacity/run.py:374-382 | a frame without its blank line has no effect |
| SseObservation.TerminalIsFinal | tools/capacity/run.py:371-372 | nothing changes after the terminal frame |
| SseObservation.ContentBeforeAck | tools/capacity/run.py:398-409 | with times that never go back, first content is never later than the commit acknowledgement |
| SseObservation.AckIsFirstEnd | tools/capacity/run.py:384-409 | an acknowledgement is recorded exactly when the first ending frame is a valid done frame |
| SseObservation.SplitIsLossless | tools/capacity/run.py:373-383 | cutting the input into frames loses nothing |
| SseObservation.ErrorNeedsNoData | tools/capacity/run.py:384-386 | an error frame without data ends the observation |
| SseOutcomes.MeansExactly | tools/capacity/run.py:382-409 | what a frame means: an error event ends; a delta counts with content; a done event counts exactly when committed under the own turn with a proper replay flag |
| SseOutcomes.ObservedExactly | tools/capacity/run.py:370-409 | the whole observation by its first final frame |
| SseOutcomes.FieldExactly | tools/capacity/run.py:375-376 | a field name ends at the first colon, and its value loses one leading blank |
| SseOutcomes.PayloadGrows | tools/capacity/run.py:379-383 | the payload is that of every data field, in order, joined by line feeds |
| NearestRank.RankOfResult | tools/capacity/run.py:156-162 | the result is a sample with at least p*n samples at most it and fewer than p*n below it; it fails exactly on no samples or p outside (0, 1] |
| NearestRank.RankIsUnique | tools/capacity/run.py:156-162 | those two counts determine the value |
| NearestRank.OrderDoesNotMatter | tools/capacity/run.py:161-162 | the input order does not matter |

## Left out

- HTTP, TLS, JSON encoding of requests and replies, and the providers: parsed outcomes are inputs, error types included.
- Futures that a caller cancels during `chat` or during stream setup: nothing records a terminal status there. The balance laws are about completed requests and dropped streams.
- Embeddings: the metrics and error typing of `embed`, and `reserve_embedding`, which follows the chat reservation with an output limit of zero.
- SharedOwner: attempt ids are (request, round) pairs, so that fresh UUIDs differ holds by construction; the owner's 64-bit additions are exact, because the real owner is not shown.
- ClientSpend.ClientSpendNeverExceedsCharge: takes from the provider that it reports its usage truly and stays within the grant; the client can check neither.
- LlmTypes: the providers' own reply formats; what reaches the client is a usage that passed `Usage::new`, or an error.
- BudgetControl: an acknowledgement with the right binding, id and quote is taken to come from an owner that charged it.
- BudgetControl: the embedding part of a profile, the other compiled profiles and the environment parsing.
- Admission: the waiting order of the semaphore, and that a waiting budgeted request may keep part of its permits while it waits.
- Telemetry: histograms, quantiles, the response-model and first-token counters; counters are exact naturals, without the rounding of 64-bit floats.
- BudgetReport: the error-rate, latency, ceiling and sample-size thresholds, the presence of the token series, and the label checks other than statuses and reasons.
- GenerationDigest: SHA-256 itself, and of the metrics parser only what every accepted file must look like (encoding, lines and sample shape).
- ChatClient: wrapping of errors in context and logging; the admission itself enters as the flag `admitted`, and `Admission` and `Exclusion` say what it means.
- Subnets: parsing and printing of address texts; a text enters as the block it denotes, with a flag for the library's own spelling. IPv6 blocks are skipped, as in the code.
- ContinuityGuard: the state directory's own checks (external, owned, mode 0700), reading the inventory from Docker and `ip`, and changes to the files by anything but the guard. Creation modes are not masked.
- ContinuityGuard.StateDirectory.WriteOnce: a crash leaves a prefix of the bytes or no file; other damage a file system may do to unsynced data is not modelled.
- FlatJson.Decode: reads objects whose members are strings without escapes; no other value is ever written by the guard.
- ImportReadiness: the query, file permissions and locking, timestamp syntax, evidence files that are no evidence records, and the identity checks of a registration (version, source commit, profile).
- SseObservation: decoding a payload is a parameter, so resource limits of the JSON parser are not modelled.
- NearestRank: the percentile is an exact ratio, so the rounding of a floating-point product before the ceiling is not modelled.
- The narrative protocols, novel parsing, world state, gateway and desktop code: the deciding parts are not in this model.
- `infra/docker/diagnostic_budget.py`: process handling, and a smaller copy of the guard's write-once shape.
