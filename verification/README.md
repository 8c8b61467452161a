# Sentinel-Flow: a verified model of the in-memory pipeline

Sentinel-Flow takes tracking events over HTTP, screens them for fraud and syncs the clean ones
to a CRM. In its in-memory mode everything runs in one process: ingest handlers publish to a
bounded fan-out broker, a fraud worker screens what it receives and publishes it again, a
marketing worker syncs through a retrying client behind a circuit breaker, and purge, export
and dashboard requests run beside them. This project models that mode in Dafny and proves what
it guarantees, in every interleaving and for every input, and exactly when the guarantees that
one might expect fail.

    dafny verify dfyconfig.toml

## How it is built

**Breaker and client.** `CircuitBreakers` has the breaker as an object and as a value, and shows
that its state is a function of the log of calls, from however many goroutines. `ResilientClients`
has `Do` as a retry loop over a script of what the environment does (replies, cut waits, jitter,
clock), proves its contract and the backoff arithmetic, and shows exactly which retries go out on
an open breaker. `Outages` adds up the requests of whole sequences of calls during an outage.

**Fraud rules.** `FraudRules` has the three rules over their shared, pruned memory. `FraudRuns`
relates that memory to the full log of a run: the limiter counts what a naive count over the
whole log would count, and the geo rule's single remembered sighting says something about all
pairs of sightings. `Reasons` and `Screening` cover the score, the flag and the reason string.
`FraudServices` is the worker: scoring loop, save, count, publish, in channel order.

**Broker.** `Broker` is the object, one call at a time. `Bus` is the same broker as an
interleaving state machine in which every channel send, drop, receive, close and lock operation
is a step of its own; its invariant is preserved by every step. `BusRuns` draws the conclusions
over whole runs. `BrokerRuns` shows that an uninterrupted call of the object is a run of the
machine with the same effect, so the two describe one broker. `Crossings` says which orders of
delivery concurrent publishers can bring about. A Go `select` is modelled with its
choice: when the channel and the context are both ready either branch may be taken, and the
`default` branch only when neither is.

**Whole system.** `Pipeline` puts ingest, broker, fraud worker, marketing worker, purges, exports
and shutdown into one state machine: every access to shared state (channel operation, save,
counter increment, publish, sync, delete) is a separate step, and a run is any sequence of
enabled steps. The verdict of the rules and the outcome of a sync are arbitrary there, so the
results hold for every rule set and every CRM. `PipelineInv` is the invariant and its
preservation. `Ledger` says what the actions of a run add up to, counter by counter, and
`Handlers` what can always be finished. `PipelineRuns`, `PipelineStores`, `PipelineMeters`,
`Resurrections`, `ContactReturns`, `Purges`, `Shutdowns`, `CrmDrains`, `Overtaking` and
`TornDashboards` are the further theorems.

**The services around it.** `Repositories`, `MarketingServices`, `IngestServers`, `Telemetry` and
`Consent` have the remaining objects, each proved against what its operations leave behind.

Time is in integer nanoseconds, scores are in exact tenths, and identifiers, addresses and
payloads are what the JSON decoder delivers. Clock readings, jitter, HTTP replies, context
cancellation and the choices of `select` are parameters. SHA-256 and lower-casing are
function-valued parameters.

## What turned out false, and what holds instead

- *An open breaker lets nothing through.* Retries do not ask the breaker. `SentWhileOpen` says
  exactly which attempts go out on an open breaker; `RetryBypassesTheOpenBreaker` is the smallest
  case, and goes from Open straight to Closed. `OutageLoadBound` is the bound that does hold.
- *Half-open admits one probe.* `TwoProbesAdmitted`; `ProbeCount` says how many it admits: every
  request from the first one after the cooldown on, until an outcome is recorded.
- *Verdicts never outnumber what was received.* `VerdictsCanOvertakeIngest` is a run where they
  do; `VerdictsWithinIngestExactly` says when they do not, `QuietCountersAgree` how the counters
  agree once the handlers are done.
- *A purged user stays away.* `PurgeIsFinalExactlyWhenClear`: if and only if, when the purge is
  asked for, nothing of the user is on its way into a store; `GoneExactlyWhenClear` says the same
  of every reachable state in which the user is in neither store. The repository's README (line
  114) promises it without any condition.
- *The CRM rate is a percentage.* `TornRateIsUnbounded`: there are runs that show n times 100%,
  for every n. `DashboardOverARun` has the exact condition over a run, in terms of what the
  system was doing at the load of the attempts.
- *A request answered 500 was not delivered.* `FailedIngestMayDeliver`, and
  `FailedIngestDeliversExactly`.
- *All subscribers see one order.* Two calls can be delivered crosswise if and only if they are
  both running: `CrossExactlyWhenBothRun`, and from a fresh broker `SubscribersMayDisagree`.
  `Delivery` has the order that subscribers do see.
- *A CRM that rejects everything trips the breaker.* Any status below 500 is a success for the
  breaker, and any but 200 a failure for the contact: `RefusingCrmNeverTripsTheBreaker`.

The comment on `AnonymizeIP` (pkg/domain/ingest/consent.go:12) says that the last group of an
IPv6 address is masked; the code masks the last eight bytes, and the model follows the code.

## Model

| member | source | states |
|---|---|---|
| CircuitBreakers.BreakerIsItsLog | pkg/resilience/circuit_breaker.go:59-111 | for every log of calls: `failures` is the run of failures since the last success, the breaker is Closed iff that run is below the threshold, HalfOpen iff it is not and some request was let through since the last recorded outcome, and the answer to the next request can be read off the log |
| CircuitBreakers.HalfOpenTestIsRedundant | pkg/resilience/circuit_breaker.go:102-102 | the HalfOpen half of the trip test never decides: counting alone trips at exactly the same failures |
| CircuitBreakers.CallbacksFormAWalk | pkg/resilience/circuit_breaker.go:65-109 | the callbacks start from Closed, each leaves the state the previous one entered, the last one entered is the current state, and only five of the nine pairs occur |
| CircuitBreakers.ProbesFollowTrips | pkg/resilience/circuit_breaker.go:63-71 | no callback repeats a state, and every entry to HalfOpen directly follows an entry to Open |
| CircuitBreakers.ProbesFromTheFirstOn | pkg/resilience/circuit_breaker.go:63-74 | a tripped breaker that records no further outcome lets a request through iff an earlier one was made after the cooldown or this one is |
| CircuitBreakers.ProbeCount | pkg/resilience/circuit_breaker.go:63-74 | of the requests made since the last record exactly those from the first one after the cooldown on are let through, so at most one iff no request follows that one |
| CircuitBreakers.TwoProbesAdmitted | pkg/resilience/circuit_breaker.go:63-74 | a second request is let through while the first probe is out |
| CircuitBreakers.CircuitBreaker.Allow | pkg/resilience/circuit_breaker.go:59-75 | grants exactly what the log of earlier calls grants, and moves only an open, cooled-down breaker |
| CircuitBreakers.CircuitBreaker.RecordSuccess | pkg/resilience/circuit_breaker.go:78-92 | keeps the object equal to the replay of its log, extended by a success |
| CircuitBreakers.CircuitBreaker.RecordFailure | pkg/resilience/circuit_breaker.go:95-111 | keeps the object equal to the replay of its log, extended by a failure |
| ResilientClients.SoundAfterAnyLog | pkg/resilience/circuit_breaker.go:59-111 | the invariant the call contract needs (Closed iff below the threshold) holds of a breaker after any calls |
| ResilientClients.DoContract | pkg/resilience/resilient_client.go:32-78 | a call is blocked iff the breaker is open and hot, and then changes nothing; success leaves Closed with no failures; failure adds one failure per iteration entered, a cut wait included, and leaves Open exactly when that reaches the threshold; at most maxRetries+1 iterations; HalfOpen is never left behind |
| ResilientClients.EndsExactly | pkg/resilience/resilient_client.go:40-77 | what iteration k comes to, for every k: an admitted call delivers code c there iff k is within the retries, reply k is a status c below 500, no earlier reply is a status below 500 and no wait up to k is cut; it is interrupted there iff it gets that far and the wait before k is cut; and it is exhausted iff no reply is below 500 and no wait is cut |
| ResilientClients.FailuresAddUp | pkg/resilience/resilient_client.go:40-72 | the breaker after any number of failed iterations, in closed form |
| ResilientClients.SentWhileOpen | pkg/resilience/resilient_client.go:33-72 | an attempt goes out on an open breaker iff it goes out at all (its wait is not cut), is a retry, and the failures counted by then reach the threshold |
| ResilientClients.RetryBypassesTheOpenBreaker | pkg/resilience/resilient_client.go:54-68 | a concrete call whose retry goes out on the breaker it opened and closes it without a HalfOpen state |
| ResilientClients.BackoffClosedForm | pkg/resilience/resilient_client.go:42-51 | after k waits the requested delays total base·(2^k−1) and the jitters, which come to at most 99k ms |
| ResilientClients.DelaysFitExactlyWhenTheLongestDoes | pkg/resilience/resilient_client.go:43-44 | the 64-bit delay arithmetic is exact for every wait and jitter iff base·2^(maxRetries−1) + 99 ms is below 2^63 ns |
| ResilientClients.WrapIsCongruent | pkg/resilience/resilient_client.go:43-44 | 64-bit wrap-around changes a delay by a multiple of 2^64 and leaves it within the range of the type |
| ResilientClients.ResilientClient.Do | pkg/resilience/resilient_client.go:32-78 | the retry loop on the live breaker: outcome, breaker and every requested delay are those of the specified call, on every script |
| Outages.OutageLoadBound | pkg/resilience/resilient_client.go:32-78 | while no attempt succeeds, the attempts sent by any instant are at most what is left of the threshold + maxRetries, plus maxRetries+1 per whole cooldown since the last failure of the call that tripped the breaker |
| Outages.SentByCounts | pkg/resilience/resilient_client.go:40-63 | the attempts that the bound speaks of are counted one by one: the pairs of a call and an iteration whose request went out by that instant |
| Outages.UntrippedLoadBound | pkg/resilience/resilient_client.go:40-72 | before the trip fewer attempts than the threshold were sent |
| Outages.ProbesAreACooldownApart | pkg/resilience/circuit_breaker.go:63-72 | after the trip a call is admitted iff it starts more than a cooldown after the last failure recorded before it |
| Outages.AfterTheTrip | pkg/resilience/circuit_breaker.go:63-72 | after n calls admitted since the trip the last failure is at least n cooldowns after the trip's, and the attempts sent are at most maxRetries+1 for each of them that has had its cooldown |
| Outages.BoundIsMet | pkg/resilience/resilient_client.go:32-78 | an outage that reaches the bound |
| Consent.AnonymizeIP | pkg/domain/ingest/consent.go:13-30 | the in-place byte masking returns the masked address of whatever family was parsed, 0.0.0.0 for unreadable text |
| Consent.MaskKeepsExactlyTheNetwork | pkg/domain/ingest/consent.go:13-30 | two addresses are masked alike iff they share family and network (/24 or /64); masking twice is masking once |
| Consent.ConsentByType | pkg/domain/ingest/consent.go:32-40 | consent is demanded of clicks and item views and of nothing else |
| Consent.MappedBytesAreIPv4 | pkg/domain/ingest/consent.go:13-30 | sixteen parsed bytes are an IPv4 address iff they begin with the mapping prefix, and then the one in the last four bytes |
| Consent.MaskByBytes | pkg/domain/ingest/consent.go:13-30 | which bytes are kept, three of four or eight of sixteen, and that the others are zero |
| FraudRules.RuleState.EvaluateRate | pkg/domain/fraud/rules.go:60-80 | the pruning loop leaves exactly the live stamps and the new one, and flags on their number |
| FraudRules.RuleState.EvaluateGeo | pkg/domain/fraud/rules.go:86-112 | what it flags and what it remembers, for missing, non-string and empty countries too; a flagged sighting is not remembered |
| FraudRules.BotFindingReadsTheAgent | pkg/domain/fraud/rules.go:43-54 | for every text: the agent is missing iff its lower-casing is empty, a bot iff some slice of it is one of the six signatures, and unsuspicious otherwise |
| FraudRuns.HistoryIsTheRecentLog | pkg/domain/fraud/rules.go:64-74 | over any run with a monotone clock the pruned history of an address is its full log filtered to stamps under 5 s old at its last evaluation |
| FraudRuns.HistoryIsASuffix | pkg/domain/fraud/rules.go:67-74 | and that is a contiguous suffix of the full log |
| FraudRuns.CountIsNaiveCount | pkg/domain/fraud/rules.go:67-76 | counting the pruned log counts the evaluations of the run that are in the window |
| FraudRuns.RateFiresOnTheNaiveCount | pkg/domain/fraud/rules.go:64-79 | the limiter fires iff more than ten evaluations of the address are under 5 s old, in the whole run |
| FraudRuns.AtMostTenPerWindow | pkg/domain/fraud/rules.go:76-79 | no set of unflagged evaluations of an address within 5 s has more than ten members, wherever the window starts |
| FraudRuns.ThroughputBound | pkg/domain/fraud/rules.go:67-79 | at most 10·(⌊T/5 s⌋+1) unflagged evaluations of an address in a stretch of length T |
| FraudRuns.MemoryIsTheLastAccepted | pkg/domain/fraud/rules.go:100-110 | the remembered sighting of a user is the last accepted one |
| FraudRuns.GeoAgainstTheLastAccepted | pkg/domain/fraud/rules.go:100-104 | a sighting is flagged iff the last accepted one of the user is in another country and under 10 s old |
| FraudRuns.GeoSeparation | pkg/domain/fraud/rules.go:99-111 | any two accepted sightings of a user in different countries, adjacent or not, are at least 10 s apart |
| FraudRuns.AnomaliesFollowAnAcceptance | pkg/domain/fraud/rules.go:100-104 | every anomaly lies within 10 s after an acceptance with no other acceptance of the user in between |
| Reasons.SplitUndoesJoin | pkg/domain/fraud/service.go:81-81 | splitting a joined list of separator-free reasons gives the list back |
| Screening.DefaultRules | pkg/domain/fraud/service.go:31-35 | the loop over the three default rules, as one step of the runs above |
| Screening.FraudExactlyWhenARuleDecides | pkg/domain/fraud/service.go:61-88 | for every event and memory the flag holds iff the capped score is at least 0.5 iff a slice of the agent is one of the six signatures, the limiter or the geo rule fired; the score never exceeds 1 |
| Screening.ScoresAddUp | pkg/domain/fraud/service.go:61-79 | the score is 0.4 for a missing agent or 0.8 for a bot, plus 0.7 for a burst, plus 0.9 for a jump, and 1 at most |
| Screening.ReasonsInFull | pkg/domain/fraud/service.go:72-88 | the reason is the texts of what fired, joined in the order of the rules |
| Screening.BrokenRulesArePassedOver | pkg/domain/fraud/service.go:64-70 | a rule that returns an error, wherever it stands in the list, changes neither verdict nor memory |
| Screening.ReasonTellsTheVerdict | pkg/domain/fraud/service.go:76-88 | the stored reason string determines the rules that fired, in order, and from them score and flag |
| Screening.LegitimateThroughput | pkg/domain/fraud/service.go:64-76 | the limiter's bound for legitimate verdicts |
| Screening.LegitimateTravel | pkg/domain/fraud/service.go:64-76 | no two legitimate events of a user name different countries within 10 s |
| Screening.LegitimatePayloadsTravel | pkg/domain/fraud/rules.go:86-111 | the same in terms of the country entries of two payloads |
| FraudServices.FraudService.Judge | pkg/domain/fraud/service.go:60-88 | the scoring loop over any rule list, failing rules skipped, yields the specified verdict and memory |
| FraudServices.FraudService.ScreenEvent | pkg/domain/fraud/service.go:60-104 | one verdict saved, one counter moved, and one publication to an open broker |
| FraudServices.FraudService.Work | pkg/domain/fraud/service.go:47-57 | the loop takes the front of its queue in order, all of it unless the context is done, and ends as the channel and the context dictate |
| FraudServices.FraudService.Start | pkg/domain/fraud/service.go:39-58 | a closed broker refuses the subscription and nothing happens |
| FraudServices.WorkSavesAndCounts | pkg/domain/fraud/service.go:90-103 | after any number of events: each saved once, in order, each in exactly the counter its flag names, nothing handed on by a closed broker |
| FraudServices.OneVerdictGoesDownstream | pkg/domain/fraud/service.go:101-103 | on an open broker the next verdict is appended to a subscriber's channel iff no select up to it takes ctx.Done and the channel has room |
| FraudServices.VerdictsGoDownstream | pkg/domain/fraud/service.go:47-104 | after any number of events each subscriber of an open broker holds what it held and then, in order, every verdict that reached it while there was room |
| FraudServices.VerdictsFillTheChannel | pkg/domain/fraud/service.go:47-104 | under a context that is never done, these are the first verdicts, as many as there was room for |
| FraudServices.VerdictsAreTheRuns | pkg/domain/fraud/service.go:60-76 | the worker's verdicts are those of the run its clock makes of the events |
| FraudServices.WorkerThroughput | pkg/domain/fraud/service.go:47-104 | at most ten events of one address per 5 s window begun are counted legitimate by the worker |
| Broker.FanOut | pkg/broker/broker.go:50-60 | the publishing loop reaches the subscribers before the first select that takes ctx.Done; each of those gets the event or, when full, loses it |
| Broker.SelectChoices | pkg/broker/broker.go:51-58 | a select may give up iff the context is done, and may go on iff there is room or the context is not done |
| Broker.FanOutIsDetermined | pkg/broker/broker.go:50-60 | what the selects see fixes how far a publication gets and what it leaves behind |
| Broker.InMemoryBroker.PublishRaw | pkg/broker/broker.go:42-61 | refused iff closed; otherwise exactly the reached channels change, and accepted iff all were reached |
| Broker.InMemoryBroker.PublishScreened | pkg/broker/broker.go:78-96 | the same for screened events |
| Broker.InMemoryBroker.SubscribeRaw | pkg/broker/broker.go:64-75 | refused iff closed; otherwise one new, empty, open channel at the end |
| Broker.InMemoryBroker.SubscribeScreened | pkg/broker/broker.go:99-110 | the same for screened events |
| Broker.InMemoryBroker.Close | pkg/broker/broker.go:113-129 | every channel is closed once, with its queue kept; closing again does nothing |
| BrokerRuns.PublishRawIsARun | pkg/broker/broker.go:42-61 | the object's publication is a run of the interleaving machine with the same channels and the same answer |
| BrokerRuns.PublishScreenedIsARun | pkg/broker/broker.go:78-96 | the same for screened events |
| BrokerRuns.CloseIsARun | pkg/broker/broker.go:113-129 | and so is the object's Close |
| Bus.Step | pkg/broker/broker.go:42-129 | every step of publishers, subscribers, receivers and the closer keeps the broker invariant |
| BusRuns.InvAlways | pkg/broker/broker.go:42-129 | the invariant holds throughout every run |
| BusRuns.NewBusIsSound | pkg/broker/broker.go:30-39 | a new broker satisfies the invariant, with a buffer of 10000 unless a positive size is given |
| BusRuns.NeverPanics | pkg/broker/broker.go:113-128 | in no run is an event sent on a closed channel or a channel closed twice |
| BusRuns.ClosedForGood | pkg/broker/broker.go:46-48 | after Close nothing is appended to any queue, every new call is refused, and channels only drain |
| BusRuns.Delivery | pkg/broker/broker.go:50-59 | a subscriber gets the calls that passed it and were not dropped, each once, in the order offered, never one ahead of a call that had returned before it began; offered = received + queued + dropped; the buffer bound holds |
| BusRuns.RealTimeOrder | pkg/broker/broker.go:42-61 | over every run and on both topics: if one call has returned before another begins, no subscriber ever has the later one ahead of the earlier one |
| BusRuns.DropsOnlyWhenFull | pkg/broker/broker.go:51-58 | over every step, a subscriber loses an event iff one is offered to it on a full buffer |
| BusRuns.FirstBufferIsNeverDropped | pkg/broker/broker.go:72-72 | nothing is lost before a whole buffer has been offered |
| BusRuns.OfferedToAPrefix | pkg/broker/broker.go:50-60 | a cancelled call was offered to a proper prefix of the subscribers, an accepted one to all, a refused one to none |
| Crossings.CrossExactlyWhenBothRun | pkg/broker/broker.go:43-60 | in every sound state, two raw calls that have yet to reach two subscribers can be delivered to them in opposite orders iff both are running |
| Crossings.CrossExactlyWhenBothRunScreened | pkg/broker/broker.go:79-95 | the same for screened events |
| Crossings.SubscribersMayDisagree | pkg/broker/broker.go:43-60 | so from a fresh broker of any buffer size, two publishers of any two events can leave two subscribers with opposite orders |
| Telemetry.MemoryTelemetryTracker.IncrementMetric | pkg/domain/analytics/memory.go:24-39 | the named counter moves by delta, all others stay, and an unknown name moves none |
| Telemetry.OnlyTheNamedCounterMoves | pkg/domain/analytics/memory.go:24-39 | that determines the new counters |
| Telemetry.SnapshotIsBracketed | pkg/domain/analytics/memory.go:47-55 | however six loads are torn by concurrent increments, each field lies between its values at the start and the end |
| Telemetry.FraudPercentInRange | pkg/domain/analytics/service.go:39-43 | the fraud percentage is always in [0, 100] |
| Telemetry.PercentagesAreShares | pkg/domain/analytics/service.go:37-48 | the two percentages are the shares of fraudulent verdicts and of successful attempts, and 0 when there are none |
| Telemetry.CrmRateInRangeExactly | pkg/domain/analytics/service.go:45-48 | the rate of any snapshot of growing counters is at most 100 iff its successes are within its attempts, each as loaded, or nothing was attempted; DashboardOverARun says what that means for the system |
| Telemetry.CrmRateInRangeUntorn | pkg/domain/analytics/service.go:45-48 | in particular when no success is counted between them |
| Telemetry.TornRateExceedsOneHundred | pkg/domain/analytics/memory.go:49-55 | a torn snapshot that reports 200 % |
| TornDashboards.TornRateIsUnbounded | pkg/domain/analytics/memory.go:49-55 | for every buffer size and every n a run of the whole system from its start, and a dashboard served during it that reports n times 100 % |
| PipelineInv.Step | pkg/domain/fraud/service.go:39-104 | every step of every component keeps the whole-system invariant |
| PipelineInv.InvAlways | cmd/monolith/main.go:74-107 | and so does every run |
| PipelineRuns.ReachableIsSound | cmd/monolith/main.go:54-107 | every state reachable from the start satisfies the invariant |
| Ledger.ReceivedIsWhatHandlersCounted | pkg/domain/ingest/handler.go:54-74 | over every run from the start the ingest counter is the number of rejections and of counting handlers in it, and the calls counted are exactly those named by the latter, once each |
| Ledger.CountersAreWhatTheWorkersDid | pkg/domain/marketing/service.go:93-119 | the attempts are those made, successes and failures the syncs that went well and badly and have been settled, verdicts one for each tally, and the worker's log holds the verdicts given |
| Ledger.RequestsAreThoseMade | pkg/domain/marketing/handlers.go:22-101 | purges and exports are those asked for, in order, for those users; the context is cancelled iff somebody cancelled it |
| Ledger.FiledAsSynced | pkg/domain/marketing/service.go:93-119 | a contact is filed with the outcome of its own sync and the stamp of its own event |
| Handlers.AcceptedCanBeCounted | pkg/domain/ingest/handler.go:67-74 | an accepted event that has not been counted can be, which takes just it off the uncounted ones |
| Handlers.QuietIsReachable | pkg/domain/ingest/handler.go:67-74 | from every sound state the handlers can finish with nothing new coming in: no publication runs, and every event accepted is counted |
| Handlers.QuietWithAnEvent | pkg/domain/ingest/handler.go:67-74 | a run from the start to such a state, with an event accepted and counted |
| PipelineRuns.Conservation | pkg/domain/ingest/handler.go:54-74 | every accepted raw event is missed by a late subscription, dropped, queued, in the worker's hand or in exactly one verdict counter, with the publications still running or cancelled further on accounting for the difference; the ingest counter is the rejections plus the accepted publications counted |
| PipelineRuns.VerdictsAheadOfIngest | pkg/domain/fraud/service.go:94-99 | the verdict counters exceed the ingest counter by at most the handlers between publish and increment |
| PipelineRuns.VerdictsWithinIngestExactly | pkg/domain/ingest/handler.go:67-74 | the exact condition under which they do not exceed it |
| PipelineRuns.SoleSubscriberSeesNoCancelledCall | pkg/broker/broker.go:50-60 | with one raw subscriber a cancelled publication has delivered nothing |
| PipelineRuns.QuietCountersAgree | pkg/domain/ingest/handler.go:67-74 | with one raw subscriber, once the handlers have finished, verdicts + in hand + queued + dropped + missed by a late subscription = received − rejected |
| Overtaking.VerdictsCanOvertakeIngest | pkg/domain/ingest/handler.go:67-74 | a reachable state with one legitimate verdict and nothing received |
| PipelineRuns.StoredEventsAreClean | pkg/domain/ingest/handler.go:42-64 | whatever is stored for a user was ingested complete, with consent where needed, masked, and under that user |
| PipelineRuns.UnpurgedUsersLoseNothing | pkg/domain/fraud/memory.go:22-27 | a user nobody purged has every event the worker saved, once, in order |
| PipelineRuns.StoredAfterThePurge | pkg/domain/marketing/handlers.go:34-45 | after a purge's delete steps, every stored event and contact of the user was stored later |
| Ledger.StoredByLaterSteps | pkg/domain/marketing/handlers.go:34-45 | over every run from the start: if step n wipes a purge's events, whatever is stored for its user at the end was saved by a later step of the run, and if step n is its last, a contact stored at the end was filed by a later step |
| PipelineRuns.CrmSafety | pkg/domain/marketing/service.go:61-114 | only legitimate signup, checkout and cart events are ever attempted, each after its verdict was counted; attempts = successes + failures + the one in hand; attempts never exceed legitimate verdicts |
| PipelineRuns.StoredContacts | pkg/domain/marketing/service.go:73-119 | a stored contact is never pending, belongs to its user, and was built from an attempted event of that user |
| PipelineStores.StoresAreTheirLogs | pkg/domain/marketing/memory.go:22-44 | over every run, both stores are the fold of the run's saves and deletions in the order they happened |
| PipelineStores.ExportsShowTheSavedEvents | pkg/domain/marketing/handlers.go:75-76 | from the step at which an export reads the events on, in every run, it shows exactly the user's events saved and not wiped before that step, in order |
| PipelineStores.ExportsShowTheFiledContact | pkg/domain/marketing/handlers.go:83-89 | and from the step at which it reads the contact on, the contact last filed and not dropped before that step |
| PipelineStores.ExportsCanBeAnswered | pkg/domain/marketing/handlers.go:69-89 | in every state an export can be asked for and answered with what the stores hold |
| PipelineStores.OnlyLaterSavesSurvive | pkg/domain/fraud/memory.go:41-52 | after a purge's wipe what is stored for the user is what later steps saved |
| PipelineStores.OnlyLaterFilingsSurvive | pkg/domain/marketing/memory.go:39-44 | after its last step the contact stored for the user, if any, was filed by a later step |
| PipelineMeters.MetersGrow | pkg/domain/analytics/memory.go:24-39 | along every run the counters never go back, successes never exceed attempts, attempts never legitimate verdicts |
| PipelineMeters.DashboardOverARun | pkg/domain/analytics/service.go:37-48 | a dashboard served during any stretch of any run shows a fraud percentage in range, and a CRM rate in range iff nothing had been attempted at the load of the attempts, or no more successes are counted between the two loads than there were failures and syncs under way at the first |
| Resurrections.ClearMeansGone | pkg/domain/fraud/service.go:47-92 | with nothing on its way into the event store it stays empty for the user |
| Resurrections.ReturnsExactlyWhenInFlight | pkg/domain/fraud/service.go:47-92 | events of a wiped user can reappear without new ingestion iff a running publication, a queued event or one about to be saved is the user's |
| ContactReturns.ClearMeansNoContact | pkg/domain/marketing/service.go:61-118 | with nothing on its way into the contact store no contact of the user is filed again |
| ContactReturns.FiledExactlyWhenInFlight | pkg/domain/marketing/service.go:61-118 | a contact can be filed for a user without new ingestion iff a sync is in hand, a screened event is queued or about to reach the marketing worker, or, while the broker is open, an event that triggers a workflow is still to be published or taken by the fraud worker |
| ContactReturns.GoneExactlyWhenClear | pkg/domain/marketing/handlers.go:34-45 | in every reachable state: a user in neither store is gone for good, whatever else runs, iff both stores are clear |
| ContactReturns.OneSendAlways | pkg/domain/fraud/service.go:101-103 | at most one screened publication runs at a time, and only while the fraud worker is publishing |
| Purges.NothingInFlightIsClear | pkg/domain/marketing/handlers.go:34-45 | it is enough that no event of the user is in an ingest handler, a channel or a worker's hand |
| Purges.PurgeHolds | pkg/domain/marketing/handlers.go:34-45 | what a purge has erased stays erased, in every continuation that ingests nothing for the user, while nothing of the user is on its way into a store |
| Purges.ExportsFindNothing | pkg/domain/marketing/handlers.go:75-89 | and exports asked for after the purge find no event and no contact |
| Purges.PurgeIsFinal | pkg/domain/marketing/handlers.go:34-89 | the two together, from the request for the purge on |
| Purges.PurgeIsFinalExactlyWhenClear | pkg/domain/marketing/handlers.go:34-45 | a purge that has been asked for is final, in every continuation that ingests nothing for its user, iff nothing of the user is on its way into either store at that moment |
| Purges.ReachablePurgesAreFinalExactlyWhenClear | cmd/monolith/main.go:54-115 | so in every state that the system can reach |
| Shutdowns.DrainIsExact | pkg/domain/fraud/service.go:47-57 | after Close, without cancellation, the worker takes exactly the queued backlog in order; ended, it has screened, saved and counted all of it, and none of it went downstream |
| Shutdowns.StepsPay | pkg/domain/fraud/service.go:47-57 | after Close every step of the worker, whatever its verdict, and of the goroutine in Close takes at least one off what is left to do, and no step of anybody else adds to it |
| Shutdowns.DrainTerminates | pkg/domain/fraud/service.go:47-57 | from a closed broker, in every run and under every verdict, those steps number at most what was left to do; while the worker has not ended they number fewer and another one is enabled, so the drain ends |
| Shutdowns.LateWorkersEnd | pkg/domain/fraud/service.go:39-45 | a worker, of either kind, that has no subscription when the broker closes ends with its first step and in no run takes or syncs anything |
| CrmDrains.CrmDrainStep | pkg/domain/marketing/service.go:57-70 | on a closed broker every step of the marketing worker and of the goroutine in Close takes at least one off what is left to do, and no step of anybody else adds to it |
| CrmDrains.CrmDrainIsExact | pkg/domain/marketing/service.go:57-70 | from a closed broker, in every run: those steps are bounded, and one is enabled until the marketing worker has ended; ended without cancellation it has taken all its channel held and attempted exactly the legitimate signup, checkout and cart events in it |
| Repositories.OnlyLaterSavesRemain | pkg/domain/fraud/memory.go:41-45 | what is stored for a user after a wipe was saved after it |
| Repositories.OnlyLaterFilingsRemain | pkg/domain/marketing/memory.go:39-44 | what is filed for a user after a drop was filed after it |
| Repositories.UsersAreIndependent | pkg/domain/fraud/memory.go:22-45 | a user's stored events depend on that user's saves and wipes alone |
| Repositories.MemoryFraudRepository.SaveEvent | pkg/domain/fraud/memory.go:22-27 | keeps the store equal to the fold of its log |
| Repositories.MemoryFraudRepository.GetEventsByUserID | pkg/domain/fraud/memory.go:29-39 | reads the user's events saved since the last wipe, none for an unknown user |
| Repositories.MemoryFraudRepository.DeleteUserEvents | pkg/domain/fraud/memory.go:41-52 | wipes the user, passes the deletion on when there is a callback, and counts one more exactly then |
| Repositories.MemoryMarketingRepository.SaveCRMContact | pkg/domain/marketing/memory.go:22-27 | keeps the contacts equal to the fold of their log |
| Repositories.MemoryMarketingRepository.GetCRMContact | pkg/domain/marketing/memory.go:29-37 | reads the contact last filed and not dropped since, or reports it missing |
| Repositories.MemoryMarketingRepository.DeleteCRMContact | pkg/domain/marketing/memory.go:39-44 | drops one user's contact |
| Repositories.MemoryMarketingRepository.GetPrivacyLogsByUserID | pkg/domain/marketing/memory.go:53-63 | reads one identifier's audit log, empty for an unknown one |
| Repositories.MemoryMarketingRepository.SavePrivacyLog | pkg/domain/marketing/memory.go:46-51 | appends to one identifier's audit log |
| MarketingServices.HTTPCRMAdapter.SyncContact | pkg/domain/marketing/http_crm.go:29-53 | succeeds iff the client delivers exactly 200; an unusable address never reaches the breaker; crashes iff an admitted call has a negative retry count |
| MarketingServices.MarketingService.ProcessMarketingWorkflow | pkg/domain/marketing/service.go:73-119 | one attempt, one success or failure, one settled contact; nothing at all for other event types; an attempt and no more when the sync crashes |
| MarketingServices.CrashesExactlyWithoutTries | pkg/resilience/resilient_client.go:40-77 | a sync crashes iff it is admitted with a negative retry count |
| MarketingServices.SyncsExactlyOn200 | pkg/domain/marketing/http_crm.go:36-52 | a sync succeeds iff it is admitted and the first reply below 500 is a 200 that comes within the retries and before any wait is cut |
| MarketingServices.MarketingService.Triggered | pkg/domain/marketing/service.go:74-84 | the workflow of an event type, none for any other |
| Contacts.WorkflowsByType | pkg/domain/marketing/service.go:74-84 | the three event types that trigger a workflow, and which |
| MarketingServices.MarketingService.EmailFor | pkg/domain/marketing/service.go:86-91 | the payload's email when it is a non-empty string, the default otherwise |
| Contacts.ContactsByPayload | pkg/domain/marketing/service.go:86-119 | the contact filed for an event, field by field from the event and the outcome |
| MarketingServices.MarketingService.Consume | pkg/domain/marketing/service.go:57-70 | the loop takes its queue in order, passes over fraudulent events, and ends as the channel and the context dictate, or at the first event whose sync crashes |
| MarketingServices.ConsumingFilesAndCounts | pkg/domain/marketing/service.go:61-119 | over any run the contacts filed are those of the qualifying events, in order, and the counters agree with them |
| MarketingServices.StoredContactIsTheLastDue | pkg/domain/marketing/service.go:61-119 | a user's stored contact is that of the user's last qualifying event |
| MarketingServices.RefusalPleasesTheBreaker | pkg/domain/marketing/http_crm.go:41-50 | a status below 500 other than 200 is a success for the breaker and a failed sync, after one request |
| MarketingServices.RefusingCrmNeverTripsTheBreaker | pkg/domain/marketing/http_crm.go:41-50 | a CRM that answers everything with a status below 500 other than 200 never trips the breaker, and every contact is filed as failed |
| MarketingServices.MarketingService.HandleGDPRDelete | pkg/domain/marketing/handlers.go:29-60 | both stores are empty for the user and as before for everybody else, the count is the events plus one for a callback, and the audit log gains one entry under the hashed identifier; 400 and no effect without a user |
| MarketingServices.MarketingService.HandleCCPAExport | pkg/domain/marketing/handlers.go:69-89 | returns what the logs leave for the user and changes nothing; 400 without a user |
| IngestServers.IngestServer.HandleIngest | pkg/domain/ingest/handler.go:42-78 | 400 iff a field is missing or a click or item view comes without consent, 202 only for a publication that went through, 500 only for one refused or cancelled; an incomplete event leaves no trace, a rejection is counted but not published, a failed publication is not counted |
| IngestServers.PreparedEventsAreClean | pkg/domain/ingest/handler.go:49-67 | what is published is complete, consented and masked, keeps the network, and is what the whole-system model publishes |
| IngestServers.PreparedKeepsTheRest | pkg/domain/ingest/handler.go:49-64 | publication changes an event's address and, if it has none, its timestamp, and nothing else |
| IngestServers.HandlersAreTheMachines | pkg/domain/ingest/handler.go:42-67 | whenever the lock lets a publication begin, the whole-system model publishes an event, or counts its rejection, exactly when HandleIngest would |
| IngestServers.FailedIngestDeliversExactly | pkg/domain/ingest/handler.go:67-72 | a request answered 500 on cancellation was delivered iff a subscriber ahead of the cancelling select had room; never with one subscriber |
| IngestServers.FailedIngestMayDeliver | pkg/broker/broker.go:50-55 | a publication that is answered 500 and has been delivered |

## Left out

- HTTP routing, methods and JSON, logging, configuration, the `cmd` mains and the simulator: handlers start at the decoded event or identifier.
- The Redis, Postgres and mock database variants: they rest on libraries and SQL and differ from the in-memory ones (duplicate event identifiers, ordering, delete counts).
- The HTTP transport inside `Do`, request cloning and the mock CRM server: an attempt is a reply from the environment.
- Reading and printing of IP addresses (Go's `net`): addresses are parsed bytes or unreadable text.
- SHA-256 and Unicode lower-casing: function-valued parameters about which nothing is assumed, so nothing is said about hash collisions.
- Floating point: scores are exact tenths and dashboard percentages are reals; no sum of scores lies near 0.5.
- 64-bit wrap-around of the telemetry counters, and the events-per-second figure.
- Outages.OutageLoadBound: is about calls that follow one another, as the single marketing worker makes them; concurrent callers of one client share only the results about the breaker's log.
- Broker.InMemoryBroker.PublishRaw: is uninterrupted here; concurrent publishers, subscribers, receivers and closers are in `Bus`.
- Broker.InMemoryBroker.PublishScreened: as for PublishRaw.
- BrokerRuns.PublishRawIsARun: relates calls that nothing interrupts; it does not say that every run of the machine is a sequence of such calls, which is false (see CrossExactlyWhenBothRun).
- FraudServices.FraudService.Work: runs for as long as the loop need not wait for another goroutine; waiting is in `Pipeline`.
- FraudServices.FraudService.Start: the same.
- MarketingServices.MarketingService.Consume: the same; the subscription before it is SubscribeScreened.
- PipelineInv.Step: takes the verdict and the sync outcome as arbitrary and starts from the event already stamped; one fraud worker, one marketing worker, the deletion callback wired as in cmd/monolith/main.go:55-59, and any number of handlers, purges, exports and further subscribers.
- ContactReturns.FiledExactlyWhenInFlight: counts an event that is still to be screened as one that may turn out legitimate, since verdicts are arbitrary there.
- Purges.PurgeIsFinal: the rules' memory of a user (RuleState.UserHistory) is not scrubbed by a purge, and nothing is claimed about it.
- Payload keys other than country and email, and the text of log messages and responses.
