# parameters-core: a verified model

A Dafny model of the parts of parameters-core whose behaviour depends on an interleaving, a
stream of outcomes, a handler's script or the shape of a struct, with proofs of what they
guarantee. `dafny verify dfyconfig.toml` checks everything.

## What is modelled

| file | subject |
|---|---|
| `Platform.dfy` | service entries, stored statuses, and what one probe records |
| `Aggregate.dfy` | the platform summary as an algebra on lists of statuses |
| `PollProtocol.dfy` | the status store as a transition system: any number of overlapping polls, one goroutine per service, probing outside the lock and writing one map slot under it |
| `StatusStore.dfy` | the same store on the heap, with the goroutines' local objects: it follows the protocol step by step, and what a snapshot shares |
| `Health.dfy` | health checks fanning in to one report, with registrations and other runs interleaved; the HTTP answer; what a prober stores for it |
| `Dashboard.dfy` | the two-read summary endpoint, the proxy's routing, and the path from checks to the platform summary |
| `Retry.dfy` | the HTTP client's retry loop against an arbitrary stream of outcomes |
| `EnvOverlay.dfy` | the environment overlay walking a struct laid out in memory slots |
| `Handlers.dfy` | handlers as scripts, middlewares as layers, response writers as recorders over a wire |
| `Accounting.dfy` | statuses, bytes, log entries and counter increments, for every chain and script |
| `Tracing.dfy` | nesting of layers, the in-flight gauge on the call stack, request ids |
| `StandardStack.dfy` | the documented stack RequestID, Logger, Recover, CORS, metrics |
| `Traffic.dfy` | any number of requests interleaved through one chain |
| `Recorders.dfy` | recorders, log, gauge and counter as objects changed in place, refining `Handlers.Serve` |

In `PollProtocol` and `Health` a run is a list of enabled steps, so a statement about every
run is a statement about every interleaving. `Inv` holds initially (`InitInv`) and is kept by
every step, so a lemma that requires `Inv(s)` speaks of every reachable state. The write
history and the ghost fields are bookkeeping: no step looks at them. Time is in milliseconds.
The write-back delay in `LastCheckRegressionIsBounded` is a parameter; the code's own value is
the 5 s client timeout plus the wait for the lock.

## What the proofs brought out

- The serial polling loop never moves a stored `LastCheck` back exactly when the services have
  distinct names (`SerialMonotoneIffDistinct`). Where polls overlap it can be moved back for
  every service, by as much as the write-back delay and no more
  (`RegressionBoundIsTight`, `LastCheckRegressionIsBounded`).
- The summary endpoint can answer "ok" while counting services as down, and does so until the
  first write (`OkWithServicesDown`, `UnpolledDashboard`); with writes between its two reads its
  counts and its status can contradict each other, up to "down" with every service healthy
  (`TornSummary` says exactly when, `TornRun` that it happens on every platform).
- A poll started by request probes under that request's context, which ends with the request; if
  that cuts its probes short the platform shows as down (`UnreachedPollShowsDown`).
- A snapshot's check tables are shared with the store (`ScribbleOnTable`, `ReachTable`); nothing
  in the repository writes to them.
- The client's comment speaks of retries on 5xx; transport errors are retried too. The
  "server error" text it prepares is never what a call ends with (`CallEndings`). With a
  negative budget nothing is sent and no error is reported (`Client.Do`).
- A recovered panic is logged as 500 even when another status has already gone out
  (`LogDisagreesWithWire`, `DisagreeingScripts`), and it leaves the in-flight gauge one too high for good
  (`LostStaysLost`, `StandardTotals`).
- The summary's comment lists three values; it has a fourth, "unknown", for no services.

## Model

| member | source | states |
|---|---|---|
| Aggregate.SummaryIsHomomorphism | pkg/ui/registry.go:105-127 | the summary of two lists put together is determined by their two summaries |
| Aggregate.SummaryIgnoresOrder | pkg/ui/registry.go:105-127 | lists with the same elements have the same summary |
| Aggregate.SummaryIsMonotone | pkg/ui/registry.go:105-127 | if no service gets better, the platform does not |
| Aggregate.SummaryByTexts | pkg/ui/registry.go:111-126 | by the texts shown: down iff every service says down or error, ok iff none says down, error or degraded |
| PollProtocol.InitialStatusesAreUnprobed | pkg/ui/registry.go:43-53 | a new registry has exactly one unknown status per distinct name, duplicates included |
| PollProtocol.LastRegisteredIsShown | pkg/ui/registry.go:49-51 | of services sharing a name the last registered is the one a new registry shows, as unknown and never checked |
| PollProtocol.StepKeepsInv | pkg/ui/registry.go:56-73 | every step of every goroutine of every poll keeps the store equal to its writes replayed in lock order, phases and stamps consistent |
| PollProtocol.RunKeepsInv | pkg/ui/registry.go:56-88 | so does every run |
| PollProtocol.PollCanReturn | pkg/ui/registry.go:61-72 | from every reachable state each poll can be brought to return by its own steps, whatever the others do |
| PollProtocol.ReplayKeepsLastWrite | pkg/ui/registry.go:67-69 | after any sequence of critical sections a slot holds the last write to its name |
| PollProtocol.CollectIsPointwise | pkg/ui/registry.go:91-102 | a snapshot has one element per service in registration order, each the stored one |
| PollProtocol.SnapshotShape | pkg/ui/registry.go:43-102 | in every reachable state the keys are the registered names, entries are filed under their own name, and a snapshot lists every service in order |
| PollProtocol.FreshAfterReturn | pkg/ui/registry.go:56-102 | after a poll returns, every later snapshot shows for each of its services the value it wrote or one written after it |
| PollProtocol.LatestIsOwn | pkg/ui/registry.go:56-102 | after a poll no other poll overlaps, every service shows one of its writes, also with shared names |
| PollProtocol.SnapshotIsPollResult | pkg/ui/registry.go:56-102 | with distinct names and no overlapping poll, a snapshot is exactly the poll's probe results |
| PollProtocol.ChangedMeansWritten | pkg/ui/registry.go:66-101 | along any run, a service shown differently has been written in between |
| PollProtocol.ProbeJourney | pkg/ui/registry.go:66-69 | what a goroutine leaves in the store carries its service, the moment it began, the time of its request and what the answer comes to |
| PollProtocol.WholePoll | pkg/ui/registry.go:61-72 | from every reachable state a whole poll can run and return, whatever its probes are to meet, and then every service shows what was met under its name |
| PollProtocol.LastCheckRegressionIsBounded | pkg/ui/registry.go:66-69 | over every interleaving LastCheck never moves back by more than the write-back delay |
| PollProtocol.SerialLastCheckIsMonotone | pkg/ui/registry.go:76-88 | with serial polls and distinct names LastCheck never moves back |
| PollProtocol.SerialSnapshotIsLatestPoll | pkg/ui/registry.go:76-102 | in the serial loop a snapshot after a poll is what that poll found |
| PollProtocol.Overtaking | pkg/ui/registry.go:66-69 | from every reachable state in which a goroutine is probing and one for the same name has yet to begin, the second can write first, and LastCheck moves back by all the time gone by |
| PollProtocol.RegressionBoundIsTight | pkg/ui/dashboard.go:75-78 | from every reachable state whose writes have kept to a delay, for every service, an extra overlapping poll can move its LastCheck back by exactly that delay |
| PollProtocol.OverlapMonotoneIffEmpty | pkg/ui/dashboard.go:75-78 | with overlapping polls LastCheck is monotone in every run iff there are no services |
| PollProtocol.SharedNamesBreakMonotonicity | pkg/ui/registry.go:62-70 | on every platform where two services share a name, one poll of the serial loop can move LastCheck back by any gap that earlier writes have kept to, from every state between polls |
| PollProtocol.SerialMonotoneIffDistinct | pkg/ui/registry.go:76-88 | every run of the serial loop is monotone iff names are distinct |
| StatusStore.Registry.constructor | pkg/ui/registry.go:43-53 | the new store holds the initial statuses in fresh objects |
| StatusStore.Registry.Probe | pkg/ui/registry.go:136-172 | returns a fresh status, field by field what the outcome met calls for, by texts and codes, and touches nothing that exists |
| StatusStore.Registry.WriteBack | pkg/ui/registry.go:67-69 | replaces one slot with a new object and changes no status object |
| StatusStore.StatusRecord.Copy | pkg/ui/registry.go:97 | a copy has every field of the original and shares its check table |
| StatusStore.Registry.Statuses | pkg/ui/registry.go:91-102 | distinct fresh copies of every stored status in registration order, sharing only the check tables |
| StatusStore.Registry.Summary | pkg/ui/registry.go:105-127 | down iff all stored statuses are down or error, ok iff none is down, error or degraded, unknown iff there are no services |
| StatusStore.Registry.Rate | pkg/ui/registry.go:107-126 | comparing the two counters with the length decides all down or error, and none bad, exactly |
| StatusStore.Goroutines.End | pkg/ui/registry.go:66 | a finished probe leaves its result in a new object that only its goroutine holds |
| StatusStore.Goroutines.Publish | pkg/ui/registry.go:67-69 | the held object enters the store under its service's name and leaves the goroutine |
| StatusStore.Goroutines.Interleave | pkg/ui/registry.go:56-73 | any interleaving of any number of polls, probes and writes apart, run on objects leaves the store in the state of the protocol's run |
| StatusStore.Read | pkg/ui/registry.go:91-102 | a read at any point of any interleaving shows the protocol's state |
| StatusStore.SnapshotThenRun | pkg/ui/registry.go:66-101 | what a snapshot showed is unchanged by whatever any polls do afterwards, while the store moves on |
| StatusStore.ScribbleOnCopy | pkg/ui/registry.go:97-98 | overwriting all of a handed-out copy, its table reference included, leaves the store as it was |
| StatusStore.ScribbleOnTable | pkg/ui/registry.go:97-98 | writing into a copy's check table changes exactly the stored entries that carry that table, and of those only the checks |
| StatusStore.ReachTable | pkg/ui/registry.go:165-168 | on every platform one poll of a service that answers with checks puts such a table in the store |
| Health.StatusIsConfluent | pkg/health/health.go:79-104 | in every completion order, even with colliding names, degraded iff some check failed |
| Health.ReportIsConfluent | pkg/health/health.go:79-104 | with distinct names every completion order gives the report of running the checks in turn |
| Health.ReportEntries | pkg/health/health.go:89-98 | the report's entries are exactly the registered names, each "ok" or the error of the last check of that name to finish; with distinct names, its own |
| Health.StepKeepsInv | pkg/health/health.go:47-105 | registrations, other runs and completions in any order keep each report equal to its completions folded |
| Health.ReturnedReport | pkg/health/health.go:67-106 | through any interleaving a returned run reports on exactly the checks registered when it began, with the sequential result |
| Health.EveryScheduleRuns | pkg/health/health.go:82-105 | whatever the checks, their outcomes and their completion order, some run of the checker is just that and returns |
| Health.Checker.RunChecks | pkg/health/health.go:72-105 | updating the report in place in completion order yields the fold |
| Health.StoredStatus | pkg/health/health.go:109-120 | end to end: 200 iff all checks passed, else 503; stored ok iff all passed, else down, never degraded; with version and, colliding names included, one entry per name with "ok" or the error |
| Health.ReturnedIsStored | pkg/health/health.go:67-120 | the same for a run of the checker returned through any interleaving, on the checks registered when it began |
| Dashboard.HandleSummary | pkg/ui/dashboard.go:51-69 | whatever the goroutines do between the reads, the answer tabulates the state at the first and rates the state at the second |
| Dashboard.Tabulate | pkg/ui/dashboard.go:58-67 | the switch in the loop counts ok, degraded and all others |
| Dashboard.AnswerCounts | pkg/ui/dashboard.go:53-67 | healthy, degraded and down are the numbers of services shown with ok, with degraded, and with anything else; the status rates the second read |
| Dashboard.SummaryCounts | pkg/ui/dashboard.go:51-69 | under any steps between the reads the counts add up and the status is unknown iff there are no services |
| Dashboard.QuietSummaryAgrees | pkg/ui/dashboard.go:51-69 | with no write between: down means all down, all healthy means ok, ok means none degraded |
| Dashboard.OkWithServicesDown | pkg/ui/dashboard.go:63-66 | an ok answer counts services as down iff nothing is bad and some status is not ok |
| Dashboard.UnpolledDashboard | pkg/ui/dashboard.go:51-69 | in every state before the first write it answers ok with every service counted down |
| Dashboard.TornSummary | pkg/ui/dashboard.go:52-54 | with any steps between the reads, exactly when each of the three agreements fails |
| Dashboard.TornByWrites | pkg/ui/dashboard.go:52-54 | every service a "down" answer counts as up was written, with a bad status, between the reads |
| Dashboard.TornRun | pkg/ui/dashboard.go:52-78 | from every reachable state of every platform with services a run leads to "down" with all services healthy |
| Dashboard.ShownOutcome | pkg/ui/registry.go:136-172 | after an undisturbed poll each service shows, by texts and codes, what one probe for its name met, with distinct names its own |
| Dashboard.PlatformFollowsOutcomes | pkg/ui/registry.go:111-172 | then requests that cannot be built, transport failures, codes from 500 on or bad bodies throughout mean down, undecodable answers degraded, good ones ok |
| Dashboard.PlatformIffOutcomes | pkg/ui/registry.go:111-172 | with distinct names down and ok are decided both ways by what the probes met |
| Dashboard.OutcomesCanBeMet | pkg/ui/registry.go:56-73 | whatever outcomes there are, from every reachable state between polls an undisturbed poll can meet them |
| Dashboard.UniformPoll | pkg/ui/registry.go:111-172 | from every such state and platform with services, a poll whose probes all meet one outcome leaves the platform as that outcome says |
| Dashboard.UnreachedPollShowsDown | pkg/ui/dashboard.go:75-78 | a poll whose probes all fail in transport, as under an ended request's context, leaves the platform down whatever the services' health |
| Dashboard.PlatformFollowsChecks | pkg/ui/registry.go:136-171 | after an undisturbed poll of services that each answered with a returned run of their checker, through any schedules of both, the platform is down iff every run had a failing check, ok iff none had, else degraded |
| Dashboard.BackingsCanBeMet | pkg/ui/registry.go:56-73 | such a poll can run from every state between polls, whatever the checkers did |
| Dashboard.IndexByte | pkg/ui/dashboard.go:87 | the first occurrence, or -1 when there is none |
| Dashboard.SplitPath | pkg/ui/dashboard.go:86-93 | the split is at the first slash and prefix, name and rest make up the path again |
| Dashboard.RouteProxy | pkg/ui/dashboard.go:84-115 | the name before the first slash, the first service of that name and whether its URL parses decide the four answers |
| Dashboard.DestinationIsFirstMatch | pkg/ui/dashboard.go:95-119 | shared names or not, the first service of the name decides: unknown without one or without a URL, else its URL gets the rest of the path if it parses |
| Dashboard.ProxyAgreesWithStatusPage | pkg/ui/dashboard.go:95-104 | with distinct names the proxy's target is the URL of the entry the status page shows |
| Retry.Client.Do | pkg/client/client.go:79-147 | the loop ends as the recursive specification says, sends only the one full request, closes each answer once, backs off before each retry; and what it does without a single round |
| Retry.Client.BuildRequest | pkg/client/client.go:99-118 | the request has the declarative headers, token before key, and the full body |
| Retry.EndingIsFirstEnd | pkg/client/client.go:90-145 | the recursive specification ends at the first round that is settled, last, or before a cancelled backoff |
| Retry.CallEndings | pkg/client/client.go:120-146 | for every stream, by status codes: past a round only on a transport error or a code from 500 on; when a call stops; which error it ends with, and that it is error-free exactly when the last answer was below 400 and decoded |
| Retry.SendsToFirstAnswer | pkg/client/client.go:90-145 | without cancellation the call ends at the first answer below 500, and spends its budget iff there is none before the last round |
| Retry.OutgoingCarries | pkg/client/client.go:99-118 | URL, body and each header of the request: content type iff there is a body, the token, else the key, as bearer |
| Retry.BudgetMonotone | pkg/client/client.go:90-145 | two runs: a larger budget gives the same requests and result iff the smaller was not exhausted, in particular after success |
| Retry.AnsweredExactlyOnce | pkg/client/client.go:126-144 | the rounds whose body is closed are exactly the answered ones, each once, in order |
| Retry.BackoffTotal | pkg/client/client.go:91-97 | before attempt k the backoffs total 250 k (k + 1) ms |
| EnvOverlay.TruncateKeepsLowBits | pkg/config/env.go:54-57 | a narrow field keeps the number's low bits, and the number itself when it fits |
| EnvOverlay.TruncateByWidth | pkg/config/env.go:54-57 | what a field of 8, 16, 32 or 64 bits holds of a parsed number |
| EnvOverlay.IntRoundTrip | pkg/config/env.go:54-57 | a formatted number overlaid on a wide enough field is stored as that number |
| EnvOverlay.ParseIntOfFormat | pkg/config/env.go:55 | a number in decimal is parsed as itself iff it has 64 bits |
| EnvOverlay.ParseIntShape | pkg/config/env.go:55 | only decimal digits after at most one sign are parsed, and a plus sign changes nothing |
| EnvOverlay.OverlayFrame | pkg/config/env.go:21-64 | memory outside the struct is not touched |
| EnvOverlay.OverlayByPath | pkg/config/env.go:21-64 | pointwise by field path: exported all the way means resolved, otherwise unchanged |
| EnvOverlay.FieldByField | pkg/config/env.go:22-39 | an unexported field keeps all its memory, nested or not, an untagged scalar its value, and an exported struct ends as its own overlay |
| EnvOverlay.StoredByText | pkg/config/env.go:41-62 | an exported tagged scalar ends, by the text of the prefixed variable or else the bare one, as that string, that truth value, that number's low bits, or as it was |
| EnvOverlay.BareKeyIsUsed | pkg/config/env.go:43-46 | with the prefixed variable unset the bare one decides |
| EnvOverlay.EverySlotHasAPath | pkg/config/env.go:22-34 | every slot of the struct belongs to some field path |
| EnvOverlay.PrefixedKeyWins | pkg/config/env.go:41-49 | the prefixed variable decides whatever the bare one says, even when it cannot be parsed |
| EnvOverlay.OverlayReadsOnlyItsKeys | pkg/config/env.go:36-49 | only the two keys of each tag matter |
| EnvOverlay.OverlayTwice | pkg/config/env.go:21-64 | a second application changes nothing |
| EnvOverlay.ApplyScalar | pkg/config/env.go:36-62 | looks up, parses and stores one field in place, or leaves it |
| EnvOverlay.ApplyEnvValue | pkg/config/env.go:21-64 | the recursive walk in place yields the overlay of all of memory |
| EnvOverlay.ApplyEnv | pkg/config/env.go:13-19 | a non-pointer or nil pointer changes nothing, a struct pointer gets the overlay |
| Handlers.Chain | pkg/middleware/middleware.go:124-131 | the backward loop composes with the first middleware outermost |
| Handlers.ComposeConcat | pkg/middleware/middleware.go:124-131 | a chain of two lists is the first chain around the second, and the empty chain is the identity |
| Handlers.Serve | pkg/middleware/middleware.go:60-77 | whatever happens inside, the writer comes back under the same recorders it was handed in under |
| Accounting.ScriptRecords | pkg/middleware/middleware.go:42-57 | for every script and stack of recorders: recorded status is the last asked for, wire status the first effective, recorded size the bytes the wire took |
| Accounting.RecordedAndSent | pkg/middleware/middleware.go:48-64 | for a script that does not panic the recorder has its last status request, else 200, and the wire the status it begins with, else 200 |
| Accounting.ChainSendsWholeBody | pkg/middleware/middleware.go:53-57 | through every chain that reaches it, a handler's whole body is sent on a connection that takes it |
| Accounting.WellBehavedScriptsAgree | pkg/middleware/middleware.go:48-51 | recorder and wire agree when the status is set at most once and first |
| Accounting.DisagreementIsLateRequest | pkg/middleware/middleware.go:48-51 | they disagree exactly when the last status request came too late and asked for something else |
| Accounting.RecordsUnwrap | pkg/metrics/metrics.go:72-80 | a recorder put around a writer holds the bytes and last status of what went on inside, and the writer below has recorded the same |
| Accounting.ChainRecords | pkg/middleware/middleware.go:60-121 | for every chain: a panic gets out iff the handler is reached, panics and no layer recovers; and what every outer recorder and the wire show |
| Accounting.OuterTrace | pkg/middleware/middleware.go:60-92 | what the outermost layer of any chain adds: its leaving, then an entry if control returned or a recovery if it did not |
| Accounting.EntriesSay | pkg/middleware/middleware.go:65-74 | every log entry and count of any chain carries the wire's bytes and the last status |
| Accounting.EntriesCount | pkg/metrics/metrics.go:89-97 | entries and counts are made by exactly the layers entered whose inner handler returns |
| Tracing.ChainIsWellNested | pkg/middleware/middleware.go:124-131 | layers are entered in list order and left in reverse, also on panics and short circuits |
| Tracing.RunIsNested | pkg/middleware/middleware.go:124-131 | every leaving matches the innermost layer and the call stack ends as it began |
| Tracing.GaugeIsConserved | pkg/metrics/metrics.go:86-91 | at every moment the gauge is the metrics layers on the stack plus those a panic left |
| Tracing.PanicExitsOfRun | pkg/metrics/metrics.go:89-91 | which metrics layers a panic leaves, for every chain and script |
| Tracing.OneMetricsLayer | pkg/metrics/metrics.go:83-98 | with at most one metrics layer it is on the stack exactly while the request is inside it |
| Tracing.HandlerRunsWhenReached | pkg/middleware/middleware.go:114-118 | the handler runs iff no layer answers a preflight in its place |
| Tracing.IdsAreContextual | pkg/middleware/middleware.go:28-40 | handler, log entries and recovery entries carry the id of their context |
| Accounting.ErrorPageIsSent | pkg/middleware/middleware.go:86 | the error page is a 500 and its 70 bytes, as far as the connection takes them |
| StandardStack.StandardRequest | pkg/middleware/middleware.go:20-121 | for every script: no panic escapes, one log entry with the handler's and the response's id, exact bytes, statuses and counting |
| StandardStack.RequestByScript | pkg/middleware/middleware.go:60-121 | a request told by its script: which status log, counter and wire show when the handler returns and when it panics |
| StandardStack.PreflightAnswer | pkg/middleware/middleware.go:114-117 | a preflight is 204 without a body, logged so, neither handled nor counted |
| StandardStack.IncomingIdIsKept | pkg/middleware/middleware.go:20-40 | an incoming request id, or else a drawn one, is what the handler sees, log and recovery entries show and the response carries |
| StandardStack.EarlyPanicIsFiveHundred | pkg/middleware/middleware.go:83-88 | a panic before any write is 500 on the wire and in the log |
| StandardStack.LogDisagreesWithWire | pkg/middleware/middleware.go:48-88 | exactly when the logged status is not the one sent |
| StandardStack.DisagreeingScripts | pkg/middleware/middleware.go:48-88 | both kinds of disagreement happen for every request that is no preflight |
| Traffic.GaugeConservation | pkg/metrics/metrics.go:83-98 | in every interleaving through every chain the gauge is in-flight layers plus panicked ones |
| Traffic.SharedIsUnionOfPasts | pkg/metrics/metrics.go:96 | in every interleaving the counter and the log hold each increment and entry exactly as often as the requests have made it |
| Traffic.StepKeepsInv | pkg/metrics/metrics.go:83-98 | one more event of any request keeps gauge, counter and log equal to the sums over the requests |
| Traffic.CanFinish | pkg/metrics/metrics.go:83-98 | from every moment of every interleaving all requests can be brought to their end |
| Traffic.GaugeWithoutLosses | pkg/metrics/metrics.go:83-98 | where no panic leaves a metrics layer, recovered ones further inside allowed, it is exactly the metrics layers requests are in |
| Traffic.GaugeCountsRequests | pkg/metrics/metrics.go:83-98 | with at most one metrics layer it is the requests inside it plus those thrown out by panics, so the requests in flight iff none was |
| Traffic.StandardGauge | pkg/metrics/metrics.go:83-98 | in the standard stack it is the requests in flight as long as every handler returns |
| Traffic.LostStaysLost | pkg/metrics/metrics.go:86-91 | what a panic leaves on the gauge is never taken off |
| Traffic.StandardTotals | pkg/metrics/metrics.go:83-98 | when all requests are done: gauge counts panicked handlers, the log has one entry per request, and the counter, label by label and in total, one per returned non-preflight request |
| Recorders.ResponseWriter.SendHeader | pkg/middleware/middleware.go:48-51 | writing through the objects updates every recorder and sends only the first status |
| Recorders.ResponseWriter.Send | pkg/middleware/middleware.go:53-57 | every logging recorder grows by what the connection accepted, which is returned |
| Recorders.ResponseWriter.SetHeader | pkg/middleware/middleware.go:29 | the id reaches the connection through every recorder, unless the status has gone out |
| Recorders.ResponseWriter.SendErrorPage | pkg/middleware/middleware.go:86 | the error page is a 500 and a body, through every recorder |
| Recorders.PostAllContents | pkg/metrics/metrics.go:86-97 | a ledger kept event by event gains exactly the trace's log entries and increments, in order, and moves its gauge with the trace |
| Recorders.StandardLedger | pkg/metrics/metrics.go:83-98 | one request through the standard stack adds one entry, one increment with its status iff the handler returned, and one to the gauge iff it panicked |
| Recorders.Service.Note | pkg/metrics/metrics.go:86-96 | log, gauge and counter move by what the one event does to a ledger, and by nothing else |
| Recorders.Service.RunScript | pkg/metrics/metrics.go:77-80 | a script run on writer objects stops at its first panic with the specified writer state |
| Recorders.Service.WithRequestID | pkg/middleware/middleware.go:20-32 | the layer in place refines its meaning |
| Recorders.Service.WithLogger | pkg/middleware/middleware.go:60-77 | reading the recorder object after the call logs what the meaning says |
| Recorders.Service.WithRecover | pkg/middleware/middleware.go:80-92 | a panic inside is answered through the same writer object as the meaning says |
| Recorders.Service.WithCORS | pkg/middleware/middleware.go:105-119 | a preflight is answered in place and goes no further |
| Recorders.Service.WithMetrics | pkg/metrics/metrics.go:83-98 | gauge and counter updated in place as the meaning says, the decrement passed by on a panic |
| Recorders.Service.ServeRecorded | pkg/middleware/middleware.go:64-65 | serving through a new recorder object and reading its fields afterwards yields what the inside recorded |
| Recorders.Service.ServeHTTP | pkg/middleware/middleware.go:124-131 | a whole chain run on objects leaves writers, log, gauge and counter as its meaning says |
| Recorders.Service.ServeStandard | pkg/middleware/middleware.go:20-131 | the standard stack on objects: the one entry added to the log has the wire's bytes, the handler's id and the status the script decides, and counter and gauge move accordingly |

## Left out

- StatusStore.Goroutines.Interleave: the order in which goroutines run is the list of steps it is given; memory is sequentially consistent, as the lock makes it for the map.
- StatusStore.Registry.Probe: the request, the network and JSON decoding are the outcome argument; the stamp and the start of the latency measurement are one instant.
- Dashboard.HandleSummary: the fields it modifies are those the goroutines in `between` write; the endpoint itself writes none.
- Dashboard.RouteProxy: which URLs parse is a parameter; the reverse proxy itself.
- Health.Checker.RunChecks: what a check function does, including its timeout, is the completion's outcome; completions at the mutex are taken one at a time.
- Retry.Client.constructor: the list of options applied at creation, which are the setters, and the timeout option.
- Retry.Client.Do: overflow of the nanosecond backoff after some 18 billion attempts, and the client's own timeout; a cancelled context during the request is a transport error.
- Handlers.Chain: handlers are scripts of status and body calls and panics; headers other than the request id, the CORS allowlist and its headers, informational 1xx statuses, and goroutines that use the writer are not modelled.
- Recorders.Service.WithLogger: method, path, duration and remote address in the log line, and log levels above info, at which no line is written.
- Recorders.Service.WithMetrics: the latency histogram and the metrics library; a counter is the list of its increments.
- EnvOverlay.ApplyEnv: a pointer to something other than a struct, at which the reflection library panics; upper-casing is a parameter, so any case mapping is covered.
- JWT, API keys, TLS, YAML and JSON codecs, server start-up and shutdown, response envelopes and typed errors, static assets and the browser code: foreign libraries, input and output, or settled by reading one branch.
