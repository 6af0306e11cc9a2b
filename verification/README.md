# Verified model of the orders service

A Dafny model of the order service's concurrent core and of the algorithms its observability depends on, with machine-checked
proofs over every run, every interleaving or every input. `dafny verify dfyconfig.toml` checks everything.

## What is modelled

| files | part of the system |
|---|---|
| `Collections.dfy` | sizes of sets and sums over maps, for the proofs |
| `Domain.dfy` | statuses, legal transitions, validation of new orders, the created-value counter |
| `OrderQueue.dfy` | the shared `orders` table, any number of HTTP creators and worker replicas, as a step relation |
| `QueueOwnership.dfy`, `QueueFlow.dfy`, `QueueStatus.dfy`, `QueueVerdict.dfy`, `QueueStranding.dfy`, `QueueRows.dfy`, `QueueWaiting.dfy` | what holds in every run of that relation |
| `WorkerTicks.dfy`, `WorkerLoop.dfy`, `OrderApi.dfy` | `runOnce`, `processOne`, the store calls and `createOrder` as imperative code, proved to take only steps of the relation while everybody else acts in between |
| `Shutdown.dfy` | the tail of `run`: start, cancel, drain, wait, close |
| `Sampler.dfy`, `SamplerRefinement.dfy`, `SamplerAccounting.dfy` | the log sampler and its shared state |
| `Pseudonym.dfy` | the PII pseudonym |
| `Migrations.dfy` | `Migrate` on concurrent replicas |
| `Middleware.dfy`, `Recorders.dfy` | the middleware chain and the nested response recorders |
| `SqlNames.dfy` | the three SQL normalisers and the query-name tables |
| `Backlog.dfy` | the cached backlog gauges |
| `LoadGen.dfy` | the id ring, the weighted pick and the tallies of the load generator |
| `SpanDepth.dfy` | the span nesting of the trace viewer |

### How the queue is modelled

One event is one atomic effect: a committed statement, one metrics call, or one step of a worker. An error from the database says
nothing about whether the statement committed, so each call has variants that commit and reply, commit without a reply, commit
later, or never run. An insert carries a validated order. A claim takes the oldest pending rows atomically, in any order of equal
creation times. A run is any list of enabled events from an empty table, so a statement about all runs is about all interleavings of
any number of workers and creators. `IsRun`/`After` say which lists are runs and where they lead. Logs of lost replies, panics and
crashes are functions of the run, not extra state. Counters are the totals of the metrics calls over all processes. The claim limit
is positive because `withDefaults` makes it so.

### Where code and comments disagree

The model follows the code.

- The comment on `runOnce` says every exit records a `WorkerRun`. A tick does not exactly when its claim fails under cancellation or
  it panics; `RunOnce` and `NoHolesIff` say so, `SilentTick` is such a tick (internal/worker/worker.go:185-187 against 193-199).
- The comment on `Run` says a shutdown never strands orders. It can: `CancelledClaimStrands` is a life without crash, panic or
  failing statement in which it does, and `GracefulShutdown` says what else can be the cause (internal/worker/worker.go:163-164).
- The write context is built first so that every exit can finish its order. Its five seconds then run while the processor does, and
  an order whose processor outlasts them is lost; `SlowProcessorStrands`, and `ExpiredDeadlineStrands` for a paid verdict lost in a
  graceful shutdown (internal/worker/worker.go:245-258).
- The comment on `guard` leaves a stranded row to the backlog-age alert. That age reads pending rows only and never sees it;
  `StrandedIsInvisible` (internal/worker/worker.go:140-143).
- The conflict branch of `processOne` expects other workers to finish an order first. It is unreachable; `ConflictUnreachable`
  (internal/worker/worker.go:290-294).
- The normalisers are said to agree. They do so on exactly the strings without exotic whitespace; `NormalisersAgree`. On the others
  the metrics can name a query that logs and spans call "other"; `TracersAgree`, `NoBreakSpaceParts` (internal/logging/pgx.go:111-112).
- A recorder takes an informational `WriteHeader` for the final status; `RecordedIsSentIff` says exactly when the recorded status
  is the one sent (internal/metrics/http.go:333-340).
- The span depth can exceed the number of distinct span ids by one; `DepthExceedsIff` says exactly when, `DepthCanExceedIds` gives
  four spans (scripts/traces.py:48-54).

## Model

| member | source | states |
|---|---|---|
| `Domain.ValueCounterExact` | internal/domain/order.go:111-127 | every partial sum of accepted amounts is an integer that float64 holds exactly, for any 900,719,925 created orders |
| `Domain.ValueCounterBoundIsTight` | internal/metrics/business.go:242-246 | with one accepted order more the total can be 2^53 + 1, which float64 does not hold |
| `Domain.AcceptedIff` | internal/domain/order.go:111-127 | an order is accepted if and only if the customer has 1 to 64 bytes, the amount is 1 to 10,000,000 and the currency is one of the five |
| `Domain.FirstBadField` | internal/domain/order.go:112-126 | a rejection names the first of customer, amount and currency that is wrong, and what is wrong with it |
| `QueueOwnership.StepKeepsExclusive` | internal/worker/worker.go:188-306 | each of the 22 kinds of step keeps: lists without repeats, every owned or late-marked order in `processing`, no order owned twice |
| `QueueOwnership.NoOrderHasTwoOwners` | internal/store/orders.go:47-56 | in every run of any number of workers, two workers holding one order are the same worker and the row is in `processing` |
| `QueueOwnership.ConflictUnreachable` | internal/store/orders.go:116-126 | in no reachable state can a mark find its row outside `processing`, so `ErrConflict` never occurs |
| `QueueOwnership.OneMarkPerClaim` | internal/worker/worker.go:255-298 | over every run, mark attempts on an order plus one if it is still owned never exceed its claims |
| `QueueOwnership.OwnerClaimedLast` | internal/store/orders.go:47-56 | in every run the worker holding an order is the last one whose claim took it |
| `QueueFlow.LedgerStep` | internal/worker/worker.go:219-229 | each committed change is counted, still to be counted, or made uncountable by a lost reply, panic or crash, exactly once |
| `QueueFlow.LevelStep` | internal/store/orders.go:60-62 | the rows in each status move by exactly what the step commits |
| `QueueFlow.FlowEqualsLevel` | internal/metrics/business.go:242-250 | in every state of every run, the rows in a status are inflow minus outflow of the counters plus outstanding calls plus uncountable changes |
| `QueueFlow.QuietFlowEqualsLevel` | internal/httpapi/handlers.go:70-90 | with no lost reply, panic, crash or outstanding call, the counters match the table exactly |
| `QueueStatus.TerminalForever` | internal/store/orders.go:58-62 | from any state, a paid, failed or cancelled row never changes again, with any processor |
| `QueueStatus.DefaultRuns` | internal/worker/worker.go:309-323 | with the default processor `cancelled` is never reached, mark targets are paid, failed or pending, and the transition counter never gains a series after PreInit |
| `QueueStatus.RowChangesAreLegal` | internal/domain/order.go:33-43 | every change of every row in every default run is a member of AllTransitions |
| `QueueStatus.ListedTransitionsHappen` | internal/domain/order.go:33-45 | every listed transition except pending to cancelled happens in some default run |
| `QueueStatus.CancellationNeverHappens` | internal/worker/worker.go:309-323 | and that one happens in none, so the changes of rows are exactly the other five |
| `QueueVerdict.NoStatusLies` | internal/worker/worker.go:258-298 | a row is paid, failed or cancelled only if the processor of the worker owning it returned that verdict; an attempt cut short by shutdown never makes it failed |
| `QueueStranding.NoUnexplainedStranding` | internal/worker/worker.go:144-306 | an order in `processing` that nobody owns was put there by an event of the run with a listed cause, was not so before it, and has been so ever since |
| `QueueStranding.CauseStrands` | internal/worker/worker.go:195-199 | each listed cause does strand the order, so the list is exact |
| `QueueStranding.StrandedByLastClaimer` | internal/worker/worker.go:188-306 | the event that strands an order is a step of the worker that claimed it last |
| `QueueStranding.StrandedForever` | internal/store/orders.go:47-62 | without a late mark, no continuation of any length changes the row or gives it an owner |
| `QueueStranding.LateMarkDecides` | internal/store/orders.go:58-62 | a statement left to the server moves the stranded row when it runs, and once it is lost the row is stuck |
| `QueueStranding.DeferredMarkCatchesUp` | internal/store/orders.go:116-126 | a mark given up on that the server still runs leaves the table that the answered mark would have left |
| `QueueStranding.EveryOrderInHandIsAtRisk` | internal/worker/worker.go:124-143 | at every moment a crash, or a panic outside the order guard, strands each order in hand |
| `QueueStranding.SlowProcessorStrands` | internal/worker/worker.go:255-258 | when the processor outlasts the write deadline, every continuation either still has the mark to fail or has the order stranded for good, even if the processor succeeded |
| `QueueStranding.DefaultStrandingCauses` | internal/worker/worker.go:309-323 | with the default processor only a lost claim reply, a failed mark, a panic or a crash can strand |
| `QueueStranding.CleanRunsStrandNothing` | internal/worker/worker.go:163-181 | without those four no run strands anything, in particular leaving the loop does not |
| `QueueStranding.StrandedIsInvisible` | internal/store/orders.go:64-66 | the oldest-pending age is what it would be without the stranded row, for ever |
| `QueueRows.RowsKeepIdentity` | internal/store/orders.go:47-62 | from any state, no continuation removes a row or changes its creation time, customer, amount or currency |
| `QueueRows.RowsAreInsertedOnce` | internal/store/orders.go:21-23 | in every run a row exists exactly after its one insert, of a validated order, and holds the time and the order of that insert |
| `QueueRows.StoredOrdersAreValid` | internal/httpapi/handlers.go:60-72 | whatever clients send, the table only holds orders within the limits and in the five currencies |
| `QueueRows.CurrencyLabelsAreClosed` | internal/domain/order.go:47-62 | in every run `orders_created_total` has exactly the five currency labels |
| `QueueRows.CreatedPerCurrency` | internal/metrics/business.go:241-246 | in every state of every run, the rows in a currency are the created counter plus calls outstanding plus creations made uncountable |
| `QueueWaiting.ClaimServesOldest` | internal/store/orders.go:47-56 | a claim that passes an order over takes exactly `limit` orders created no later than it |
| `QueueWaiting.ReleasedToItsPlace` | internal/worker/worker.go:260-283 | however often an order is claimed and released, whoever is ahead of it was ahead before, was being processed then, or is new |
| `QueueWaiting.BoundedWaiting` | internal/worker/worker.go:188-230 | an order with k others ahead is claimed within k / batch + 1 committed claims, if new orders are stamped later and none ahead is released |
| `WorkerLoop.SelectOldest` | internal/store/orders.go:49-55 | ordering by creation time and cutting at the limit gives a correct claim, for every table |
| `WorkerLoop.Replica.ClaimPendingOrders` | internal/store/orders.go:97-113 | replies with the committed claim, or fails or panics, in either case with or without having committed one |
| `WorkerLoop.Replica.MarkOrder` | internal/store/orders.go:116-126 | sends one mark and never answers conflict; what it answers and whether the mark ran follows from what the database does and from the deadline |
| `WorkerLoop.Replica.ProcessOne` | internal/worker/worker.go:232-306 | for every fate of the order, one processor call and one mark with the status the three branches ask for, counted only after a reply, whatever others do in between |
| `WorkerLoop.Replica.RunOnce` | internal/worker/worker.go:188-230 | for every fate of claim, batch and orders, exactly the steps of a tick: one claim, one count and one round of `processOne` per order; it is silent exactly on a claim error under cancellation, records an error exactly on one without, and records a run exactly when it is neither silent nor ended by a panic |
| `WorkerLoop.Replica.SilentTick` | internal/worker/worker.go:193-199 | a tick whose claim commits and is then cancelled leaves no heartbeat |
| `WorkerLoop.Replica.Run` | internal/worker/worker.go:165-181 | the steps of the worker are its start, the steps of one tick after another as `RunOnce` describes them, and its exit, which it takes between batches and owning nothing; one heartbeat per tick that records a run |
| `WorkerTicks.NoHolesIff` | internal/worker/worker.go:183-187 | over any ticks the heartbeat is complete if and only if no claim failed under cancellation and no tick panicked |
| `OrderApi.Service.CreateOrder` | internal/httpapi/handlers.go:50-94 | the response follows from the validation, the identifier and what the insert does: an invalid order changes nothing, 201 means insert then count with any steps of others in between, a panic or crash in between leaves the order uncounted, 500 means no insert or one that is never counted |
| `Shutdown.OrderedLife` | cmd/api/main.go:199-276 | in every state of every life of a process, both loops run from the launch until the context is cancelled, after the wait neither does, and after stop the context is cancelled |
| `Shutdown.PoolOutlivesLoops` | cmd/api/main.go:247-269 | once the pool is closed no loop is live and no step of this worker is enabled |
| `Shutdown.GracefulShutdown` | cmd/api/main.go:256-263 | a process that closed its pool owns no order; anything stranded by then has one of the causes of the queue, and if this worker claimed it last, a step of this worker other than a crash is to blame |
| `Shutdown.CancelledClaimStrands` | internal/worker/worker.go:193-199 | from every boot, an explicit life to the closed pool without crash, panic or failing statement leaves an order stranded |
| `Shutdown.ExpiredDeadlineStrands` | internal/worker/worker.go:255-258 | from every boot, an explicit life to the closed pool in which the processor answers paid and the order is stranded |
| `Shutdown.ShutdownCompletes` | cmd/api/main.go:247-263 | from every state after the launch some steps of this process alone, with no new claim or tick, lead to the closed pool |
| `Shutdown.ShutdownIsBounded` | cmd/api/main.go:247-263 | the wait cannot hang: whatever the others do, the process takes at most `Remaining` steps before one of its loops takes on more work, and until it is over it has such a step to take |
| `Sampler.SamplingHandler.Handle` | internal/logging/handler.go:150-203 | decides and updates the shared map as one step of the specification |
| `Sampler.SamplingHandler.Derive` | internal/logging/handler.go:211-217 | a derived handler shares the state object |
| `Sampler.Drive` | internal/logging/handler.go:71-85 | records through any handlers of one family get the decisions of a single sampler |
| `SamplerRefinement.SharedIsPrivate` | internal/logging/handler.go:150-203 | while at most 1024 messages have appeared before the last record, each message gets exactly the decisions of a private sampler run on its own records |
| `SamplerRefinement.MapIsBounded` | internal/logging/handler.go:162-174 | in every run the map holds at most 1025 keys |
| `SamplerRefinement.RefinementBoundIsExact` | internal/logging/handler.go:162-168 | with one message more the refinement fails for every configuration: any 1025 distinct messages make the shared sampler emit a record that the private one drops |
| `SamplerRefinement.SlidingWindowBound` | internal/logging/handler.go:176-203 | with records in time order and at most 1024 messages, any span of one interval holds at most 2N - 1 emitted records of a message |
| `SamplerRefinement.DropMeansBudgetSpent` | internal/logging/handler.go:176-203 | with records in time order and any number of messages, a record is dropped only if its message was emitted at least N times in the interval ending with it |
| `SamplerRefinement.DefaultBudget` | internal/logging/handler.go:102-108 | with the default budget and interval a message is emitted at most 19 times in any second |
| `SamplerRefinement.DefaultBudgetIsGranted` | internal/logging/handler.go:102-108 | and dropped only after 10 in the second before |
| `SamplerRefinement.WindowBoundIsTight` | internal/logging/handler.go:176-203 | for every budget and every interval of two ticks or more some arrivals reach 2N - 1 |
| `SamplerAccounting.DropsAreAccountedFor` | internal/logging/handler.go:176-196 | total drops are the carried counts plus those in buckets plus those discarded by resets |
| `SamplerAccounting.AccountsBalance` | internal/logging/handler.go:137-203 | in every interleaving attempts are forwarded, reported or under way, and the drop counter lags only by unreported decisions |
| `SamplerAccounting.QuietAccounts` | internal/logging/handler.go:137-203 | once no call is under way, attempts are exactly the forwarded records plus the reported drops |
| `SamplerAccounting.WarningsAreInvisible` | internal/logging/handler.go:151-153 | records at WARN or above are all emitted, and all others get the decisions, buckets and drop counts of a log without them |
| `Pseudonym.PII` | internal/logging/logging.go:242-254 | the uint64 loop and final mask compute the 48-bit pseudonym, printed after the prefix in twelve digits, and the empty value stays empty |
| `Pseudonym.PseudonymOfA` | internal/logging/logging.go:246-253 | the published FNV-1a 64 value of one byte, and its pseudonym |
| `Pseudonym.MaskingCommutes` | internal/logging/logging.go:246-253 | hashing modulo 2^64 and masking equals hashing modulo 2^48 throughout |
| `Pseudonym.SuffixKeepsCollisions` | internal/logging/logging.go:249-252 | two values followed by a common suffix collide if and only if they collide without it |
| `Pseudonym.PseudonymsAgreeIffHashesDo` | internal/logging/logging.go:243-253 | printing is injective: pseudonyms are equal exactly when the truncated hashes are, with the empty value apart |
| `Pseudonym.NoOneByteCollision` | internal/logging/logging.go:242-254 | values of one length that differ in exactly one byte never share a pseudonym |
| `Migrations.StepKeepsOrder` | internal/store/store.go:86-119 | check, apply, record, commit, lost commit, duplicate and abort all keep the committed bodies a prefix of the sorted files |
| `Migrations.ExactlyOnceInOrder` | internal/store/store.go:67-121 | in every interleaving the committed bodies are a prefix of the sorted list, a body is committed exactly when its name is recorded, and never twice |
| `Migrations.SuccessMeansApplied` | internal/store/store.go:120-120 | a replica that returned nil left every file applied |
| `Migrations.AloneSucceeds` | internal/store/store.go:86-120 | from every reachable state, a replica whose statements succeed and whose name nobody else holds ends with every file applied and changes nothing else |
| `Migrations.OnlyNextStep` | internal/store/store.go:86-120 | without a failure a replica never has a choice of steps, so that is what it does |
| `Migrations.RestartOnlyChecks` | internal/store/store.go:88-96 | on a migrated database it succeeds by one check per file, whoever else is running |
| `Migrations.LessMeans` | internal/store/store.go:84-84 | the file order is lexicographic: the first character that differs decides, and a prefix comes first |
| `Migrations.SortedListIsUnique` | internal/store/store.go:80-84 | a set of file names has one sorted list |
| `Migrations.Migrator.Migrate` | internal/store/store.go:70-121 | the loop returns nil only with every file recorded, whatever the other replicas do between its statements; if no statement fails it returns nil on a migrated database, and on any other when no other replica takes part |
| `Middleware.Chain` | internal/httpapi/middleware.go:20-25 | the backwards loop makes the first middleware the outermost |
| `Middleware.ServeHTTP` | internal/metrics/http.go:227-260 | on the heap, among other requests, a call through any chain with any skipped paths leaves the pattern, exit and panic label of the specification; what it adds to the in-flight gauge is its metered layers while the handler runs and nothing afterwards, on every exit |
| `Middleware.PatternReturnsIff` | internal/httpapi/logging.go:36-51 | on a normal return the caller holds the matched pattern exactly when no layer inside clones without copying back |
| `Middleware.OneMissingCopyBack` | internal/tracing/http.go:68-72 | one missing copy-back blinds every layer outside that clone and none inside |
| `Middleware.PanicLabel` | internal/httpapi/middleware.go:32-66 | a recovered panic carries the matched pattern exactly when no cloning layer sits inside the recovery |
| `Middleware.AbortPasses` | internal/httpapi/middleware.go:41-46 | an aborted connection passes every layer unrecovered and unlabelled |
| `Middleware.WiredLayersAgree` | cmd/api/main.go:137-145 | as wired, on every path, all five layers hold the matched pattern after a return and after a recovered panic, and so does the panic label; on the two probe paths tracing, metrics and access log do nothing |
| `Middleware.RequestEndsAsCalled` | internal/httpapi/logging.go:36-51 | in every interleaving a request is never stuck, and when it has unwound, its exit, pattern and label are those of its call alone, with copy-backs skipped by a panic |
| `Middleware.GaugeCountsActive` | internal/metrics/http.go:229-235 | in every interleaving of requests that step through their layers and unwind by return, panic or abort, the gauge is the number of requests inside the metered layer that it did not skip |
| `Middleware.WiredGauge` | internal/metrics/http.go:175-175 | as wired that is so, and health probes are the requests it skips |
| `Middleware.RouteOfPattern` | internal/metrics/http.go:284-299 | the label is the path after the method, and one value for the catch-all and the empty pattern |
| `Recorders.Respond` | internal/httpapi/logging.go:158-181 | any calls on any number of nested recorders leave all of them with the same status, header flag and byte count |
| `Recorders.RecordMeans` | internal/metrics/http.go:333-350 | the first call decides the status and the bytes are what the connection accepted |
| `Recorders.PanicStatus` | internal/httpapi/middleware.go:58-60 | a recovered panic is a 500 exactly when nothing was written before; otherwise the first status stands |
| `Recorders.RecordedIsSentIff` | internal/metrics/http.go:333-340 | the recorded status is the one sent if and only if the first call is not an informational header |
| `Recorders.SpanOfPanic` | internal/tracing/http.go:90-110 | after a panic the span is Ok exactly when a header below 500 was already written |
| `SqlNames.LoggingNormalise` | internal/logging/pgx.go:113-129 | computes the normal form |
| `SqlNames.TracingNormalise` | internal/tracing/pgx.go:151-170 | computes the same normal form, on every string |
| `SqlNames.NormalIsJoinOfFields` | internal/logging/pgx.go:113-136 | the byte loops compute the blank-separated tokens joined by one space, on every string |
| `SqlNames.BlanksAre` | internal/logging/pgx.go:118-124 | between two tokens the byte loops turn a character into a space if and only if it is space, tab, LF or CR |
| `SqlNames.SpacesAre` | internal/metrics/db.go:238-240 | join-of-fields does so if and only if it is one of the 25 white space characters of Unicode |
| `SqlNames.NormalisersAgree` | internal/metrics/db.go:238-240 | byte loops and join-of-fields agree on a string if and only if its only whitespace is space, tab, LF or CR |
| `SqlNames.SameFormIffSameTokens` | internal/metrics/db.go:236-240 | two texts have one normal form exactly when they have the same tokens |
| `SqlNames.NormalisersAreIdempotent` | internal/tracing/pgx.go:151-170 | normalising a normal form changes nothing |
| `SqlNames.BuildTable` | internal/logging/pgx.go:56-61 | the loop over the names, in any order, leaves a table of registered names under normalised keys |
| `SqlNames.RegisteredName` | internal/metrics/db.go:229-234 | any text with the tokens of a registered query, as the table's normaliser reads them, gets its registered name |
| `SqlNames.TracersAgree` | internal/tracing/pgx.go:62-66 | logs and spans give every text one name, and the metrics give it that name too if and only if it has plain whitespace only or is no reformatting of a registered query |
| `SqlNames.NoBreakSpaceParts` | internal/metrics/db.go:236-240 | writing any space of any registered query as U+00A0 keeps its name in the metrics and makes it "other" in logs and spans |
| `Backlog.Business.DoRefresh` | internal/worker/backlog.go:99-143 | one refresh publishes, counts a failure or counts a panic, and changes nothing else |
| `Backlog.Business.SetBacklog` | internal/metrics/business.go:276-285 | sets every known status to its level, absent ones to zero |
| `Backlog.RefreshesAreCounted` | internal/worker/backlog.go:107-131 | over any run, each refresh is exactly one of published, failed or panicked, and the two counters say so |
| `Backlog.GaugesShowLastSuccess` | internal/worker/backlog.go:133-142 | counts, age and time stamp are those of the last successful refresh |
| `Backlog.PublishedCountsSum` | internal/store/orders.go:202-219 | the published counts add up to the table that the count query saw |
| `LoadGen.AddAll` | cmd/loadgen/main.go:322-342 | after any adds the ring holds exactly the last min(k, capacity) non-empty ids, oldest first |
| `LoadGen.IdRing.Add` | cmd/loadgen/main.go:330-342 | drops the oldest once full and appends, with the oldest at `next` |
| `LoadGen.IdRing.Random` | cmd/loadgen/main.go:344-351 | returns the id at the position of the draw, and nothing only from an empty ring |
| `LoadGen.EachIdHasOneDraw` | cmd/loadgen/main.go:344-351 | every position is that of exactly one draw |
| `LoadGen.RingKeepsLast` | cmd/loadgen/main.go:320-342 | keeping at most `cap` at every add is keeping the last `cap` of all |
| `LoadGen.Pick` | cmd/loadgen/main.go:285-298 | every draw below the total lands on its share and the fallback is unreachable |
| `LoadGen.EachKindGetsItsWeight` | cmd/loadgen/main.go:285-298 | each kind gets exactly its weight of the draws |
| `LoadGen.TalliesAgree` | cmd/loadgen/main.go:375-388 | after any samples, per-kind counts, per-code counts and latencies have one total, and each code's total is its sum over the kinds |
| `LoadGen.TalliesCountSamples` | cmd/loadgen/main.go:375-388 | each count is the number of samples of its kind and code, and the latencies are those of the samples in order |
| `LoadGen.Tally.RecordSample` | cmd/loadgen/main.go:375-388 | the statements of record, with the stat of a new kind created on first use, are one step of those tallies |
| `SpanDepth.DepthBound` | scripts/traces.py:46-54 | on any span set the recursion ends with at most the number of ids, or one more for a shadowed self-parent |
| `SpanDepth.DepthExceedsIff` | scripts/traces.py:47-54 | the depth exceeds the number of ids exactly for a shadowed self-parent whose indexed namesake starts a chain through all other ids into a self-parent |
| `SpanDepth.DepthCanExceedIds` | scripts/traces.py:47-54 | four spans with three ids and depth four |
| `SpanDepth.FirstParentMeans` | scripts/traces.py:49-53 | the parent is the target of the first CHILD_OF reference into the trace, and there is none if and only if there is no such reference |
| `SpanDepth.OtherReferencesDoNotMatter` | scripts/traces.py:49-53 | removing every other reference from every span changes no depth |
| `SpanDepth.DepthIsAncestorCount` | scripts/traces.py:48-54 | for an indexed span whose ancestors end at a root, the depth is their number |
| `SpanDepth.DepthOnCycle` | scripts/traces.py:48-54 | for an indexed span whose ancestors run into a cycle, the depth is tail plus cycle less one, or tail plus one into a self-parent |
| `SpanDepth.EverySpanHasAnEnd` | scripts/traces.py:46-54 | the ancestors of every indexed span end at a root or in a cycle, so one of the two depths applies |
| `SpanDepth.UniqueIdsAreIndexed` | scripts/traces.py:47-54 | with unique ids every span is indexed and within the bound |

## Left out

- Postgres, pgx, ServeMux, slog, the Prometheus client and the OpenTelemetry SDK: only the atomic effect of each call is modelled. `FOR UPDATE SKIP LOCKED` is an atomic claim of the oldest pending rows.
- Wall-clock time, tickers and random draws: record times, creation times, outcomes and draws are arbitrary inputs. The 5s write deadline is a flag saying that the processor outlasted it, plus the possibility that any mark fails; a call on an expired context is taken to fail before it sends anything.
- Duration arithmetic in the sampler is unbounded; the saturation of `time.Time.Sub` near 292 years is not modelled. Counters are unbounded too.
- Panic counters of the worker: panics are steps of the model, their metric is not; refresher panics are counted.
- Text of orders: customer identifiers and currencies are sequences of bytes, one character each.
- WorkerLoop.Replica.RunOnce: a crash of the process in the middle of a tick is a step of the protocol, not of the method; a panic of the metrics call on the empty and error paths is not modelled.
- Shutdown.ShutdownIsBounded: Go's select may pick a tick that is due over the cancelled context; how often it does is not modelled, so the bound counts the steps between two such picks.
- Shutdown.GracefulShutdown: HTTP handlers still running when the drain times out are creators of the protocol, whose late statements fail harmlessly on a closed pool.
- Migrations.Migrator.Migrate: bodies are atomic effects of a transaction; what a body does to the schema is not modelled.
- SqlNames.NormalisersAgree: text is a sequence of code points; invalid UTF-8 is not modelled. That the actual query constants have distinct tokens is an assumption of `Registry`.
- Recorders.RecordedIsSentIff: codes outside 100-999, on which net/http panics, and hijacked connections are not modelled.
- JSON decoding, request identifiers, redaction, level endpoint, configuration, exporters, histograms and exemplars: single-branch plumbing.
- Prometheus rules, dashboards, Logstash, Kibana, Docker and the other scripts: configuration for engines outside the repository.
