# Verified model of go-telemetry

A Dafny model of the parts of go-telemetry that keep state: the Loki log shipper, the gRPC client
stream span, the exporting slog handler, configuration from the environment, the provider's life
cycle, and the GC pause gauge.

`dafny verify dfyconfig.toml` checks everything.

## How it is built

**The Loki sender** has two layers.

* `LokiProtocol.dfy` is a transition system. Its actions are the regions of the program that other
  goroutines can interleave with: a send on the full channel and `dropped.Add` are two actions, and
  so are token acquire and `wg.Add`, token release and `wg.Done`, the final empty poll and the final
  flush. Producers and push goroutines are unbounded, the five constants are symbolic, and a run is
  any finite sequence of enabled actions. `LokiInvariants.dfy` proves what every action keeps;
  `LokiDelivery.dfy`, `LokiOutcome.dfy`, `LokiDrain.dfy`, `LokiShutdown.dfy`, `LokiLate.dfy`,
  `LokiLoss.dfy` and `LokiArrival.dfy` draw the whole-run results.
* `LokiSender.dfy` is the same sender as a class on the heap, with the batch slice, its reused
  backing array and the copies made by `flush`. Every method refines one action, and `Execute` runs
  any interleaving. `LokiPush.dfy` has the loops of `push` (grouping, label copies, retries) and ties
  them to the fates of the protocol.

**The stream span** (`ClientStream.dfy`) is given twice: as the mutating objects, for one goroutine,
and as a transition system in which any number of failing calls interleave at each span operation.
`SpanErrors.dfy` says which errors are sure to reach the span, by the calls that fail, and
`SpanSendRecv.dfy` says it for the use that gRPC allows: one goroutine sends and one receives.

**The exporting handler** (`ExportHandler.dfy`), **the environment** (`Environment.dfy`), **the
provider** (`Provider.dfy`) and **the gauge** (`RuntimeMetrics.dfy`) are methods with loops, each
proved against a function whose properties are then proved as lemmas.

Outcomes of code outside the repository are parameters: whether an HTTP attempt, a building step, a
shutdown function or the inner slog handler succeeds, what the embedded gRPC stream returns, and the
contents of the environment.

## Where the code and its documentation differ

* `LokiExporter.Shutdown` "flushes buffered log entries". A nil return does not mean that they were
  posted (`NilShutdown` gives the possible fates). It can fail in two ways.
  * An entry stays in the channel. That is excluded if and only if no send can happen after `Shutdown`
    is called (`NothingLeftIff`): from every state one late send is enough (`LateOfferIsLeft`).
  * An entry accepted before the call is dropped at the semaphore: `NilShutdownLosesEntry` is an input,
    with no send after the call. Losses are excluded if and only if the demand at the call is low enough:
    the tokens taken, plus one for a batch that is being handed over, one for a non-empty current batch,
    one for each queued entry and one for each send still to come, are at most maxPush (`NoLossIff`, and
    `NilReturnLosesNothingIff` for the nil returns). Then a nil return has posted every entry accepted
    before the call, successfully or until the attempts ran out (`ShutdownPostsEverything`).
* `pushAsync` is said to cap concurrent goroutines at 2. The semaphore caps token holders
  (`SemaphoreAccounting`); goroutines that have released their token but not called `wg.Done` come on
  top (`PushersBeyondCap`) and are not capped (`WaitGroupUnbounded`).
* `lokiMaxBatch` does not limit the batch of the drain: `DrainBatchExactly` gives its contents, and so
  when it is larger; `DrainBoundIsReached` is a run.
* `OTEL_TRACES_EXPORTER` is documented to override the configuration. One recognised name does not
  override a non-empty `Config.Exporters`: `VariableDecides` gives the exact condition and
  `SingleNameIsIgnored` an input.
* `ConfigFromEnv` "returns a copy of cfg". A non-nil `ResourceAttributes` map is shared and written
  in place (`ConfigFromEnv`, with an input in `CallerMapIsWritten`); `CallerMapUnchangedIff` says when
  that does not show.

The code is also silent on this: when several goroutines use one stream, an error can be missing from
its span. With one sender and one receiver only their first errors count: `FirstReceiveDecidesStatus` and
`FirstErrorIsRecordedIff` give the exact conditions. `StatusIsErrorIff` and `ErrorIsRecordedIff` do so
for callers that let calls of one kind overlap.

## Model

| member | source | states |
|---|---|---|
| LokiInvariants.FifoStep | logger/loki.go:69-120 | every action keeps the FIFO equation: flushed batches, then the batch, then the channel, are the accepted entries, and offered = accepted + refused |
| LokiInvariants.ControlStep | logger/loki.go:88-119 | every action keeps the batch limits at each program point, and only the last parcel can be in pushAsync |
| LokiInvariants.AccountsStep | logger/loki.go:142-155 | every action keeps the token count and the wait group counter equal to the counts of goroutines |
| LokiInvariants.QuittingStep | logger/loki.go:107-133 | every action keeps: past the final poll the channel holds only later entries; done is closed only at counter zero |
| LokiInvariants.DrainBoundStep | logger/loki.go:107-117 | every action keeps the size bound of the draining batch |
| LokiInvariants.WarningsStep | logger/loki.go:69-79 | every action keeps refused = dropped + pending adds, and that each number worth a warning is pending or was printed once |
| LokiInvariants.WgZero | logger/loki.go:64-65 | the counter is never negative, and is zero exactly when run is over and no pusher is left on it |
| LokiInvariants.InvRun | logger/loki.go:56-155 | the whole invariant holds after any run from a state that has it |
| LokiDelivery.ParcelsAreSlices | logger/loki.go:69-120 | in every reachable state each flushed batch is the next consecutive slice of the accepted sequence |
| LokiDelivery.HandedIsStable | logger/loki.go:88-104 | over any run, batches handed over keep their contents and the accepted log only grows |
| LokiDelivery.Conservation | logger/loki.go:69-195 | every offered entry is in exactly one of: refused, channel, batch, pushAsync, in flight, lost at the semaphore, delivered, failed; refused = dropped + producers before the add |
| LokiOutcome.OutcomeIsAttempts | logger/loki.go:142-195 | in every run a batch is delivered if and only if one of its attempts succeeded, and failed if and only if exactly maxRetries attempts failed and none succeeded; lost batches and those at the semaphore have had none |
| LokiOutcome.NilReturnAttempts | logger/loki.go:123-195 | after a nil return every batch was dropped without an attempt, or had one success, or maxRetries failures |
| LokiOutcome.ArrivedIsDelivered | logger/loki.go:142-195 | in every run the entries that arrived are those of the delivered batches, each once |
| LokiDelivery.WaitGroupDiscipline | logger/loki.go:64-65 | the counter is run plus its pushers, and neither Add nor Done ever meets zero |
| LokiDelivery.ZeroStaysZero | logger/loki.go:123-133 | once zero the wait group counter stays zero in every continuation |
| LokiDelivery.WaitGroupUnbounded | logger/loki.go:149-154 | for every n some run reaches counter 1 + n with no token out |
| LokiDelivery.PushersBeyondCap | logger/loki.go:140-154 | live push goroutines, plus a token holder not spawned yet, are the tokens out plus those between releasing a token and wg.Done; so only these can go beyond maxPush |
| LokiOutcome.LiveAreSpawnedNotDone | logger/loki.go:149-154 | in every run live push goroutines plus those that are over are as many as were spawned, and the goroutine of a batch is over if and only if it has called wg.Done |
| LokiDelivery.SemaphoreAccounting | logger/loki.go:142-155 | tokens out are the holders' and at most maxPush, which is 2 in the code; giving one back never blocks |
| LokiDelivery.LostOnlyWhenSaturated | logger/loki.go:143-148 | a lost batch was dropped in a state where maxPush earlier batches held all tokens |
| LokiDelivery.BatchBounds | logger/loki.go:88-117 | below maxBatch at the select, 1..maxBatch when flushed there, and the drain's batch within its bound, 1123 with the code's constants |
| LokiDelivery.DropWarnings | logger/loki.go:69-79 | n finished refusals printed exactly the numbers 1 and the multiples of warnEvery up to n, once each: 1 + n/100 warnings with the code's constants (none for n = 0), in any interleaving |
| LokiDrain.DrainBoundIsReached | logger/loki.go:107-117 | with nothing accepted after quit, the drained batch can have all maxBatch - 1 + queueSize entries |
| LokiDrain.DrainBatchExactly | logger/loki.go:107-117 | in any run the drain hands over exactly the batch and channel at the time quit was seen plus what was accepted until the empty poll; so it exceeds maxBatch if and only if these do |
| LokiDrain.DrainCanGoOn | logger/loki.go:109-112 | producers that keep sending can prolong the drain by any number of entries |
| LokiShutdown.DoneMeansQuiet | logger/loki.go:123-129 | done closed means: run over, batch empty, no token, every batch settled |
| LokiShutdown.NilShutdown | logger/loki.go:107-155 | after a nil return everything accepted before quit closed is in a batch delivered, failed after the last attempt, or lost; the channel holds what was accepted after the final poll |
| LokiShutdown.NothingLeftBehind | logger/loki.go:107-117 | after a nil return everything accepted was handed over if and only if nothing was accepted after the final poll |
| LokiShutdown.NilShutdownLeavesEntry | logger/loki.go:252-255 | a run that returns nil with an accepted entry in the channel |
| LokiLate.NothingLeftWithoutOffers | logger/loki.go:123-133 | with no send after shutdown begins, a nil return has handed over everything ever accepted |
| LokiLate.ToNilReturn | logger/loki.go:107-155 | from every state past the final poll some run returns nil with the channel as it is |
| LokiLate.LateOfferIsLeft | logger/loki.go:107-133 | from every state in which shutdown can be called, a continuation with one send returns nil and leaves that entry in the channel |
| LokiLate.NothingLeftIff | logger/loki.go:252-255 | whenever shutdown is called: with at most k sends to come, a nil return is sure to leave nothing if and only if k = 0 |
| LokiLate.ReturnErrorGoesOn | logger/loki.go:123-133 | at any time while it waits shutdown can return its context's error; this stops nothing, and background steps alone can still hand over everything accepted before the call and close done |
| LokiLoss.LowDemandLosesNothing | logger/loki.go:142-155 | from any state: a continuation loses no batch if the demand for tokens and its sends are together at most maxPush |
| LokiLoss.ShutdownCanLose | logger/loki.go:123-155 | whenever shutdown is called and demand plus k exceeds maxPush, a continuation with at most k sends loses a batch and still returns nil |
| LokiLoss.NoLossIff | logger/loki.go:252-255 | whenever shutdown is called: with at most k sends to come, no continuation loses a batch if and only if the demand at the call plus k is at most maxPush |
| LokiLoss.NilReturnLosesNothingIff | logger/loki.go:252-255 | the same condition for the continuations that return nil |
| LokiLoss.ShutdownPostsEverything | logger/loki.go:123-195 | under that condition, after a nil return every batch not lost before the call was delivered or failed at the last attempt, and the batches hold everything accepted before the call |
| LokiLoss.NilShutdownLosesEntry | logger/loki.go:252-255 | with maxPush pushes under way and one entry queued, a shutdown without sends returns nil and has dropped that entry |
| LokiShutdown.StepDecreases | logger/loki.go:98-133 | every non-producer step lowers the measure, except a tick on an empty batch, which changes nothing |
| LokiShutdown.WorkIsBounded | logger/loki.go:98-155 | without producers any run makes, besides ticks, at most (R+8) steps for each queued entry, R+6 for each entry of the batch, R+5 for each batch not finished, 2 for each refused producer, 1 for each pending comparison, and 8 more, where R = maxRetries |
| LokiShutdown.NoDeadlock | logger/loki.go:98-133 | after quit closes, until done closes, a step of the batcher, a pusher or the waiter, other than a tick, is enabled |
| LokiShutdown.DrainCompletes | logger/loki.go:123-130 | once batcher, pushers and waiter cannot move, whatever producers are doing, done is closed and shutdown able to return nil |
| LokiSender.Sender.constructor | logger/loki.go:56-67 | a new sender represents the initial state |
| LokiSender.Sender.Append | logger/loki.go:101 | append extends the batch by one, in place or in a fresh array |
| LokiSender.Sender.FlushBatch | logger/loki.go:88-96 | a fresh slice with the batch's contents is handed over and the batch truncated in place |
| LokiSender.Sender.TrySend | logger/loki.go:70-72 | the send succeeds exactly while the queue has room, appends at the end, and never blocks |
| LokiSender.Sender.CountDropped | logger/loki.go:74 | the add returns the new total |
| LokiSender.Sender.Enqueue | logger/loki.go:69-79 | an undisturbed enqueue either queues the entry or counts it and warns exactly on the warning numbers |
| LokiSender.Sender.ReceiveEntry | logger/loki.go:100-101 | a receive moves the oldest entry to the end of the batch |
| LokiSender.Sender.CheckSize | logger/loki.go:102-104 | flushes exactly at maxBatch, into a fresh slice |
| LokiSender.Sender.OnTick | logger/loki.go:105-106 | a tick flushes a non-empty batch into a fresh slice |
| LokiSender.Sender.FlushAndReturn | logger/loki.go:113-115 | the final flush of the drain |
| LokiSender.Sender.Drain | logger/loki.go:107-117 | undisturbed, the drain leaves the channel empty and one fresh slice with the batch and the whole channel in order |
| LokiSender.Sender.TryToken | logger/loki.go:143-148 | takes a token while one is free, otherwise drops the batch |
| LokiSender.Sender.AddToGroup | logger/loki.go:149 | wg.Add refines its action |
| LokiSender.Sender.GroupDone | logger/loki.go:151 | wg.Done of run or a pusher refines its action |
| LokiSender.Sender.ReleaseToken | logger/loki.go:152 | the deferred receive refines its action |
| LokiSender.Sender.BeginShutdown | logger/loki.go:124 | closing quit refines its action |
| LokiSender.Sender.Execute | logger/loki.go:81-155 | any interleaving refines the protocol; slice i holds parcel i, and slices already handed over never change although the backing array is reused |
| LokiPush.GroupByLevel | logger/loki.go:157-163 | byLevel has exactly the levels that occur, each with its values in entry order |
| LokiPush.OfLevelIsFilter | logger/loki.go:159-163 | the entries of a level are a subsequence of the batch with exactly that level's entries, each as often as it occurs |
| LokiPush.StreamLabels | logger/loki.go:167-171 | a fresh map equal to the configured labels overridden at "level" only |
| LokiPush.BuildStreams | logger/loki.go:165-173 | one stream for each level, in whatever order the map is iterated; the configured labels are unchanged |
| LokiPush.GroupingIsPartition | logger/loki.go:157-173 | no stream is empty, levels are distinct, and the values are the entries' values, each once |
| LokiPush.EndToEndOrder | logger/loki.go:69-173 | over all batches in flush order, the streams of a level carry that level's part of a prefix of the accepted entries, in order |
| LokiArrival.OneTokenKeepsOrder | logger/loki.go:142-155 | with one token, batches arrive in flush order in every run |
| LokiArrival.Overtaking | logger/loki.go:142-155 | with two or more, for any two entries a run that accepts them in one order and delivers them in the other |
| LokiArrival.ArrivalOrderIff | logger/loki.go:142-155 | batches arrive in flush order in every run if and only if maxPush = 1 |
| LokiArrival.OneTokenKeepsLevels | logger/loki.go:142-195 | with one token, the lines of a level that arrive are a subsequence of that level's accepted lines |
| LokiArrival.TwoTokensInvert | logger/loki.go:142-195 | with two or more, for every level a run in which two lines of that level arrive in inverted order |
| LokiArrival.LevelOrderIff | logger/loki.go:142-195 | for every level: its lines arrive in the order in which they were accepted, in every run, if and only if maxPush = 1 |
| LokiPush.SendWithRetries | logger/loki.go:183-194 | 1..N attempts with the same body, stopping at the first success, failing only after N; sleeps double |
| LokiPush.TotalSleep | logger/loki.go:184-189 | k attempts sleep b * (2^(k-1) - 1) in total |
| LokiPush.PushTime | logger/loki.go:21-25 | at most 600 ms of sleep and 15.6 s in all with the code's constants |
| LokiPush.RetriesRefine | logger/loki.go:185-193 | the retry loop is a run of the protocol's attempts to the outcome it reports |
| LokiPush.Push | logger/loki.go:157-195 | the goroutine of a batch posts one payload grouped from exactly the flushed entries, its labels overridden at "level" only, until accepted or out of attempts |
| ClientStream.OtelSpan.SetError | tracer/tracer.go:101-108 | attribute, event and status together on an open span; nothing for nil or on an ended span |
| ClientStream.OtelSpan.End | tracer/tracer.go:99 | ends the span and keeps the rest |
| ClientStream.WrappedClientStream.EndSpan | middleware/grpc_client.go:141-143 | only the first call ends the span |
| ClientStream.WrappedClientStream.SendMsg | middleware/grpc_client.go:145-152 | returns the stream's result; any error marks and ends the span |
| ClientStream.WrappedClientStream.RecvMsg | middleware/grpc_client.go:154-163 | returns the stream's result; io.EOF ends without marking |
| ClientStream.OpenStream | middleware/grpc_client.go:112-132 | without a stream the span is marked and ended at once; otherwise left open for the wrapper |
| ClientStream.NoFailure | middleware/grpc_client.go:145-163 | calls that succeed leave the span untouched |
| ClientStream.FirstFailureDecides | middleware/grpc_client.go:145-163 | used by one goroutine, the first failing call fixes event and status for good: its error, unless RecvMsg saw io.EOF |
| ClientStream.UseStream | middleware/grpc_client.go:135-163 | for the objects, over any sequence of calls: the first failure leaves one event and the status with its error, or, for RecvMsg with io.EOF, an ended span without either; no failure leaves it open |
| ClientStream.InvStep | middleware/grpc_client.go:141-163 | every operation of every call keeps the span and once invariant |
| ClientStream.SpanLifecycle | middleware/grpc_client.go:135-163 | in every interleaving: End at most once, errors returned only after it, status implies event implies error=true, and an unset final status means RecvMsg's io.EOF ended the span |
| ClientStream.StatusIffMarkedBeforeEnd | middleware/grpc_client.go:145-163 | a SetStatus before End is what decides the final status: later marks are ignored, earlier ones stay |
| SpanErrors.CompleteOwnedBy | middleware/grpc_client.go:145-163 | for any failing calls and any one of them, a completed run of overlapping calls in which that call alone decides the span |
| SpanErrors.StatusIsErrorIff | middleware/grpc_client.go:145-163 | if calls can overlap freely: every completed run of given failing calls ends with an error status if and only if none of them is RecvMsg returning io.EOF |
| SpanErrors.ErrorIsRecordedIff | middleware/grpc_client.go:145-163 | if calls can overlap freely: a call's error is recorded in every completed run if and only if every other failing call marks the span with that same error |
| SpanErrors.OwnErrorIsRecordedIff | middleware/grpc_client.go:145-163 | so an error no other call shares is sure to be recorded if and only if no other call fails |
| SpanSendRecv.FirstsRun | middleware/grpc_client.go:141-163 | with one sender and one receiver: until the span has ended no kind fails twice, and the call that ends it and the events come from first failures, in every run |
| SpanSendRecv.OneDirectionFirst | middleware/grpc_client.go:145-163 | for any errors of sender and receiver, a completed run in which one direction's first error alone decides the span |
| SpanSendRecv.SecondDecides | middleware/grpc_client.go:145-163 | a failing send and a failing receive can be under way together, and whichever starts second can decide the span alone |
| SpanSendRecv.FirstReceiveDecidesStatus | middleware/grpc_client.go:145-163 | with one sender and one receiver: every completed run ends with an error status if and only if the receiver's first error is not io.EOF |
| SpanSendRecv.OnlyFirstsAreRecorded | middleware/grpc_client.go:145-163 | every recorded error is the first of its direction and not the receiver's io.EOF |
| SpanSendRecv.FirstErrorIsRecordedIff | middleware/grpc_client.go:145-163 | an error is recorded in every completed run if and only if it is the first error of each direction that fails, and not the receiver's io.EOF |
| ClientStream.SomeCallMoves | middleware/grpc_client.go:141-143 | waiting on the once never deadlocks, and a call can fail at any time |
| ClientStream.OneCallAtATime | middleware/grpc_client.go:145-163 | undisturbed calls of the transition system do what the objects do |
| ClientStream.ConcurrentErrorCanBeLost | middleware/grpc_client.go:145-163 | an interleaving in which a send error leaves no trace on the span |
| ExportHandlers.MergeConcat | logger/export_handler.go:35-43 | writing attributes one by one is right-biased map union |
| ExportHandlers.LastWins | logger/export_handler.go:37-43 | a key has the value of its last attribute |
| ExportHandlers.OnlyGivenKeys | logger/export_handler.go:35-43 | the exported keys are the keys of the attributes |
| ExportHandlers.PutAll | logger/export_handler.go:37-43 | the loop writes the attributes over those written before |
| ExportHandlers.ExportHandler.Handle | logger/export_handler.go:25-52 | exports time, level, message, and the merge of message, own and record attributes; nothing if the inner handler fails |
| ExportHandlers.ExportHandler.WithAttrs | logger/export_handler.go:54-63 | the child's array is fresh: it aliases neither the parent's nor the caller's |
| ExportHandlers.ExportHandler.WithGroup | logger/export_handler.go:65-71 | the child shares the parent's attributes; only the inner handler sees the group |
| ExportHandlers.GrowTree | logger/export_handler.go:54-71 | in any derivation tree every node has exactly the attributes of its own path: its parent's, then those it was given |
| ExportHandlers.ChainingIsConcatenation | logger/export_handler.go:54-71 | chained WithAttrs equal one call on the concatenation, groups in between or not |
| ExportHandlers.NewWithExporter | logger/logger.go:65-73 | the root logger carries service.name and service.version, and so does its inner handler |
| ExportHandlers.Log | logger/logger.go:75-106 | any derived logger exports an entry with message, service, path attributes, the three trace fields if there is a valid span context and none otherwise, and call fields, each layer over the ones before |
| ExportHandlers.TraceLayer | logger/logger.go:75-86 | a valid span context contributes trace_id, span_id and trace_flags, an invalid one nothing |
| ExportHandlers.TraceFieldsVisible | logger/logger.go:75-86 | trace fields are exported unless the call's own fields hide them |
| Environment.ParseConcat | env.go:78-88 | parsing a + "," + b is parsing a, then b, into the same map |
| Environment.PairRoundTrip | env.go:82-86 | a writable pair, printed and parsed, comes back |
| Environment.ParsedIsWritable | env.go:82-86 | every pair the parser stores is writable |
| Environment.PaddingIsIgnored | env.go:83 | white space around an item makes no difference |
| Environment.ParseOneItem | env.go:82-87 | any item, trimmed: the text before its first = is set to the text after it if there is a = and something before it; otherwise nothing changes |
| Environment.PrintedAreAdded | env.go:78-88 | parsing printed writable pairs adds exactly them to any map |
| Environment.RoundTrip | env.go:78-88 | a map printed in any order comes back if and only if all its pairs are writable |
| Environment.RecognisedConcat | env.go:37-50 | recognising names distributes over comma concatenation |
| Environment.OneName | env.go:37-49 | any item, trimmed: otlp, prometheus, none and stdout in any mixture of cases mean the otlp, prometheus, noop and stdout exporters; nothing else is recognised |
| Environment.ParseExporters | env.go:38-50 | the loop collects the recognised names in order |
| Environment.ParseAttributes | env.go:82-87 | the loop writes the parsed pairs into the map in place |
| Environment.ConfigFromEnv | env.go:30-88 | exporter, exporter list and resource attributes of the result, for a set and an unset variable; the caller's own map is the one written, and is left as it was if and only if it already held every pair |
| Environment.CallerMapUnchangedIff | env.go:78-88 | the caller's map is left as it was if and only if it already held every pair of the variable |
| Environment.CallerMapIsWritten | env.go:78-88 | a configuration whose own map ConfigFromEnv changes |
| Environment.EffectiveExporters | telemetry.go:124-131 | New's exporter list |
| Environment.VariableDecides | telemetry.go:124-131 | New exports to the recognised names if and only if there are several, or one and the configured list does not stand against it |
| Environment.ExportersFromEnv | telemetry.go:124-131 | the exporters of a provider configured from the environment, in every case, and when they are the recognised names |
| Environment.SingleNameIsIgnored | env.go:51-55 | a configuration for which a single recognised name has no effect |
| Providers.ReverseAt | telemetry.go:191-193 | the release order is the registration order read backwards |
| Providers.ShutdownErrors | telemetry.go:191-202 | the errors are those of the functions that fail, each as often as it is registered, in release order; there is none if and only if nothing fails |
| Providers.Provider.Shutdown | telemetry.go:191-202 | every function runs, last registered first, whatever fails; the errors are exactly those of the failing functions, in that order |
| Providers.New | telemetry.go:94-172 | on failure all that was acquired has been released again; on success the provider owns exactly it |
| Providers.NewAndShutdown | telemetry.go:94-202 | over a whole life every resource acquired is released once, in reverse order, and exactly the failing ones are reported |
| RuntimeMetrics.GcPauseNs | meter/runtime.go:37-46 | the loop computes the midpoint sum of the counted buckets in nanoseconds, infinities and not-a-number included |
| RuntimeMetrics.FiniteIff | meter/runtime.go:39-45 | for any edges the sum is finite if and only if the buckets with an infinite edge are empty |
| RuntimeMetrics.GuardIsNeeded | meter/runtime.go:40 | without the test of the count one empty bucket with an infinite edge would make the sum not a number |
| RuntimeMetrics.SumIsPulled | meter/runtime.go:39-45 | for increasing edges: a count below the first finite edge makes the sum -Inf, one above the last +Inf, both make it not a number; otherwise it is finite |
| RuntimeMetrics.MidpointSumIsWeighted | meter/runtime.go:39-45 | a finite sum is the count-weighted sum of the midpoints of the bounded buckets |
| RuntimeMetrics.WeightedIsPerPause | meter/runtime.go:37-46 | a count-weighted sum over buckets is a sum over the pauses |
| RuntimeMetrics.SumsAreWithin | meter/runtime.go:37-46 | midpoint, width and edge sums of a histogram against the total of the pauses in it |
| RuntimeMetrics.EstimatePauses | meter/runtime.go:37-46 | with outer edges that may be infinite: when the gauge is finite, -Inf, +Inf or not a number; when finite it is 1e9 times the sum of the midpoints of the pauses' buckets, off by at most half the count-weighted widths and between the edge sums |
| RuntimeMetrics.BoundedPauses | meter/runtime.go:37-46 | two pauses in the bucket from 0 to 1 second are reported as 1e9 ns |
| RuntimeMetrics.UnboundedPauses | meter/runtime.go:37-46 | histograms that report -Inf, +Inf and not a number |

## Left out

- HTTP transport, JSON encoding, the endpoint string and stderr text of the Loki sender: an attempt succeeds or fails, and a warning is its number.
- The error branch of `json.Marshal` in `push` (logger/loki.go:176-179): the payload is made of strings, slices and string maps, which always encode.
- Timestamps in the payload are the integer nanoseconds, not their decimal text.
- Time: the ticker is an event that can happen at any time, and the backoff sleeps are not steps of the protocol; their lengths are in LokiPush.
- A second call of `shutdown`, which would close `quit` twice: the protocol has one call.
- The Go memory model below the level of channel, atomic, wait group and once operations; variables local to one goroutine change with the operation they follow.
- Integer width: `dropped` and the backoff are unbounded integers.
- Calls of SendMsg and RecvMsg that succeed, in the concurrent span model: they do not touch the span. Header, Trailer and CloseSend are not wrapped by the source.
- UnaryClientInterceptor, the server interceptors and the HTTP middleware: straight-line use of the same span.
- slog itself: argument pairs are given as attributes, With and WithGroup calls that slog skips (no arguments, empty name) are not in the tree, and group nesting in the inner JSON output is not modelled. The level check is left out as well.
- Log entry attribute values are strings; they are copied and never inspected.
- The other OTEL variables: plain overwrites, and the sampling ratio, where `New` reads 0 as unset.
- Environment.Lower: maps ASCII letters only; no other letter lowers to a letter of the four recognised names.
- Text is a sequence of code points; invalid UTF-8 is not modelled.
- ForceFlush, the global OpenTelemetry providers, and what the building functions of internal/export do before they fail.
- RuntimeMetrics.EstimatePauses: exact reals; floating point rounding is not modelled.
- ClientStream.OpenStream: start attributes and the injection of trace metadata are not modelled; they do not touch the error marking.
- ExportHandlers.NewWithExporter: the returned shutdown function is the exporter's own and is not modelled here.
- Environment.ConfigFromEnv: the overrides of the other variables in the cited lines are not modelled.
