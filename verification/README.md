# A verified model of the franz-go adapter

`llingr-adapter-franz` connects a record-processing engine to Kafka through the franz-go client. Three
parties run at once: a fetch goroutine that alone may park inside the client, the engine's polling loop,
and the client's own rebalance callbacks. They meet over two unbuffered channels, a done-channel, a mutex
and the client's poller registration, which blocks every rebalance while it is held.

The model is written in Dafny. Verify it with `dafny verify dfyconfig.toml`.

| file | what it holds |
|---|---|
| `GateProtocol.dfy` | the gate protocol as a labelled transition system and its inductive invariant |
| `GateTheorems.dfy` | what the protocol guarantees in every run |
| `Adapter.dfy` | `Poll`, `processPendingRebalances`, the callbacks, `fetchNext` and `runFetchLoop` as a class whose methods take only the protocol's steps |
| `AssignQueue.dfy` | the queue of assigns: merging, taking, putting back |
| `Baseline.dfy` | the entries the engine is told of an assign or a revoke, and their committed offsets |
| `Keys.dfy`, `PollErrors.dfy` | the error tracker's string keys, its step, and the code that computes it |
| `PollHistory.dfy`, `LogThrottle.dfy` | what the tracker's state, bail and log mean over whole histories |
| `Options.dfy` | the adapter's options, and the bounds they put on the bail |
| `Shutdown.dfy` | stopping: any number of `Unsubscribe` callers and bails |
| `Bandwidth.dfy` | the per-partition bandwidth accumulators |
| `Prelude.dfy` | options and a few facts about sequences and sets |

## How to read it

**The protocol.** A `GateProtocol.State` holds both goroutines' positions, the fields `pendingAssigned`,
`pendingRecord` and `recordAwaitingDispatch`, the client's registration, whether a rebalance runs, whether
the fetch context is cancelled, and the histories the theorems speak of: records accepted by the fetch loop,
returned by `Poll`, dispatched by the engine, and partitions assigned and accepted. A `Label` is one atomic
step of one party. The two critical sections of `processPendingRebalances` are separate steps, the
trigger between them may fail, and `OnAssigned` may come anywhere.

**The client.** Its side of the bargain is `GateProtocol.ClientMayAnswer` and `WorldEnabled`, taken from the
comments at franzadapter/adapter.go:113-124 and franzadapter/rebalance.go:25-45: a poll asks for at most one record; a record
comes with a registration; a poll with neither record nor error leaves none; no rebalance starts while a
registration is held, and none is made during a rebalance. A fetch that carries only errors may or may not
keep its registration; the model allows both (`leftover`). `ForceOpen`, the client's close, happens only after
cancellation, because `releaseBroker` cancels first.

**The engine.** It dispatches the record it was given before it calls `Poll` again, and accepts or refuses an
assign.

**The code.** `AdapterPort.Adapter` has the adapter's fields and its methods, statement by statement. Each
method extends a ghost run of the protocol from the state it was called in, and lets the other parties take
any steps of theirs where the code waits, unlocks or calls out. Those steps, timers and the engine's answers
come as a schedule argument, over which everything is quantified; `Scheduled` is where a schedule leads. `Valid()` says that the adapter's state is
one the protocol reaches, so every theorem about reachable states holds between calls.

## Where the code and its documentation part

- The comment at franzadapter/adapter.go:113-124 says that a rebalance can never begin with a record fetched but
  undispatched. That holds until cancellation. The exit paths at franzadapter/broker_port.go:227-237 run the deferred
  `AllowRebalance` with a delivered record still in the engine's hands.
  `GateTheorems.CancelledLoopOpensGateEarly` gives such a run, and `GateTheorems.GateShutUnlessAbandoned` the
  exact condition: with a record outstanding, the gate is open if and only if the loop has run its exit
  `AllowRebalance` or the close has forced it.
- `newOffsetFetcher`'s comment (franzadapter/adapter.go:278-279) says that partitions without a committed offset are omitted.
  `mapCommittedOffsets` keeps them, at whatever negative offset the response carries, and `triggerAssign` turns a
  negative offset into -1. `Baseline.TriggerAssign` follows the code; the entries come out the same.
- The error maps' key `topic-partition` is not injective over all integers: a negative partition of `t` and a
  positive one of `t-` meet. `Keys.KeysCoincideExactly` says when; partitions of real topics are never
  negative, and there the key is faithful.
- An error whose text happens to be `kafka:<code>` has a protocol error's fingerprint.
  `Keys.IdentitiesCoincideExactly` says when two fingerprints coincide.

## Model

| member | source | states |
|---|---|---|
| GateProtocol.StepKeepsInv | franzadapter/broker_port.go:140-244 | every step of the fetch loop, of Poll, of the engine and of the client keeps the protocol's invariant: where each record is, who owes whom a signal, when the gate is held, the counts, the topic, the assign queue |
| GateProtocol.LoopKeepsHandling | franzadapter/broker_port.go:205-306 | no step of the fetch loop loses, repeats or reorders a record, or lets a foreign one through |
| GateProtocol.LoopKeepsProtocol | franzadapter/broker_port.go:205-244 | every step of the fetch loop keeps the strict alternation of records and signals, and the gate shut while it guards a record |
| GateProtocol.PollKeepsHandling | franzadapter/broker_port.go:140-197 | every step of Poll keeps the accepted records equal to the returned ones, then the one Poll carries or has stashed, then the one the loop holds |
| GateProtocol.PollKeepsProtocol | franzadapter/broker_port.go:140-197 | every step of Poll keeps the alternation and the gate |
| GateProtocol.PollKeepsQueue | franzadapter/rebalance.go:66-93 | swap, trigger and re-queue keep each topic's accepted, in-flight and pending partitions concatenating to those ever assigned |
| GateProtocol.WorldKeepsAssigns | franzadapter/rebalance.go:15-21 | OnAssigned, landing between any two of Poll's steps, keeps the queue conserved and never adds to it while a record Poll has settled is outstanding |
| GateProtocol.ReachableInv | franzadapter/adapter.go:104-135 | the invariant holds in every reachable state |
| GateTheorems.CommitBeforeRelease | franzadapter/rebalance.go:23-45 | while a rebalance runs and the context is not cancelled, accepted, returned and dispatched records are the same sequence, nothing is stashed or in hand, and a revoke's drain sees all of them; a revoke leaves queued assigns alone |
| GateTheorems.RebalanceDeliversNothing | franzadapter/adapter.go:113-124 | from any point of a rebalance to any later one before its end, nothing is fetched, returned or dispatched |
| GateTheorems.GateShutUnlessAbandoned | franzadapter/broker_port.go:205-244 | with an accepted record undispatched, a rebalance runs or can start if and only if the loop has run its exit AllowRebalance or the close forced the gate, and that only after cancellation |
| GateTheorems.CancelledLoopOpensGateEarly | franzadapter/broker_port.go:225-238 | a run in which cancellation lets a rebalance start with a returned record undispatched, and the drain misses it |
| GateTheorems.HandOverExactlyOnce | franzadapter/broker_port.go:140-197 | in every run the dispatched, returned and accepted records are prefixes of one another, at most one apart; the rest is exactly what Poll carries or stashes, the loop holds, or was dropped, which happens only after cancellation and only to the last record |
| GateTheorems.AcceptsWhatIsOffered | franzadapter/broker_port.go:214-264 | the loop accepts every record the client answers with, in order, as long as it runs; what it has accepted is always a prefix of that |
| GateTheorems.StashKeepsRecordAndSendsNoSignal | franzadapter/broker_port.go:153-166 | until Poll returns it, a record in Poll's hands or in the stash stays there through any number of failed triggers; no signal is sent, nothing else accepted or returned, and the gate not opened before the loop exits |
| GateTheorems.SignalWaitHasPeer | franzadapter/broker_port.go:145-151 | whenever a dispatch signal is owed the stash is empty and the loop is waiting for it or on its exit path |
| GateTheorems.SignalWaitEnds | franzadapter/broker_port.go:145-151 | from every such wait at most four steps, all of the loop's own deferred calls and the select's two arms, end it |
| GateTheorems.CancelledLoopWindsDown | franzadapter/broker_port.go:214-256 | once cancelled, loop steps are bounded by a rank on the loop's position whichever ready arm is taken; nothing more is accepted, at most one more client poll completes, at most one more record is handed over |
| GateTheorems.CancelledLoopCanStep | franzadapter/broker_port.go:214-256 | a cancelled loop that is not done has a step of its own enabled, and it lowers the rank |
| GateTheorems.AssignsConserved | franzadapter/rebalance.go:66-93 | for each topic, the partitions given to OnAssigned in a run, read off the run itself, are exactly those the engine accepted, then the batch in flight, then the queue, in order |
| GateTheorems.RunGives | franzadapter/rebalance.go:15-21 | the record kept of what OnAssigned was given is the concatenation of the batches in the run |
| GateTheorems.AssignsBeforeRecord | franzadapter/broker_port.go:157-196 | when Poll is about to return a record, and while the engine has it, the queue is empty and the engine has accepted every partition ever assigned, unless the gate was abandoned after cancellation |
| GateTheorems.EngineHasEveryAssign | franzadapter/broker_port.go:157-196 | under the same condition, the engine has accepted all that OnAssigned was given in the run |
| GateTheorems.OneAllowPerSignal | franzadapter/broker_port.go:206-243 | AllowRebalance calls equal dispatch signals, plus one on exit, less the one about to be made; while the loop runs the signals equal the records that have been through; after exit no registration is held |
| GateTheorems.GateHeldExactly | franzadapter/broker_port.go:205-244 | if fetches without a record gave their registration back, the gate is held exactly from a record's fetch to the AllowRebalance after its signal |
| GateTheorems.OnlyConfiguredTopic | franzadapter/broker_port.go:266-277 | with a configured topic no record of another is ever returned, in hand or stashed |
| GateTheorems.ForeignRecordEndsFetching | franzadapter/broker_port.go:266-277 | after the first foreign record, in every continuation, nothing is accepted and no client poll is made |
| AdapterPort.Adapter.Poll | franzadapter/broker_port.go:140-197 | a whole Poll is a run of the protocol under every schedule; it returns one record or none and appends it to the returned ones; a stashed record is returned, or stays stashed with an error; without a stash it takes exactly the record on offer at the first select or, unless the timer wins, at the second when its wait is over, and returns or, on a failed trigger, stashes it; it reports a closed client exactly when the channel is closed at that select; a failed trigger leaves assigns queued; before cancellation a returned record finds none |
| AdapterPort.ScheduleFollowsRun | franzadapter/broker_port.go:140-244 | the steps scheduled for other parties happen: any run of theirs can be scheduled to the letter |
| AdapterPort.Adapter.SignalDispatched | franzadapter/broker_port.go:145-151 | the signal at the top of Poll always completes, whatever the others do meanwhile: a loop found waiting takes it, any other is found done |
| AdapterPort.Adapter.BeginPoll | franzadapter/broker_port.go:145-166 | the signal, then the stash before the channel |
| AdapterPort.Adapter.Receive | franzadapter/broker_port.go:168-183 | the two selects: a record already on offer is never missed, nor a closed channel; otherwise what the second select finds decides, unless the timer wins |
| AdapterPort.Adapter.TimedReceive | franzadapter/broker_port.go:174-183 | the second select gives up with nothing exactly when the timer wins, or the loop is neither offering nor closed when its wait is over |
| AdapterPort.Adapter.ProcessPendingRebalances | franzadapter/rebalance.go:66-93 | swap, trigger and re-queue as separate sections with the others free in between; it fails exactly when there was something queued and the engine refused it; on failure Poll's record is stashed, on success it is kept for return |
| AdapterPort.Adapter.TriggerAssign | franzadapter/rebalance.go:78-89 | it fails exactly when the engine refuses, and then the queue is the refused batch followed by whatever OnAssigned was given meanwhile |
| AdapterPort.Adapter.SwapPending | franzadapter/rebalance.go:67-76 | the whole queue is taken, or nothing when it is empty |
| AdapterPort.Adapter.RequeueAndStash | franzadapter/rebalance.go:79-89 | the refused batch goes in front of whatever was queued since |
| AdapterPort.Adapter.AppendAll | franzadapter/rebalance.go:15-21 | the loop over the assigned map appends each topic's partitions to the queue, whatever the map's order |
| AdapterPort.Adapter.PrependAll | franzadapter/rebalance.go:83-87 | the loop over the refused map puts each topic's partitions in front, whatever the map's order |
| AssignQueue.MergeQueues | franzadapter/rebalance.go:17-19 | merging a batch behind a queue appends each topic's partitions and loses or invents no topic |
| AdapterPort.Adapter.OnAssigned | franzadapter/rebalance.go:15-21 | every topic's queue is what it was followed by the batch's partitions, and nothing else of the adapter or of either goroutine's position changes; a reachable protocol state becomes its assign step's outcome |
| AdapterPort.Adapter.OnRevoked | franzadapter/rebalance.go:46-59 | an empty revoke does nothing; any other drains inside the callback and leaves queued assigns alone |
| AdapterPort.Adapter.FetchNext | franzadapter/broker_port.go:250-306 | one client poll: unanswered exactly when the client may not answer so in the state it is in by then; exit exactly on a closed client, a cancelled context or a foreign record; otherwise the first record, or none, with the backoff exactly after an error that counts when it is enabled |
| AdapterPort.Adapter.OfferRecord | franzadapter/broker_port.go:225-232 | the first select: the record is handed over exactly when Poll is receiving and cancellation does not win, dropped only on cancellation |
| AdapterPort.Adapter.AwaitDispatched | franzadapter/broker_port.go:234-242 | the second select: the signal is taken and the gate opened exactly when the signal is offered and cancellation does not win; left only on cancellation |
| AdapterPort.Adapter.DeliverAndWait | franzadapter/broker_port.go:225-242 | the two selects on a record in hand and the AllowRebalance after its signal, as steps of the protocol; it gives up only after cancellation, and is stuck only while nobody receives or signals |
| AdapterPort.Adapter.RunFetchLoop | franzadapter/broker_port.go:205-244 | any number of passes under any schedule is a run of the protocol; each pass makes one client poll and accepts at most the record it offered; the loop is parked only on an unanswered poll or a peer that is not there; one that stops is done and holds no registration |
| AssignQueue.EnqueueConserves | franzadapter/rebalance.go:15-21 | appending a batch to the queue keeps every topic's conservation |
| AssignQueue.TakeConserves | franzadapter/rebalance.go:74-76 | so does the swap |
| AssignQueue.AcceptConserves | franzadapter/rebalance.go:78-79 | so does an accepted trigger |
| AssignQueue.PutBackConserves | franzadapter/rebalance.go:83-87 | so does the re-queue, with any assigns queued in between |
| Baseline.MapCommittedOffsets | franzadapter/adapter.go:305-318 | every answered topic, with exactly its partitions answered without an error, at the answered offsets |
| Baseline.LookupAssignmentOffsets | franzadapter/rebalance.go:156-178 | every partition's baseline is its committed offset when the lookup is on, wired in and answered, the partition has no error and the offset is at least 0; -1 otherwise |
| Baseline.BuildInfo | franzadapter/rebalance.go:102-121 | whatever the map's order, each topic's entries are its partitions in their order with their baselines |
| Baseline.TriggerAssign | franzadapter/rebalance.go:95-147 | end to end: the engine is told exactly the assigned partitions with the baseline the coordinator's answer warrants; no engine, nothing told and no failure |
| Baseline.OnRevoked | franzadapter/rebalance.go:46-59 | the engine is told exactly the revoked partitions, all at -1; a refusal is only logged; an empty revoke tells nothing |
| Baseline.TriggerRevoke | franzadapter/rebalance.go:180-204 | the revoke's entries, all at -1, and the engine's refusal passed on |
| Baseline.EntriesExactly | franzadapter/rebalance.go:102-121 | an entry appears as often as its partition was assigned if it carries that partition's baseline, and never otherwise |
| Baseline.PositionOnlyIfAnswered | franzadapter/rebalance.go:105-116 | an assign's entry has an offset of at least 0 exactly when the lookup is on and the coordinator answered that partition without an error with one, and then that one; -1 otherwise |
| Baseline.RevokeHasNoPosition | franzadapter/rebalance.go:185-196 | a revoke's entries are all at -1 |
| Keys.KeysCoincideExactly | franzadapter/broker_port.go:358 | when two topic-partitions share a map key |
| Keys.KeyFaithful | franzadapter/broker_port.go:358 | they do not, for partitions that are not negative |
| Keys.ItoaReadsBack | franzadapter/broker_port.go:358 | rendering is ordinary decimal: it reads back as the number, with a sign and no leading zero |
| Keys.IdentitiesCoincideExactly | franzadapter/broker_port.go:400-406 | when two errors count as the same |
| PollErrors.GuardRefines | franzadapter/broker_port.go:333-348 | skipping the recovered set changes no map, line, bail or result |
| PollErrors.StepKeepsDomains | franzadapter/broker_port.go:336-387 | the three maps always have the same keys |
| PollErrors.OneLengthTestSuffices | franzadapter/broker_port.go:337-338 | so one of the guard's three length tests decides |
| PollErrors.ErrorTracker.HandlePollErrors | franzadapter/broker_port.go:315-393 | the code's maps, log, bail reason and result are those of the unguarded step |
| PollErrors.ErrorTracker.VisitError | franzadapter/broker_port.go:354-387 | one EachError callback, against the specification |
| PollErrors.ErrorTracker.LogError | franzadapter/broker_port.go:371-381 | one error: logged, and remembered as logged, exactly when it is not throttled |
| PollErrors.ErrorTracker.DeleteAll | franzadapter/broker_port.go:343-347 | the loop over recovered keys forgets exactly them, in any order |
| PollErrors.ErrorTracker.CollectRecovered | franzadapter/broker_port.go:339-342 | the set built is that of the delivering partitions' keys |
| PollHistory.StreakStateIsHistory | franzadapter/broker_port.go:330-369 | after any history pollErrSince has a key exactly when some poll saw a counted error from it and no later poll a record, dated by the first such poll |
| PollHistory.SawErrExactly | franzadapter/broker_port.go:354-392 | the result is true exactly when some partition really failed in this poll |
| PollHistory.LineTellsStreak | franzadapter/broker_port.go:364-381 | every line logged says for how long, by the history, its partition has been failing |
| PollHistory.LineReportsError | franzadapter/broker_port.go:355-378 | every line logged reports an error of its poll that is no timeout and whose partition delivered nothing |
| PollHistory.BailsExactlyWhenStuck | franzadapter/broker_port.go:364-391 | with a clock that never goes back, a bail happens if and only if it is enabled and some partition fails now, failed at least bailAfter ago, and delivered nothing since |
| PollHistory.BailNamesStuck | franzadapter/broker_port.go:383-391 | the reason given is the poll's last error of a partition failing for that long |
| LogThrottle.RunFollowsEvents | franzadapter/broker_port.go:343-381 | the log and the maps, seen from one partition, are a fold over its recoveries and failures |
| LogThrottle.LoggedExactly | franzadapter/broker_port.go:371-381 | the first failure of every run of one identity is logged; a later one exactly when the interval has passed since the last line |
| LogThrottle.ViewIsLatest | franzadapter/broker_port.go:373-381 | the remembered identity is always the latest failure's, logged or throttled |
| LogThrottle.LinesAreSpaced | franzadapter/broker_port.go:371-381 | lines beyond streak starts, recoveries and changes are an interval apart |
| LogThrottle.ThrottleBound | franzadapter/broker_port.go:371-381 | over any history a partition logs at most 1 + recoveries + identity changes + floor(time / interval) lines, the interval being the configured one, or a second if that is not positive |
| LogThrottle.PollLogsExactly | franzadapter/broker_port.go:325-381 | over any history: a partition that starts failing, or fails with a new identity, costs its poll one line; one that fails on with the same identity costs one exactly when the configured interval (a second if that is not positive) has passed since its last line, and none otherwise |
| Options.ClampIsNearest | franzadapter/adapter_options.go:163-187 | a positive bail setting becomes the nearest admissible one, any other disables; clamping is idempotent |
| Options.BackoffIsNearest | franzadapter/adapter_options.go:177-187 | the same of the backoff |
| Options.ProcessAdapterOptions | franzadapter/adapter_options.go:143-161 | the loop and the validation in place resolve to the fold over the defaults, clamped; nil options are skipped |
| Options.LastSettingWins | franzadapter/adapter_options.go:81-152 | of each kind of option the last setting decides, clamped or defaulted |
| Options.DefaultsStand | franzadapter/adapter_options.go:131-161 | a kind never set keeps its default |
| Options.OptionsBoundTheBail | franzadapter/adapter_options.go:143-175 | under any options no poll-error bail comes before a partition has failed for a minute; enabled, it has come by the first counted error at an hour |
| Shutdown.ReachableInv | franzadapter/broker_port.go:59-125 | the shutdown's invariant, over every interleaving of callers, bails and the loop |
| Shutdown.ReleaseOnceInOrder | franzadapter/broker_port.go:59-125 | the events so far are a prefix of the one whole release, or all of it followed only by callers coming back; a loop reported stopped is gone |
| Shutdown.LeaveThenClose | franzadapter/broker_port.go:65-125 | in every run, by position: the leave comes before the close, both after the cancellation and, after that, the end of the wait for the loop; no caller comes back before the leave or the close |
| Shutdown.LeaveAndCloseAtMostOnce | franzadapter/broker_port.go:59-125 | however many callers, at most one leave and one close |
| Shutdown.NoReturnBeforeRelease | franzadapter/broker_port.go:59-62 | no Unsubscribe returns before the whole release is done |
| Shutdown.TripAtMostOnce | franzadapter/broker_port.go:412-425 | the emergency stop is tripped at most once, has been once the first bail is over if the consumer can take it, and never if it cannot |
| Shutdown.BailStartsRelease | franzadapter/broker_port.go:425-432 | once a bail that trips the stop is past starting its goroutine, that goroutine is among the callers of Unsubscribe and the stop has been tripped; before, and without a trip, there is none |
| Shutdown.ReleaseNeverStuck | franzadapter/broker_port.go:65-125 | whoever runs the release always has a next step, even with the loop parked for ever |
| Shutdown.ReleaseCompletes | franzadapter/broker_port.go:65-125 | and those steps alone bring it to its end |
| Shutdown.LoopBailNeverWaitsForRelease | franzadapter/broker_port.go:412-434 | a bail raised in the fetch loop always has a step of the bail itself enabled, whatever the release does, and fewer to come after it |
| Shutdown.BailLetsLoopGo | franzadapter/broker_port.go:275-276 | once the bail is done the loop leaves after a foreign record and polls on otherwise |
| Shutdown.Broker.ReleaseBroker | franzadapter/broker_port.go:65-125 | the release's branches produce exactly the whole release, in which the leave precedes the close and both follow the cancellation and the wait |
| Shutdown.Broker.Unsubscribe | franzadapter/broker_port.go:59-62 | the first call releases, every later one only returns |
| Shutdown.Broker.Bail | franzadapter/broker_port.go:412-434 | the first bail trips and spawns the release once, doing none of it; later ones do nothing |
| Bandwidth.BandwidthCollector.RecordFetchBatch | franzadapter/bandwidth.go:157-174 | one batch's counters go to its own partition's accumulator, the others' stay; the collector stays accounted for by its history |
| Bandwidth.BatchCounted | franzadapter/bandwidth.go:157-174 | a batch adds each of its figures to its own counter of its own partition, uncompressed bytes also to those received, and leaves every other partition alone |
| Bandwidth.BandwidthCollector.GetOrCreatePartition | franzadapter/bandwidth.go:208-215 | the partition's one accumulator, shared with no other, new and blank if there was none |
| Bandwidth.BandwidthCollector.DrainAll | franzadapter/bandwidth.go:118-139 | in any order, each accumulator is listed once and reset |
| Bandwidth.BandwidthCollector.Emit | franzadapter/bandwidth.go:103-155 | without a callback nothing changes; with one, the packet lists every known partition's reading and the counters start again |
| Bandwidth.ListedOnce | franzadapter/bandwidth.go:118-139 | a packet mentions each known partition exactly once and no other |
| Bandwidth.BandwidthConserved | franzadapter/bandwidth.go:103-174 | for any interleaving, partition and counter: packets plus accumulator equal the batches' own figures |
| Bandwidth.CollectorConserves | franzadapter/bandwidth.go:103-174 | the same of a live collector's packets, accumulators and history |
| Bandwidth.NothingTransmitted | franzadapter/bandwidth.go:184-193 | no partition is ever credited with transmitted bytes |
| Bandwidth.LeaderIsLatest | franzadapter/bandwidth.go:166 | a partition's leader is its latest batch's broker, through any number of emits |
| Bandwidth.CompressionIsLatest | franzadapter/bandwidth.go:171-173 | a partition's compression is its latest compressed batch's, through uncompressed ones and emits |
| Bandwidth.CompressionNamesAre | franzadapter/bandwidth.go:19-28 | the codec's name is the protocol's, or says it is unknown |
| Bandwidth.CompressionNamesDistinct | franzadapter/bandwidth.go:19-28 | no two codecs share a name |

## Left out

- franz-go, kadm, sockets and the real group coordinator: assumptions about them are listed above. That a client poll returns at all after cancellation is assumed too, where progress is claimed.
- The engine beyond dispatching before it polls again and accepting or refusing a rebalance. Whether the partitions it owns equal the group's is not claimed: `OnRevoked` does not purge queued assigns.
- Client construction, `RequiredOpts`, `CreateConsumer`, panic handling, `validate`, the client logger and balancer checks: wiring and one-branch checks.
- `ExtractEnvelope`, `CommitOffsets`, `AckRebalance`, the membership hint and `BrokerQuery`: pass-through, or library calls.
- `Poll` and the callbacks before `Subscribe`, and `Poll` from more than one goroutine: the model starts where the fetch loop does.
- AdapterPort.Adapter.RunFetchLoop: an endless loop in the source; here it makes finitely many passes, one for each turn of its schedule, and stops early when it would have to wait for a party the schedule does not move.
- AdapterPort.Adapter.FetchNext: what `handlePollErrors` returns comes as an input of the poll's answer, and a bail it raises shows as cancellation; the tracker and the shutdown are models of their own.
- AdapterPort.Adapter.ProcessPendingRebalances: the entries built for the engine are `Baseline`'s; here the trigger only succeeds or fails.
- AdapterPort.Adapter.OnRevoked: the drain is a snapshot of what the engine has dispatched; its outcome is `Baseline.OnRevoked`'s.
- Shutdown.Broker.Unsubscribe: each call runs alone; races between callers and bails are those of the transition system beside it. A leave that fails or runs past its bound is only logged in the source and is one event here.
- PollHistory.BailsExactlyWhenStuck: assumes times that never go back, as `LogThrottle.ThrottleBound` does, and that the client reports an error exactly when it visits one.
- Bandwidth.BandwidthCollector.Emit: a packet's time, identifier, topic, group and broker list are not modelled, nor the hooks that only update broker metadata. The interval still open when the collector stops is never emitted by the source, and nothing is claimed of it.
- Counters and times are unbounded: 64-bit overflow is not modelled. Slices are values: their sharing of backing arrays is not modelled.
- Message texts of log lines: an error line is its partition, its error and for how long it has been failing, before truncation to whole seconds.
