# The service, verified

A Dafny model of the authoritative coordinator of the service, with proofs about it, and of four
smaller parts: the state codec, the PIN lockout, the PIN unescaper and the frame extractor.

`dafny verify dfyconfig.toml` checks everything.

## What is modelled

The coordinator is a write-ahead state machine. Commands, clock ticks and the answers of its ports
drive one snapshot (`PersistentState`): scheduled actions, the desired Internet policy, retry metadata
and an outbox. A candidate snapshot is saved before any irreversible effect; the outcome is recorded
after it, and kept as a pending candidate if that save fails.

| file | content |
|---|---|
| Domain, CoreRules | actions, thresholds, life cycle; the threshold loops |
| World | the answers of the ports, the history of effects, crashes |
| Subscribers, Subscriptions | bounded queues, pruning, session count, identifiers |
| Runtime, Recovery | the specification: every operation as a function, boots and runs |
| Coordinator, Loops | the class with its loops and in-place updates, proved equal to the specification |
| Outcomes, Settling | what each operation does, from outside; what comes of the answers of gate and power controller |
| Announcements, Effects | the events told and the calls made, operation by operation |
| Dispatch | what a client gets for each command |
| Safety, Durability, Edits, Preservation, Deadlines | legal histories and the write-ahead invariant |
| Timers, Healing, Aggregate, Booting | the other invariants, and that a boot establishes all of them |
| Theorems | the main results about whole runs |
| Liveness, Ticks, Ticking | deadlines are kept, due actions are settled, the retry is made in time |
| Retrying | the retry is armed as the policy answers |
| Warnings | marks, notices and warnings belong together |
| Startup, Restarts | what a boot makes of the stored actions, and that deadlines survive it |
| Reporting | the health tells the truth |
| Invariants | all invariants together, as the class keeps them (Invariant.dfy) |
| Wake | the wake-up scheduler |
| Replay, ReplayRuns | what subscribers can reconstruct |
| Witnesses | two runs that show what the code does not promise (Witness.dfy) |
| Idempotence | recovery interrupted and repeated |
| StopProtocol | the two locks, the queue and the flag, under every interleaving |
| HexIds, StateCodec | the state file |
| PinLockout, Texts, PinUnescape, Framing | the smaller parts |

How to read it:

- **Ports.** Port calls are numbered, and an environment gives the answer to each number: whether a save
  succeeds, what gate and power controller say, both clocks, the stop flag, the delay the retry policy gives for each attempt,
  the state of every receiving queue. Every theorem holds for every environment, so for every combination
  of answers. Clocks may jump; where a result needs more, its hypotheses say so.
- **Crashes.** The world keeps the history of all effects. A crash cuts this history at any point since the
  last boot; disk and everything else are what they were at that point, and the machine boots from there.
  So every point inside every operation is a possible crash.
- **Saves.** A save is atomic: it succeeds, or the disk stays as it was.
- **Identifiers** come from one counter that a crash does not turn back. They are only ever compared.
- **Time.** Monotonic time is in nanoseconds, UTC in milliseconds.
- **Hash tables.** The order in which a tick visits the timers is a parameter; sends to subscribers go in any order.
- **Lock scope.** In a sequential operation the stop flag is read where the code holds the effect lock. That no
  effect starts after the flag is set when threads interleave is proved in StopProtocol.

Where the code is not what one might expect from its documents, the model follows the code:

- Startup anchors every action whose deadline is ahead, executing and failed ones included. When such an
  anchor expires nothing removes it, and the worker is due again at once, although
  docs/016-service-runtime-orchestration-contract.md (section 13) rules out a busy loop. `WorkerSpinsExactly`
  states exactly when this happens and `StaleAnchorSpins` is a run of a boot and a tick in which it does;
  `BootIsSane` says when a boot avoids it.
- When the power controller refuses and saving the failure fails too, the cached shutdown state changes but
  `ShutdownStateChanged` is not sent. `RefusedShutdownReachesSubscribers` is the exact condition,
  `ShutdownEventIsSuppressed` a run of four steps in which it happens, and `SubscriberReplaysCoordinator`
  states the replay of the shutdown state over whole runs up to this case.
- Once a stop is requested a handler may return after its durable commit and before its effect and event. The
  replay of the Internet policy is therefore claimed up to the stop only.
- A tick that jumps past a deadline drops the warnings that were left.
- A successful manual block or restore leaves an armed retry in place; it applies the desired policy once more.
- The PIN unescaper passes a bare quotation mark through. Its callers hand it text that a JSON parser has
  delimited, so it cannot see one there.

## Model

| member | source | states |
|---|---|---|
| Theorems.ShutdownAtMostOnce | crates/service/src/runtime.rs:2159-2274 | In every run, with failing saves, stops, crashes at any point and boots at any time of day, a scheduled shutdown calls the power controller at most once, and at every call its action is Executing on disk. |
| Theorems.PendingOnlyOnce | crates/core/src/lib.rs:141-209 | In no run does an action that was known and was not pending become pending again on disk. |
| Theorems.WarningAtMostOnce | crates/service/src/runtime.rs:1860-1965 | Each pair of timer and threshold is broadcast as a warning at most once, even across restarts. |
| Theorems.GateFollowsDisk | crates/service/src/runtime.rs:1568-1594 | Every call of the gate, by a command, a deadline, a retry or a boot, asks for the policy that is on disk at that moment. |
| Theorems.SavesEncode | crates/service/src/persistence.rs:434-572 | Every snapshot the runtime ever hands to the store, also in a save that then fails, is accepted by the codec, so codec errors cannot arise at run time. |
| Theorems.OutboxIsExact | crates/service/src/runtime.rs:1774-1794 | From any point of a run to its end the outbox on disk loses exactly the entries whose acknowledgement was saved in between, keeps all others unchanged and in order, and gains only entries never on disk before, behind them; an entry once taken out never comes back. |
| Theorems.MemoryAgreesWithDisk | crates/service/src/runtime.rs:729-783 | At the end of every run: without a pending candidate the disk equals memory; with one, memory is that candidate, persistence is marked unhealthy, and no autonomous retry is made. |
| Theorems.StopLosesNothing | crates/service/src/runtime.rs:1361-1372 | A stop that reports success leaves disk and memory equal. |
| Theorems.PendingIsAnchored | crates/service/src/runtime.rs:872-898 | At the end of every run each pending action has an anchor of its kind and deadline; thresholds from the cursor on are emitted; for timers scheduled since the boot exactly those, whatever the tick spacing and however many saves failed. |
| Theorems.PolicyHeals | crates/service/src/runtime.rs:1608-1668 | Before a stop: retry metadata is absent exactly when the gate is marked healthy, and then the observed state is the desired one; when present, a retry is armed or a broken retry policy is on record. |
| Theorems.ShutdownStateIsTruthful | crates/service/src/runtime.rs:517-534 | At the end of every run the cached shutdown state is InProgress exactly if a power call has succeeded since the boot, and otherwise what the actions say. |
| Theorems.AnchorsStayExact | crates/service/src/runtime.rs:2014-2027 | From a boot that finds only pending actions with a deadline ahead, the anchors are exactly the pending actions until the next crash, through failing saves as well. |
| Theorems.SleepMissesNothing | crates/service/src/runtime.rs:2393-2443 | A tick before the earliest wake instant saves nothing, sends nothing, calls nothing and changes no durable state. |
| Theorems.WorkerSpinsExactly | crates/service/src/runtime.rs:2393-2443 | After a tick in which every save succeeds, something is due at the same instant if and only if some anchor has passed its target while its action is not pending. |
| Theorems.WorkerNeverSpins | crates/service/src/runtime.rs:1852-1994 | From a boot that finds only pending actions ahead, nothing is ever due again at the instant of the tick, also with a retry policy that answers zero. |
| Liveness.DeadlinesAreKept | crates/service/src/runtime.rs:1852-1994 | In every run, a tick in which saves succeed and no stop is seen asks the gate for the block, or the power controller for the shutdown, once for every pending action whose timer has expired, in table order, and for nothing else but at most one retry of the gate. |
| Liveness.TickCallsExactly | crates/service/src/runtime.rs:1996-2205 | Whatever fails: a tick in which no stop is seen makes exactly the calls of the timers it takes out of the table, in order, and at most one retry. |
| Reporting.HealthIsTruthful | crates/service/src/runtime.rs:617-665 | At the end of every run the health is critical exactly while a save error is on record and degraded otherwise, its error is the one of highest priority, an unsaved candidate makes it critical, and until a stop retry metadata goes with an error of the gate. |
| Restarts.RecoveredDeadlineIsKept | crates/service/src/runtime.rs:884-897 | A stored action whose deadline is ahead at a boot: in every run from this boot on, while it is pending, a tick with saves that succeed makes its call and settles it from the instant on at which the time left has passed since the boot; before that instant it stays pending and no shutdown is called for it. |
| Startup.BootOutcome | crates/service/src/runtime.rs:790-1067 | After every boot that succeeds: the anchors are those of the stored actions ahead, with the target at the boot clock plus exactly the time left and the ceiling of the seconds left; actions ahead have their old marks and those not below the time left; overdue shutdowns are gone with one notice each; overdue blocks are gone or failed, as the gate has answered; policy, observation and retry follow. |
| Ticks.DueActionsAreSettled | crates/service/src/runtime.rs:1969-2274 | In every run, a tick in which saves succeed and no stop is seen settles every pending action whose timer has expired, as the gate or the power controller answers in this tick: it is gone, or exactly it has failed for the reason given. |
| Ticks.RetryIsKept | crates/service/src/runtime.rs:1983-1994 | In every run, with saves that succeed and no stop, no tick before the armed instant asks for a retry, and the first one from then on does, if nothing waits to be saved and no block of this tick was refused. |
| Retrying.RetryIsArmed | crates/service/src/runtime.rs:1082-1097 | At the end of every run, before a stop: while retry metadata are on record the retry is armed at a clock reading plus exactly the delay the policy has given for the attempt on record, or a zero delay is on record and nothing is armed. |
| Warnings.PassedWarningsAreMarked | crates/service/src/runtime.rs:1861-1967 | In every run, after a tick with saves that succeed and no stop, a pending action whose time has not come has exactly its old marks and those of the thresholds it has passed. |
| Warnings.TickQueuesWhatItMarks | crates/service/src/runtime.rs:1909-1950 | In every run, also with failing saves, the warning phase of a tick queues one notice for every pair of timer and threshold it marks and no other; if no deadline and no retry is due, so does the whole tick. |
| Dispatch.RunServes | crates/service/src/runtime.rs:1255-1374 | At the end of every run every command does what it stands for: reply, change of the store and of the timers, effect on the gate, and the events told, with the identifier, kind, text or policy given. |
| Effects.StopEndsEffects | crates/service/src/runtime.rs:2014-2016 | Once a stop is requested, no command and no tick asks the gate or the power controller any more. |
| Invariants.RunIsGood | crates/service/src/runtime.rs:536-2443 | All invariants together (write-ahead, timers, healing, shutdown state, health, subscribers) hold after every run. |
| Theorems.RunIsSane | crates/service/src/runtime.rs:536-2443 | The invariants of the store, the timers, the policy and the shutdown state hold after every sequence of commands, ticks, crashes and boots. |
| Booting.BootIsSane | crates/service/src/runtime.rs:790-1080 | A boot from whatever a legal history left on disk establishes every invariant; the anchors are exactly the pending actions if and only if no other action had its deadline ahead. |
| Witnesses.StaleAnchorSpins | crates/service/src/runtime.rs:2014-2017 | An installed machine with a failed block whose deadline is a millisecond ahead: after a boot and one tick, with no save failing and no stop, the worker is due at the instant of the tick. |
| ReplayRuns.SubscriberReplaysCoordinator | crates/service/src/runtime.rs:1129-1237 | At the end of every run, folding the events of a registered subscriber over its initial snapshot gives the pending actions with their emitted thresholds, the health, until a stop the desired and observed Internet state, and the shutdown state unless a refusal could not be saved after its last announcement; the stream is gap-free since registration, and the announced session count is the size of the registry. |
| ReplayRuns.RefusedShutdownReachesSubscribers | crates/service/src/runtime.rs:2236-2270 | After a refused power call the subscribers replay the new shutdown state if and only if the failure can be saved, or the computer is already shutting down, or another shutdown is pending or executing. |
| Witnesses.ShutdownEventIsSuppressed | crates/service/src/runtime.rs:2260-2270 | An installed machine boots, schedules a shutdown, gets a subscriber and ticks past the deadline; the start is saved, the power call refused, the failure not saved: the cached state is Idle, the registered subscriber still replays Scheduled. |
| Subscribers.ReconcileStabilises | crates/service/src/runtime.rs:1149-1171 | The reconcile loop ends, the announced count equals the size of the registry, survivors are old subscribers whose streams have no gap, and the excluded newcomer is untouched. |
| Subscribers.EmitPrunesExactly | crates/service/src/runtime.rs:1129-1185 | A broadcast and the announcements it causes prune a subscriber if and only if one of the sends finds its queue of 64 full or its receiver gone. |
| Subscribers.EmitKeepsRegistry | crates/service/src/runtime.rs:1174-1185 | A broadcast keeps the session count equal to the registry and the delivery gap-free. |
| Subscriptions.SubscriptionIdsAreFresh | crates/service/src/runtime.rs:1187-1237 | Between two boots a later subscription always gets a larger identifier, so none is reused. |
| Idempotence.RecoveryIsCrashIdempotent | crates/service/src/runtime.rs:790-1001 | With an obedient gate, any number of boots at the same time of day, each cut off anywhere, followed by one that succeeds, leave on disk what one undisturbed boot would, up to outbox identifiers. |
| Idempotence.RebootSavesNothing | crates/service/src/runtime.rs:790-1080 | Booting the finished state again at the same time of day succeeds, leaves the disk alone and attempts no save. |
| Idempotence.FurtherBootSavesNothing | crates/service/src/runtime.rs:790-1080 | After any number of interrupted boots and one that succeeded, one more boot at the same time of day succeeds without attempting a save. |
| Idempotence.OneNoticePerMissedShutdown | crates/service/src/runtime.rs:851-876 | Recovery appends as many notices as there are missed shutdowns, behind the old outbox and with identifiers of their own; it reports exactly the missed shutdowns, each once, and removes them from the actions. |
| Idempotence.OneNoticeAcrossCrashes | crates/service/src/runtime.rs:851-931 | The same holds of the disk after any number of interrupted boots followed by one that succeeds. |
| StopProtocol.StopIsClean | crates/service/src/runtime.rs:3003-3049 | In every interleaving of clients, stopper and worker: no effect starts after the stop was requested, nothing is accepted after the stop was queued, and when the stop is answered every accepted command has been answered. |
| StopProtocol.LaterCallsAreRefused | crates/service/src/runtime.rs:2457-2484 | Once the ingress is closed no later call is accepted; whoever gets the lock is refused. |
| StopProtocol.NoDeadlock | crates/service/src/runtime.rs:2941-3049 | In every reachable state that is not at rest some thread can take a step that is neither a new call nor a tick. |
| StopProtocol.StopCompletes | crates/service/src/runtime.rs:2941-3049 | Once the stop is queued, worker or stopper can always step, and after a number of their steps bounded by the state the stop has returned, however clients interleave. |
| Outcomes.ScheduleOutcome | crates/service/src/runtime.rs:1381-1482 | A timer is scheduled if and only if it is saved: one new pending action with a never-used identifier, deadline and anchor for exactly the duration, all thresholds not below the duration marked, one notice if one is due; otherwise nothing changes. |
| Outcomes.CancelOutcome | crates/service/src/runtime.rs:1484-1566 | Exact condition for each reply; a cancellation removes exactly the action and its anchor, every other outcome leaves them. |
| Settling.SetPolicyOutcome | crates/service/src/runtime.rs:1568-1772 | The policy is saved before the gate is asked and stays on disk whatever it answers; confirmation clears the retry metadata, refusal records one attempt more, one notice and the reason, and arms the retry with the delay the policy gives for this attempt. |
| Outcomes.AckOutcome | crates/service/src/runtime.rs:1774-1794 | An acknowledgement removes exactly the entry with that identifier if it exists and the save succeeds, and nothing otherwise. |
| Outcomes.ChildMessageOutcome | crates/service/src/runtime.rs:1796-1835 | A message is queued last if and only if it is valid and saved; otherwise memory and disk stay. |
| Outcomes.ValidChatExact | crates/service/src/runtime.rs:1800-1806 | A message is valid exactly if its UTF-8 encoding has 1 to 4096 bytes and something is left after trimming. |
| Outcomes.ParentMessageOutcome | crates/service/src/runtime.rs:1837-1849 | A message of the parent is the next broadcast and changes no durable state, timer or policy; one of any other sender is refused and changes nothing at all. |
| Outcomes.SubscribeOutcome | crates/service/src/runtime.rs:1187-1237 | A newcomer gets the status as it is when let in, with an empty stream that starts there; capacity is refused exactly when the registry is full, identifiers exactly when used up; nothing durable changes. |
| Outcomes.UnsubscribeOutcome | crates/service/src/runtime.rs:1239-1252 | The subscription is gone afterwards, and the answer says whether it existed; capacity is never an error here. |
| Outcomes.StopOutcome | crates/service/src/runtime.rs:1361-1372 | A stop succeeds if and only if nothing is pending or the candidate can be saved, and then memory is on disk; otherwise the candidate stays; afterwards only status and stop are served. |
| Outcomes.DeadlineNeedsItsSave | crates/service/src/runtime.rs:1996-2035 | A deadline changes nothing durable and calls nothing when a stop was seen, the action is not pending, or its start cannot be saved. |
| Settling.BlockDeadlineOutcome | crates/service/src/runtime.rs:1996-2156 | A block whose start is saved: when the gate confirms, exactly this action is gone and the metadata are cleared; when it refuses, exactly this action has failed for the reason, with one attempt more, one notice and an armed retry; a stop in between leaves it executing, and nothing else has changed. |
| Settling.ShutdownDeadlineOutcome | crates/service/src/runtime.rs:2159-2274 | A shutdown whose start is saved: accepted, exactly this action is gone and the state is InProgress; refused, exactly it has failed for the reason, with one notice, and the state is derived anew; a stop in between leaves it executing. |
| Settling.RetryOutcomeFacts | crates/service/src/runtime.rs:2276-2390 | A retry asks for the policy on record; confirmation clears the metadata and resolves exactly the executing blocks if the policy is to block; a refusal is recorded and arms the next one. |
| Settling.GateErrorExact | crates/service/src/runtime.rs:1596-1632 | The gate confirms exactly if the call succeeds and the reading is the state asked for; otherwise the reason is that of the call, else that of the reading, else the mismatch. |
| Warnings.WarnOutcome | crates/service/src/runtime.rs:1864-1965 | One timer: with nothing to send or a refused save nothing is marked, queued or told; otherwise exactly the thresholds between the time left and the cursor are marked, with one notice each at the end under identifiers of their own, and one warning each is told with kind, deadline and time of day. |
| Announcements.FireBlockTells | crates/service/src/runtime.rs:2028-2061 | A block that starts tells its expiry, and then, unless stopped, the policy with its reason if policy or observation has changed, and nothing else but health. |
| Announcements.FireShutdownTells | crates/service/src/runtime.rs:2186-2274 | A shutdown that starts tells its expiry, and then the shutdown state if it has changed, unless a stop came or a refusal could not be saved. |
| Announcements.RetryTells | crates/service/src/runtime.rs:2276-2325 | A retry tells the policy exactly if the observation has changed. |
| Announcements.BootTells | crates/service/src/runtime.rs:910-967 | A boot tells the missed shutdowns in order, the shutdown state unless it is Idle, and the policy unless nothing could be observed. |
| Effects.CommandCalls | crates/service/src/runtime.rs:1568-1734 | Only a policy command that was saved when no stop was requested asks the gate, once and for its policy; no command calls the power controller. |
| Effects.BootCalls | crates/service/src/runtime.rs:933-950 | A boot that succeeds asks the gate exactly once, for the policy then in force. |
| CoreRules.CreationPassedThresholds | crates/core/src/lib.rs:55-63 | The loop collects exactly the thresholds longer than the duration. |
| CoreRules.CreationDueThresholds | crates/core/src/lib.rs:69-77 | The loop returns exactly the threshold equal to the duration, at most one. |
| CoreRules.CrossedWarningThresholds | crates/core/src/lib.rs:84-106 | The loop returns exactly the thresholds not emitted yet in the crossed interval, longest first; none once the time is up. |
| CoreRules.RecoveryPassedThresholds | crates/core/src/lib.rs:112-130 | The loop returns exactly the thresholds not emitted yet from the remaining time on, longest first; none once the time is up. |
| CoreRules.CrossingSplits | crates/core/src/lib.rs:84-106 | However an interval is cut into ticks, the crossed thresholds are the same, in the same order. |
| CoreRules.WarningsCover | crates/core/src/lib.rs:55-106 | What was passed or due at creation and what was crossed since are together exactly the thresholds not below the time left. |
| Domain.RemainingSecondsIsCeiling | crates/service/src/runtime.rs:156-162 | The conversion is the ceiling for every sign, so a deadline ahead is never overdue. |
| StateCodec.Encode | crates/service/src/persistence.rs:434-572 | Succeeds exactly on states with unique identifiers, no terminal action and only accepted messages of the child; otherwise reports the first fault in file order. |
| StateCodec.Decode | crates/service/src/persistence.rs:304-432 | Returns the first fault in file order if there is one, and otherwise an encodable state that the file encodes. |
| StateCodec.SaveAndLoad | crates/service/src/persistence.rs:580-597 | Decoding what was encoded gives back the state, for every order in which threshold sets are written. |
| StateCodec.EncodingsAreAccepted | crates/service/src/persistence.rs:304-432 | Every encoding of an encodable state is accepted. |
| StateCodec.OneStatePerFile | crates/service/src/persistence.rs:304-432 | A file is the encoding of at most one state. |
| StateCodec.EncodeActions | crates/service/src/persistence.rs:443-509 | Actions one by one, with the set of identifiers seen; the result encodes each, the error is the first fault. |
| StateCodec.EncodeOutbox | crates/service/src/persistence.rs:516-563 | Outbox entries likewise; a message of the parent or one not accepted is refused. |
| StateCodec.DecodeActions | crates/service/src/persistence.rs:319-372 | Malformed identifier, repeated identifier, repeated threshold, in this order; otherwise unique live actions. |
| StateCodec.DecodeOutbox | crates/service/src/persistence.rs:379-424 | Malformed or repeated identifiers are refused; otherwise unique sendable entries. |
| HexIds.FormatHex | crates/service/src/persistence.rs:252-259 | Two lower-case digits per byte, in order. |
| HexIds.ParseHex | crates/service/src/persistence.rs:262-298 | Accepts exactly 32 lower-case hexadecimal digits, and the result formats to the same text. |
| HexIds.IdTextRoundTrip | crates/service/src/persistence.rs:252-298 | Two 128-bit identifiers have the same text only if they are equal, and every such text is legal. |
| PinLockout.PinLockoutState.CheckAttempt | crates/service/src/pin_auth.rs:225-234 | Locked exactly when recording a failure at that time would answer StillLocked, with the same remaining time, which ends when the lockout does; and then recording changes nothing. |
| PinLockout.PinLockoutState.RecordFailure | crates/service/src/pin_auth.rs:239-270 | New state and answer as specified: during a lockout nothing changes, the third failure in a row locks for 30, 60, then 300 seconds. |
| PinLockout.PinLockoutState.RecordSuccess | crates/service/src/pin_auth.rs:273-277 | Back to the fresh state. |
| PinLockout.GuessingIsSlow | crates/service/src/pin_auth.rs:20-22 | In every run without a success the lockouts are exactly a third of the counted failures, rounded down, and the k-th comes at least 0, 30, 90, then 90 + 300(k - 3) seconds after the first. |
| PinLockout.FastestIsTight | crates/service/src/pin_auth.rs:239-270 | For every k there is a run that reaches the bound. |
| PinLockout.LockoutLasts | crates/service/src/pin_auth.rs:225-262 | A lockout of s seconds triggered at t refuses every attempt before t + s with exactly the seconds left and without any change; the first one after it is counted. |
| PinLockout.AttemptsLeftExact | crates/service/src/pin_auth.rs:263-269 | The attempts announced as left are exactly those until the next lockout. |
| PinUnescape.AcceptedExactly | crates/ipc-protocol/src/codec.rs:256-337 | Without a bare quotation mark inside, the unescaper returns v exactly for the legal spellings of v under section 7 of RFC 8259: raw, short escape, \u in either case, surrogate pair. |
| PinUnescape.BareQuotePassesThrough | crates/ipc-protocol/src/codec.rs:275-331 | The condition is needed: a bare quotation mark inside is accepted although no legal spelling has one. |
| PinUnescape.LoneSurrogatesAreRefused | crates/ipc-protocol/src/codec.rs:292-318 | After any readable beginning, a low surrogate first, or a high one not followed by an escaped low one, makes the string unreadable. |
| PinUnescape.UnescapePinJsonString | crates/ipc-protocol/src/codec.rs:256-337 | The loop over the trimmed text computes the decoding of what stands between the quotation marks, and refuses text that is not quoted. |
| PinUnescape.ParseHex4 | crates/ipc-protocol/src/codec.rs:339-351 | Succeeds exactly on four hexadecimal digits of either case and returns their value. |
| PinUnescape.ParseEscape | crates/ipc-protocol/src/codec.rs:280-327 | Reads exactly one piece of the grammar, or fails. |
| Texts.TrimExact | crates/ipc-protocol/src/codec.rs:257-257 | Trimming removes all white space at both ends and nothing else. |
| Framing.FramesArriveIntact | crates/ipc-protocol/src/codec.rs:719-750 | For every list of payloads of 1 to 65536 bytes and every chunking, the reader delivers exactly the payloads in order; the end of the stream is an error exactly if an incomplete frame is left. |
| Framing.ChunksDoNotMatter | crates/ipc-protocol/src/codec.rs:719-750 | For arbitrary bytes, well-formed or not, the outcome does not depend on the chunking. |
| Framing.ExtractExact | crates/ipc-protocol/src/codec.rs:719-750 | A frame with payload p is returned exactly for buffers that begin with its encoding and an admissible length. |
| Framing.ExtractIsStable | crates/ipc-protocol/src/codec.rs:719-750 | Bytes that arrive later change neither a returned frame nor a reported bad length. |
| Framing.EofFailsOnLeftovers | crates/ipc-protocol/src/codec.rs:719-747 | When more bytes are needed, the end of the stream is an error exactly if the buffer is not empty. |
| Framing.LengthRoundTrip | crates/ipc-protocol/src/codec.rs:20-27 | Little-endian prefixes decode to the length they encode. |
| Framing.DrainBuffer | crates/ipc-protocol/src/codec.rs:719-750 | The extraction loop computes the specified reading. |
| Coordinating.Coordinator.PerformStartupRecovery | crates/service/src/runtime.rs:790-1080 | On success every stored action has exactly the time that is left to it or is settled, as stated for the boot; from a legal history success establishes every invariant and failure leaves a legal history again. |
| Coordinating.Coordinator.RecoverCandidate | crates/service/src/runtime.rs:793-908 | The loop over the stored actions, with editing in place and removal at the end, computes the recovered snapshot and the missed and overdue actions; every action ahead gets its anchor at exactly the time left; the commit flag is set if and only if anything changed. |
| Coordinating.Coordinator.CompleteStartup | crates/service/src/runtime.rs:969-1004 | Overdue blocks are completed and retry metadata cleared; saved exactly if that changes anything. |
| Coordinating.Coordinator.DegradeStartup | crates/service/src/runtime.rs:1023-1067 | Overdue blocks fail in place; on success one attempt more is on record for the reason, and the retry is armed with the delay the policy gives for it. |
| Coordinating.Coordinator.CommitAuthoritativeState | crates/service/src/runtime.rs:748-764 | On success memory and disk are the candidate and nothing is pending; on failure memory, disk and pending candidate stay; persistence is healthy exactly on success. |
| Coordinating.Coordinator.CommitPostSideEffectCandidate | crates/service/src/runtime.rs:766-783 | Memory is the candidate in any case; on success so is the disk, on failure the disk stays and the candidate is kept as pending. |
| Coordinating.Coordinator.TrySendToSubscribers | crates/service/src/runtime.rs:1129-1147 | The loop in any order puts the event into every addressed queue with room and returns exactly the others. |
| Coordinating.Coordinator.ReconcileSubscriberRegistry | crates/service/src/runtime.rs:1149-1171 | The loop computes the specified reconciliation and terminates. |
| Coordinating.Coordinator.RecomputeHealthStatus | crates/service/src/runtime.rs:617-641 | Afterwards the health is critical exactly if persistence is unhealthy and healthy exactly if nothing is wrong, the last error is the one of highest priority on record, and nothing else has changed. |
| Coordinating.Coordinator.MaybeEmitHealth | crates/service/src/runtime.rs:653-665 | The health is up to date afterwards; it is announced, as the next broadcast, exactly if it differs from before, and otherwise nothing is sent. |
| Coordinating.Coordinator.HandleScheduleAction | crates/service/src/runtime.rs:1381-1482 | Succeeds exactly with its save: the new action under a never-used identifier, its anchor and notice, and nothing else; a failing save leaves store, timers and policy alone. |
| Coordinating.Coordinator.HandleCancelExactTimer | crates/service/src/runtime.rs:1484-1566 | Cancels only what may be cancelled; then exactly the action and its anchor are gone, on disk as well, and otherwise neither changes. |
| Coordinating.Coordinator.HandleSetPolicy | crates/service/src/runtime.rs:1568-1734 | A saved policy is on disk whatever the gate says; Done means the gate shows it and nothing waits to be saved; a platform error means the refusal is recorded and the retry armed with the delay answered. |
| Coordinating.Coordinator.ScheduleNextInternetRetry | crates/service/src/runtime.rs:1082-1097 | The retry is armed at the clock read last plus the delay the policy gives for the attempt on record; a zero delay arms nothing and is recorded. |
| Coordinating.Coordinator.HandleAckTelegram | crates/service/src/runtime.rs:1774-1794 | Answers whether the entry was there; after an accepted acknowledgement exactly that entry is gone from memory and disk, and otherwise nothing is. |
| Coordinating.Coordinator.HandleSendChildMessage | crates/service/src/runtime.rs:1796-1835 | Invalid text is refused; an accepted message is the last entry on disk, unsent; in every other case nothing durable changes. |
| Coordinating.Coordinator.HandlePublishParentMessage | crates/service/src/runtime.rs:1837-1849 | A message of the parent is the next broadcast and is never stored; any other sender is refused without any change. |
| Coordinating.Coordinator.HandleSubscribeEvents | crates/service/src/runtime.rs:1187-1237 | The newcomer holds the status of this moment and an empty stream from here on; capacity is refused exactly when the registry is full; nothing durable changes. |
| Coordinating.Coordinator.HandleUnsubscribeEvents | crates/service/src/runtime.rs:1239-1252 | Answers whether the subscription existed; it is gone afterwards, and nothing durable changes. |
| Coordinating.Coordinator.HandleStop | crates/service/src/runtime.rs:1361-1372 | Success means that memory is on disk and nothing is pending; it comes exactly if nothing was pending or the flush was saved; a first stop leaves no subscriber. |
| Coordinating.Coordinator.HandleCommand | crates/service/src/runtime.rs:1255-1374 | Every command does what it stands for, field by field: a block command that is saved leaves Blocked on disk and answers Done only if Blocked is observed, restoring likewise, and so on for all eleven; every command keeps all invariants. |
| Coordinating.Coordinator.CollectExpired | crates/service/src/runtime.rs:1861-1967 | The warning pass in the order of the table: one notice for every mark it makes, and the expired timers with their kinds. |
| Coordinating.Coordinator.EvaluateWarnings | crates/service/src/runtime.rs:1872-1965 | One timer: marks, notices and warnings together when there is something to send and the save succeeds, and otherwise none of them. |
| Coordinating.Coordinator.RecordWarnings | crates/service/src/runtime.rs:1914-1958 | An accepted save marks exactly the crossed thresholds and queues one notice for each, at the end and with identifiers of their own; a refused one changes nothing. |
| Coordinating.Coordinator.ExecuteExpired | crates/service/src/runtime.rs:1969-1981 | Deadlines in order until the stop flag is seen. |
| Coordinating.Coordinator.ProcessClockAndEvents | crates/service/src/runtime.rs:1852-1994 | Unless a stop is seen: the retry follows the last answer of the gate; with saves that succeed exactly what is due is asked for, every expired pending action is settled, and every other one is marked as far as it has passed its thresholds; all invariants are kept. |
| Coordinating.Coordinator.ExecuteScheduledInternetDeadline | crates/service/src/runtime.rs:1996-2156 | A block that starts is settled as the gate answers, or left executing by a stop; nothing else changes. |
| Coordinating.Coordinator.ExecuteScheduledShutdownDeadline | crates/service/src/runtime.rs:2159-2274 | A shutdown that starts is settled as the power controller answers, or left executing by a stop; nothing else changes. |
| Coordinating.Coordinator.NextWakeTimeout | crates/service/src/runtime.rs:2393-2443 | None exactly if persistence is unhealthy or there is nothing to wait for; otherwise the time to the earliest target, unsent warning or retry, zero if it has passed. |

## Left out

- Integer widths: 64-bit times, the 32-bit attempt counters and durations, and the panics their overflow would cause are unbounded numbers here. The 32-bit session count and the 64-bit subscription identifier are modelled.
- Exhaustion of 128-bit identifiers, and how they are drawn: a counter stands for a source of values never drawn before.
- File access, temporary files and atomic publication: a save is atomic success or no change.
- Windows calls behind the gate, the power controller and the clocks: they are answers of the environment.
- The texts of notices, log lines and errors beyond their reason; the time of day and uptime inside a status snapshot; the child account.
- The telegram connection is never established in this version of the service, so its health flag stays false.
- JSON text: the codec is modelled between snapshot and file form, and the unescaper on the text between two quotation marks; parsing and printing of JSON is a library.
- Password hashing, credential and configuration files, directory hardening, bootstrap and tray: they are not part of this model.
- Response and event frames share the length prefix but have limits of their own; only request frames are modelled.
- Thread creation, panics, poisoned locks and a client whose channel breaks: StopProtocol keeps locks, queue, flags and replies.
- StopProtocol abstracts what a command does to the number of times it enters the effect gate; what it does there is in Runtime.
- Idempotence.RecoveryIsCrashIdempotent: speaks of boots that see the same time of day and a gate that obeys, because with another time or a refusing gate the durable state is meant to differ.
- Theorems.AnchorsStayExact: claims exactness up to the next crash; after each boot the condition is the one of Booting.BootIsSane.
