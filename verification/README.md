# AgencyProxy: verified model

A Dafny model of the AgencyProxy daemon and client: the event pipeline that
carries a run's events to whoever attached to it, the life of a run from its
admission to its end, the shutdown protocol, the request/response connection,
the wakeup discipline under all of them, and the WebSocket subscription
registry. `dafny verify dfyconfig.toml` checks everything.

Two forms appear side by side. Code that changes things in place is a class or
a method with loops (`Channel`, `Receiver`, `LiveRun`, `Registry`, `Driver`,
`RunSubscriptions`, `Flag`, `PushJournal`, `ForwardRunEvents`, `Sweep`), proved against
functions or against an unbounded log. Concurrency is a state machine: a value,
one function for what each action does between two points where something else
can run, and theorems over every sequence of actions. An action that is not
possible in a state leaves it alone, so a sequence of actions is any
interleaving.

| file | what it models |
|---|---|
| `Broadcast.dfy` | the lossy broadcast channel, as a window on an unbounded log |
| `RunJournal.dfy` | the bounded replay journal, pruned by expiry and acknowledgement, and the live run |
| `Delivery.dfy` | journal, channel and any number of lag-recovering forwarders, interleaved |
| `Forwarder.dfy` | the forwarder's loop as written, on the shared objects |
| `Lifecycle.dfy` | runs, the activity count, cancellation, concurrent starts, admission and shutdown |
| `RunHistory.dfy` | what those steps add up to: where each published state comes from, how starts, cancels and shutdowns end |
| `Wakeup.dfy` | ticket, check, park: one theorem and three instances |
| `Multiplexing.dfy` | request ids, the pending map, two FIFO wires and the server's responses |
| `ConnectionFates.dfy` | what becomes of calls, of the drive task, of the server and of pushed events |
| `Subscriptions.dfy` | the WebSocket registry of forwarders |

## What is proved, and what turned out false

- **Delivery.** For each attachment, under every interleaving, what is delivered
  (the replay, then what the forwarder sends) is the run's real log in strictly
  increasing sequence, and every sequence skipped was acknowledged
  (`DeliveredStream`).
- **Gaps.** "Gap-free" without the acknowledgement clause is false:
  `acknowledge` prunes the journal but does not raise the replay floor, so an
  attach below the acknowledged sequence silently starts after it.
  `AcknowledgedGap` is such a run. The exact condition is `ContiguousExactly`: a
  stream is contiguous from its cursor if and only if no attach or recovery of it
  at a cursor below the acknowledged sequence was followed by a delivery; and a
  single replay starts right after its cursor if and only if that cursor is not
  below the acknowledged sequence (`ReplayGap`). So it is contiguous when nobody
  acknowledges beyond what it reached (`ContiguousStream`).
- **Order on the wire.** On the Unix transport the wire carries the stream in
  order. On the WebSocket the forwarder is registered and spawned before the
  response with the replay is returned, so a notification can overtake it:
  `OvertakenResponse` is a run in which the client sees event 2 before event 1.
  `WireOrder` is exact: the notifications are in order, nothing is sent twice or
  left out, and the wire is in order if and only if the response went out before
  the first notification or its replay was empty.
- **Completeness.** Once publishing stops, a forwarder that is neither aborted nor
  refused has caught up or stopped after at most 4100 of its turns, and it stops
  if and only if it lags at a cursor below the replay floor (`Completeness`, with
  `WillExpire` as the condition at the start). A replay in hand is completed
  wherever the floor is by then.
- **Channel position is not sequence minus one.** A send with no receiver moves
  the sequence only. The difference is fixed for the life of each attachment
  (`FixedOffset`), which is what joins replay and live stream (`FirstLiveEvent`).
- **The activity count is not always the number of active runs.** When a
  provider payload fails to serialize, a terminal state is published but the
  run's loop goes on, and a later event makes the run active again. The exact
  law, without any hypothesis, is `active + revivals == active runs +
  saturations`, and each run is counted in once and out once for each revival and
  once more when it ends (`ActivityConserved`, `CompletedExactly`). So the count
  is right if and only if revivals and saturations balance. `FailureCountsTwice`
  shows one such run losing two from the count, from any state. Likewise a
  finished run's log has one terminal event and nothing after it if and only if
  no failure was published (`TerminalEvents`).
- **What a run shows.** Every state a run has published is the one its source asks
  for, in order (`StatesFromSources`): Canceled exactly when its task found the
  cancellation pending, WaitingApproval exactly when an approval request was
  published last, and so on. A run signalled while it polls ends as canceled
  whatever its provider still says (`SignalledEndsCanceled`), and no other run does
  (`CanceledExactly`).
- **What a shutdown does not do.** If nobody asked for termination, a run is
  signalled only if somebody cancelled it (`DrainLeavesRunsAlone`). The flag is set
  exactly when ShutdownIfIdle was acknowledged or an accepted Shutdown has drained
  (`FlagExactly`), and at most one Shutdown is ever accepted (`ShutdownForGood`).
- **Shutdown is safe exactly when every run is spent.**
  `FailureBreaksShutdown` is a run in which ShutdownIfIdle sets the shutdown flag
  while a run is active. Without any hypothesis, whoever saw no run saw a count of
  zero, and really no run is active if and only if revivals equal saturations
  (`ShutdownCountsZero`). From a state in which shutdown was admitted and no run is
  active, none is ever active again if and only if each is spent: its task has
  ended or is ending, or it is signalled and holds no active state
  (`ShutdownFinal`; `SpentExactly` for one run). Along one continuation a run
  becomes active exactly by a revival (`SafeUntilRevival`), which takes a published
  failure (`OnlyRevivalsActivate`); with none published shutdown is safe for ever
  (`ShutdownSafety`).
- **Cancelling.** A returned `cancel` means that its run has published a terminal
  state. `CancelReturnsEarly` is a run in which it is active all the same, which
  it is exactly when it was made active again as often as it was counted out
  (`CancelReturnsTerminal`); if it is terminal it stays so if and only if its task
  holds no active state (`CancelIsFinal`).
- **Terminating.** After a terminating shutdown's sweep an active run holds its
  token if and only if it was terminal at the sweep and nobody has taken it since:
  every run that was active then, or was not revived after it, has lost its token
  (`TerminateExactly`). `SweepMissesRevived` is a run that keeps it.
- **Answers to the right caller.** Ids wrap around, so a request can go out under
  an id whose older request is still waited on: in `WrongAnswer` 2^64 - 1 requests
  go out while the first response stays unread, and the next caller gets the
  answer to the first one's message.
  The exact conditions: everybody answered got the very response the server was
  given while it handled that call, if and only if no response ever arrived while a
  newer request was in flight under its id (`OwnAnswersExactly`, by value); while
  `drive` runs somebody is told that the client is gone if and only if a request
  went out under an id still pending (`GoneExactlyOnCollision`). With no such
  collision the pending map is exactly the requests in flight
  (`PendingConserved`) and every answer is right (`OwnAnswer`). The next id is
  pending only if it was allocated a positive multiple of 2^64 - 1 allocations
  ago and is still in flight (`ReuseMeansWrap`), which rules a collision out while
  requests are younger than that (`YoungNeverCollides`, `YoungWhileIdsLast`).
  Exactly one outcome per call (`ResolvedOnce`) and nobody waiting for nothing
  (`NothingOwed`) need no hypothesis.
- **Subscriptions.** A subscription that was waiting to attach when its connection
  went away registers after the disconnect (`LateRegistration`, in any state); such
  a registration is the only way an entry of the connection comes back
  (`DisconnectForGood`).
- **No lost wakeup** needs that an update which does not notify never makes a
  waiter ready, and `QuietUpdateLosesAWakeup` shows the condition is exact.

## Model

| member | source | states |
|---|---|---|
| Broadcast.SendHolds | crates/proxy/src/broadcast.rs:96-111 | after a send the buffer is again the last `capacity` accepted values; with no receiver nothing is accepted |
| Broadcast.TakeRefines | crates/proxy/src/broadcast.rs:202-218 | the bounded buffer answers every receive, lag counts included, as the unbounded log would |
| Broadcast.LagThenOldest | crates/proxy/src/broadcast.rs:155-163 | after a lag report the next receive returns the oldest value still held |
| Broadcast.RefinesLog | crates/proxy/src/broadcast.rs:31-153 | over every interleaving of send, subscribe, receive, clone and drop the channel is a window on the log and counts its live receivers |
| Broadcast.Conservation | crates/proxy/src/broadcast.rs:183-222 | for every receiver, received + reported missed + unread is what was accepted since it subscribed, and with no lag it received exactly that, in order |
| Broadcast.LagExact | crates/proxy/src/broadcast.rs:202-208 | in every reachable state a lag is reported if and only if more than `capacity` values are unread, and its count is the excess |
| Broadcast.AcceptedExactly | crates/proxy/src/broadcast.rs:96-153 | what was accepted is what was sent while somebody could receive it, and senders are counted by clone and drop |
| Broadcast.ClosedExactly | crates/proxy/src/broadcast.rs:183-222 | in every reachable state a receiver is told closed, nothing, or a value exactly by what is unread and whether a sender is left |
| Broadcast.ReadersExactly | crates/proxy/src/broadcast.rs:114-183 | what each operation does to each reader, and that it leaves the others alone |
| Broadcast.Channel.Send | crates/proxy/src/broadcast.rs:96-111 | a send is accepted exactly when there is a receiver, and returns how many there are, or the value |
| Broadcast.Channel.Subscribe | crates/proxy/src/broadcast.rs:114-122 | a new receiver stands at the end of the accepted log |
| Broadcast.Receiver.Take | crates/proxy/src/broadcast.rs:202-218 | the receive in place returns and moves as the unbounded log says |
| RunJournal.AppendRepresents | crates/proxy/src/runtime.rs:601-615 | publishing keeps the journal equal to the log in (max(floor, acknowledged), latest], at most 2048 entries, floor zero or 2048 behind |
| RunJournal.AcknowledgeRepresents | crates/proxy/src/runtime.rs:390-403 | acknowledging keeps that too; the cursor is clamped to latest and never falls |
| RunJournal.ReplayExact | crates/proxy/src/runtime.rs:369-388 | an attach succeeds if and only if the cursor is not below the floor, and replays exactly (max(after, acknowledged), latest] |
| RunJournal.ReplayGap | crates/proxy/src/runtime.rs:380-385 | a replay starts right after its cursor if and only if the cursor is not below the acknowledged sequence |
| RunJournal.ExpiryBound | crates/proxy/src/runtime.rs:372-377 | an attach expires only more than 2048 events behind, and from the acknowledged sequence on exactly then |
| RunJournal.JournalReaches | crates/proxy/src/runtime.rs:635-646 | with nothing acknowledged exactly the last 2048 events can be attached to |
| RunJournal.PushJournal | crates/proxy/src/runtime.rs:635-646 | the push loop expires from the front until at most 2048 entries remain |
| RunJournal.CollectAfter | crates/proxy/src/runtime.rs:380-385 | the replay filter keeps exactly the entries after the cursor |
| RunJournal.LiveRun.Publish | crates/proxy/src/runtime.rs:590-616 | publish numbers the event next, journals it and offers it to the channel |
| RunJournal.LiveRun.Acknowledge | crates/proxy/src/runtime.rs:390-403 | the prune loop leaves exactly the log above the acknowledged sequence and the floor |
| RunJournal.LiveRun.Attach | crates/proxy/src/runtime.rs:369-388 | attach returns the exact replay and a receiver at the end of the channel, or the expiry error and no receiver |
| Delivery.DeliveredStream | crates/proxy/src/lib.rs:365-432 | every interleaving: delivered events are real, strictly increasing, beyond the cursor, and what was skipped was acknowledged |
| Delivery.ContiguousExactly | crates/proxy/src/runtime.rs:369-403 | a stream is contiguous from its cursor if and only if no attach or recovery of it at a cursor below the acknowledged sequence was followed by a delivery |
| Delivery.ContiguousStream | crates/proxy/src/web.rs:459-496 | with no acknowledgement beyond what the attachment reached the stream is exactly contiguous from the cursor |
| Delivery.AcknowledgedGap | crates/proxy/src/runtime.rs:394-401 | a concrete run: an attach at 0 with event 1 acknowledged delivers 2 first |
| Delivery.WireOrder | crates/proxy/src/web.rs:443-455 | on the WebSocket the wire is in order if and only if the response precedes the first notification or carries no event; notifications always are, and nothing is lost or doubled; on the Unix transport the wire is the stream |
| Delivery.OvertakenResponse | crates/proxy/src/web.rs:443-455 | a concrete run: the client is sent 2 before 1 |
| Delivery.FixedOffset | crates/proxy/src/runtime.rs:597-616 | channel position and sequence differ by a constant for the whole life of an attachment, recoveries included |
| Delivery.FirstLiveEvent | crates/proxy/src/runtime.rs:378-387 | the first live event after an attach is the one after the snapshot's latest; none is between replay and live stream or in both |
| Delivery.JournalOverTime | crates/proxy/src/runtime.rs:369-403 | in every run of actions the journal represents the log, and acknowledged sequence, floor and log only grow |
| Delivery.RecoveryOutcome | crates/proxy/src/lib.rs:408-414 | a recovery stops the forwarder if and only if its cursor is below the floor, never within 2048 events |
| Delivery.Completeness | crates/proxy/src/lib.rs:365-431 | once publishing stops, 4100 turns of a forwarder leave it waiting with everything after its cursor delivered or acknowledged, or stopped, and stopped if and only if it was to lag below the floor |
| Delivery.LagsExactly | crates/proxy/src/lib.rs:393-408 | a forwarder recovers if and only if more than 256 events are unread |
| Delivery.RefusalExactly | crates/proxy/src/lib.rs:396-406 | a refused event is not delivered and stops the forwarder, exactly where an accepting sink would have been given one |
| Delivery.AbortExactly | crates/proxy/src/lib.rs:379-381 | an abort stops its forwarder, delivers nothing and touches nothing else |
| Delivery.StoppedForGood | crates/proxy/src/lib.rs:409-414 | a stopped forwarder delivers nothing more, whatever happens |
| Delivery.AttachExactly | crates/proxy/src/runtime.rs:369-388 | an attach adds one attachment at its cursor unless the cursor is below the floor, and changes no other |
| Delivery.HeldExactly | crates/proxy/src/web.rs:478-492 | an attachment keeps two receivers alive exactly while it sends the replay of a recovery, none once stopped, else one |
| Delivery.ReplayAhead | crates/proxy/src/web.rs:482-486 | a replay in hand is beyond everything delivered, so the sequence check during a recovery skips nothing |
| Delivery.BudgetRunsOut | crates/proxy/src/web.rs:467-495 | each turn uses up a budget of one per unread event, a lag costing one recovery whatever its size, and none changes whether the cursor will expire |
| Forwarder.ForwardRunEvents | crates/proxy/src/web.rs:459-496 | the loop as written delivers exactly what it owes: the unread events beyond the cursor, or after a lag everything beyond it not acknowledged; and gives up its receiver exactly if its cursor expires |
| Forwarder.Resume | crates/proxy/src/web.rs:478-492 | the recovery branch sends exactly the replay and stands at the end of the channel, or stops on expiry |
| Lifecycle.ActivityConserved | crates/proxy/src/runtime.rs:74-93 | the count's exact law in every reachable state; every run is counted in once, and out once per revival and once more when terminal; no revival and no saturation while no failure was published |
| Lifecycle.CompletedExactly | crates/proxy/src/runtime.rs:590-621 | for one run: `completed` exactly when it was ever counted out; it agrees with being terminal if and only if an active run was never revived; a completed run is active if and only if revived as often as counted out |
| Lifecycle.TerminalEvents | crates/proxy/src/runtime.rs:303-347 | a run's terminal events are its published failures plus one when it ends; a finished log is well ended if and only if no failure was published |
| Lifecycle.TokenConsumedOnce | crates/proxy/src/runtime.rs:430-443 | a cancel token is consumed at most once, then signalled or about to be, and only a signalled run is published as canceled |
| Lifecycle.CancelReturnsTerminal | crates/proxy/src/runtime.rs:430-443 | `cancel` returns Ok only once its run has published a terminal state; the run is active then if and only if it was revived as often as counted out, after a failure of its own |
| Lifecycle.CancelIsFinal | crates/proxy/src/runtime.rs:303-347 | after a returned cancel a terminal run is active in no continuation if and only if its task holds no active state |
| Lifecycle.SpentExactly | crates/proxy/src/runtime.rs:303-347 | any terminal run is active in no continuation if and only if its task has ended or is ending, or it is signalled and holds no active state |
| Lifecycle.CancelReturnsEarly | crates/proxy/src/runtime.rs:430-443 | a concrete run: a returned cancel, and the run active |
| RunHistory.StatesFromSources | crates/proxy/src/runtime.rs:489-563 | every state a run ever published is the one its source asks for, and its failures are its unencodable payloads; so each state is shown exactly for the inputs it stands for |
| RunHistory.InputShows | crates/proxy/src/runtime.rs:489-563 | one input taken all the way: approval requests show WaitingApproval, unencodable payloads Failed and a failure, other events Running, unknown ones nothing, and only a good, encodable end Completed |
| RunHistory.SignalledEndsCanceled | crates/proxy/src/runtime.rs:303-327 | a run signalled while it polls has Canceled as its last state once its task is done, in every continuation |
| RunHistory.CanceledExactly | crates/proxy/src/runtime.rs:303-347 | a finished run's last state is Canceled if and only if it was signalled while still polling |
| RunHistory.CancelTakesEffect | crates/proxy/src/runtime.rs:430-443 | a cancel of a polling, active run from any state: the token is consumed, the run ends as canceled whatever its provider offers, is counted out, and the cancel returns |
| RunHistory.TokenTakenBy | crates/proxy/src/runtime.rs:430-487 | a consumed token was taken by a cancel of that run or by the sweep of a terminating shutdown |
| RunHistory.DrainLeavesRunsAlone | crates/proxy/src/lib.rs:328-331 | if nobody asked for termination, a run is signalled or its token gone only if somebody cancelled that run |
| RunHistory.ShutdownTakesEffect | crates/proxy/src/lib.rs:306-335 | an accepted shutdown sets `stopping` and, if its acknowledgement was written, leaves one drainer of the mode asked for, which sweeps only to terminate |
| RunHistory.DrainEnds | crates/proxy/src/lib.rs:328-334 | a waiting drainer sets the flag exactly when no run is counted |
| RunHistory.IdleShutdownExactly | crates/proxy/src/lib.rs:287-305 | ShutdownIfIdle goes through exactly when no run is counted and sets the flag exactly if acknowledged |
| RunHistory.ShutdownForGood | crates/proxy/src/lib.rs:308-320 | at most one Shutdown is ever accepted; `stopping` and the flag stay set |
| RunHistory.FlagExactly | crates/proxy/src/lib.rs:287-334 | the flag is set if and only if ShutdownIfIdle was acknowledged or an accepted Shutdown has drained |
| RunHistory.StartOutcome | crates/proxy/src/runtime.rs:258-298 | a start served on either transport: conflict for a known id, refused if the provider does not launch, else accepted, and only then a fresh, counted entry |
| RunHistory.StartsExplained | crates/proxy/src/runtime.rs:258-284 | in every interleaving a start ends in conflict only if its id is in the registry, and refused only if its provider did not launch |
| RunHistory.NoStartWhileStopping | crates/proxy/src/lib.rs:337-350 | a StartRun gets nowhere while admission is held or once `stopping` is set |
| RunHistory.LockExcludes | crates/proxy/src/runtime.rs:280-298 | while a lock holder owes a step nobody else changes an entry, moves a start or sweeps |
| RunHistory.OneCount | crates/proxy/src/runtime.rs:74-93 | the registry's count is the count its waiters wait on, update by update |
| RunHistory.NeverBelowExactly | crates/proxy/src/runtime.rs:80-89 | no run is counted out that was not counted in, if and only if the count never saturated |
| Lifecycle.ShutdownCountsZero | crates/proxy/src/lib.rs:287-364 | once the flag is set, or ShutdownIfIdle's admission has passed, or a drain has seen zero: `stopping`, a zero count, and no active run if and only if revivals and saturations balance |
| Lifecycle.OnlyRevivalsActivate | crates/proxy/src/lib.rs:314-317 | after a shutdown was admitted a step makes a run active if and only if it revives a terminal run with a published failure |
| Lifecycle.ShutdownFinal | crates/proxy/src/lib.rs:287-334 | from a state with shutdown admitted and no active run, no continuation has an active run if and only if every run is spent |
| Lifecycle.ShutdownSafety | crates/proxy/src/lib.rs:287-364 | with no failure published nothing is active once somebody saw no run, and nothing becomes active |
| Lifecycle.TerminateExactly | crates/proxy/src/runtime.rs:470-487 | in every state after a terminating shutdown's cancel_all an active run holds its token if and only if it was terminal at the sweep and its token was not taken since; one active at the sweep or not revived after it is signalled or about to be |
| Lifecycle.TerminateReachesAll | crates/proxy/src/runtime.rs:470-487 | in particular, every active run that was never revived |
| Lifecycle.SweepMissesRevived | crates/proxy/src/runtime.rs:470-487 | a concrete run: a failed run is passed over, goes on and is active with its token |
| Lifecycle.OneWinner | crates/proxy/src/runtime.rs:258-298 | of concurrent starts of one id at most one inserts |
| Lifecycle.EntriesKept | crates/proxy/src/runtime.rs:280-298 | an inserted entry is never removed or reset: its log and counters only grow, a consumed token, a signal and a completion stay |
| Lifecycle.LosersChangeNothing | crates/proxy/src/runtime.rs:280-284 | a start that ends in conflict or refusal changed registry, count and lock at none of its steps |
| Lifecycle.FailureCountsTwice | crates/proxy/src/runtime.rs:530-561 | from any state, a run that fails to serialize, goes on and completes takes two from the count and publishes three states |
| Lifecycle.FailureBreaksShutdown | crates/proxy/src/runtime.rs:530-537 | a concrete run: one failing payload lets ShutdownIfIdle set the flag while another run is active |
| Lifecycle.PublishIsCommitThenSettle | crates/proxy/src/runtime.rs:590-621 | the machine's two publish steps together are one publish |
| Lifecycle.Registry.Insert | crates/proxy/src/runtime.rs:280-298 | an insert succeeds exactly for an unknown id, counts it, and keeps the count law |
| Lifecycle.Registry.Publish | crates/proxy/src/runtime.rs:590-621 | publish changes one entry, sets its completion and takes one from the count exactly when an active run ends |
| Lifecycle.Registry.TakeCancel | crates/proxy/src/runtime.rs:434-440 | taking the token reports an unknown run, an already taken token, or takes it |
| Lifecycle.Registry.CancelAll | crates/proxy/src/runtime.rs:470-487 | every active run with its token is signalled, no other entry changes, and the number of them is returned |
| Lifecycle.Sweep | crates/proxy/src/runtime.rs:470-487 | the loop of cancel_all over the entries |
| Wakeup.NoLostWakeup | crates/proxy/src/broadcast.rs:187-199 | every interleaving: a parked waiter is not ready, or can wake, or a writer still owes its notify |
| Wakeup.QuietUpdateLosesAWakeup | crates/proxy/src/broadcast.rs:134-147 | the condition is exact: an unnotified update that makes a waiter ready loses its wakeup |
| Wakeup.ReadyWaitersWake | crates/proxy/src/flag.rs:25-46 | once every writer has notified, a ready parked waiter can wake |
| Wakeup.ReadyWaitersGetThrough | crates/proxy/src/runtime.rs:95-106 | once nobody owes a notify, a parked waiter that wakes, tickets and checks is through if it is ready and parked again if not |
| Wakeup.WakesExactly | crates/proxy/src/broadcast.rs:187-199 | a parked waiter can wake if and only if somebody notified since it took its ticket |
| Wakeup.ThroughExactly | crates/proxy/src/flag.rs:35-46 | a waiter is through if and only if it was dropped or checked, ticket in hand, while ready |
| Wakeup.RecvReadyExactly | crates/proxy/src/broadcast.rs:187-218 | a receiver is ready if and only if a value was accepted past its position or every sender is gone |
| Wakeup.FlagWaitersGetThrough | crates/proxy/src/flag.rs:25-46 | a flag's parked waiter gets through if and only if somebody set it |
| Wakeup.CountExactly | crates/proxy/src/runtime.rs:74-93 | the count is the runs started less the runs finished, as long as none finishes that did not start |
| Wakeup.IdleWaitersGetThrough | crates/proxy/src/runtime.rs:95-106 | a waiter for idleness can wake and gets through when every started run has finished, and parks again if not |
| Wakeup.RecvNeverMissesASend | crates/proxy/src/broadcast.rs:96-147 | the theorem for receivers: sends and the last sender's drop notify, everything else is safe |
| Wakeup.FlagWaitNeverMissesSet | crates/proxy/src/flag.rs:25-46 | the theorem for the set-once flag |
| Wakeup.Flag.Set | crates/proxy/src/flag.rs:25-28 | setting is idempotent and always moves the notifier on |
| Wakeup.Flag.Wait | crates/proxy/src/flag.rs:35-46 | the waiting loop, against anything others do between its ticket and its check or while it is parked, resolves if and only if the flag is or gets set |
| Wakeup.IdleWaitNeverMissesTheLastRun | crates/proxy/src/runtime.rs:74-106 | the theorem for waiting until idle |
| Multiplexing.IdClosedForm | crates/client/src/lib.rs:142-143 | the n-th id is ((n-1) mod (2^64-1)) + 1 |
| Multiplexing.SameIdIff | crates/client/src/lib.rs:142-143 | two allocations share an id if and only if a multiple of 2^64-1 lies between them |
| Multiplexing.ResolvedOnce | crates/client/src/lib.rs:116-203 | every call has no outcome while it waits and exactly one afterwards; exactly one for all once `drive` returned |
| Multiplexing.PendingConserved | crates/client/src/lib.rs:126-197 | while `drive` runs, and no request was sent under an id still pending, the pending map is exactly the requests in flight, each id once and with its own caller |
| Multiplexing.RepliesAsGiven | crates/proxy/src/lib.rs:584-602 | responses are written as given: those unread are, in order and by value, the last the server was given, at most one for each call |
| Multiplexing.OwnAnswer | crates/client/src/lib.rs:185-192 | with no such collision every answered caller got the response the server was given while handling that caller's own message |
| Multiplexing.OwnAnswersExactly | crates/client/src/lib.rs:164-192 | that holds of everybody, by value, if and only if no response arrived while a newer request was in flight under its id |
| ConnectionFates.FateExactly | crates/client/src/lib.rs:126-203 | why a call is resolved, for each outcome, if and only if: encoding failed, the task ended while it was sent or awaited, it was queued or overwritten, or its response came in; and an end of the task resolves everybody |
| ConnectionFates.RequestFate | crates/client/src/lib.rs:106-112 | a call made after the task ended is told at once; before that it queues, last |
| ConnectionFates.SendEffect | crates/client/src/lib.rs:138-164 | the head of the queue goes out with its own message under the next id and waits under it; one that does not encode spends an id only |
| ConnectionFates.IncomingEffect | crates/client/src/lib.rs:181-196 | a response resolves the waiter of its id with it and frees the id; anything else resolves nobody |
| ConnectionFates.DrivesExactly | crates/client/src/lib.rs:128-203 | the task runs until the connection is lost, a send fails or every client is gone with nothing queued, and no longer |
| ConnectionFates.ServesExactly | crates/proxy/src/lib.rs:190-550 | the server leaves exactly on the connection's end while reading, after an ending response, or when one cannot be written |
| ConnectionFates.ServeEffect | crates/proxy/src/lib.rs:237-602 | one request served: oldest frame first, its response last on the way back, under its id and as given |
| ConnectionFates.EventsConserved | crates/client/src/lib.rs:193-195 | every event pushed was passed to the client's event channel or is on its way, in order |
| Multiplexing.GoneExactlyOnCollision | crates/client/src/lib.rs:164-164 | while `drive` runs a waiter was dropped if and only if a request was sent under an id still pending |
| Multiplexing.ReuseMeansWrap | crates/client/src/lib.rs:142-164 | the next id is pending only if allocated a positive multiple of 2^64-1 allocations ago, its request still in flight |
| Multiplexing.WrongAnswer | crates/client/src/lib.rs:133-192 | a concrete family of runs: 2^64-1 requests go out while the first response is unread, and the next caller is answered with it |
| Multiplexing.ResponsesArePrefix | crates/proxy/src/lib.rs:237-545 | the server's response ids are a prefix of the request ids it read, all but at most the last |
| Multiplexing.NothingOwed | crates/client/src/lib.rs:116-203 | with nothing queued and nothing in flight every call has been resolved |
| Multiplexing.YoungNeverCollides | crates/client/src/lib.rs:126-164 | no collision while no request stays in flight across 2^64-1 allocations |
| Multiplexing.YoungWhileIdsLast | crates/client/src/lib.rs:126-143 | that holds by itself until 2^64-1 ids were allocated |
| Multiplexing.CollisionCrossesAnswers | crates/client/src/lib.rs:164-191 | an insert under an id still pending resolves the older caller as gone, and the older response, if next, goes to the newer caller |
| Multiplexing.Driver.Allocate | crates/client/src/lib.rs:142-143 | the allocator in place returns the closed form, never 0 |
| Multiplexing.Driver.Resolve | crates/client/src/lib.rs:185-191 | a response removes and returns exactly its id's waiter, or nothing |
| Multiplexing.Driver.Drain | crates/client/src/lib.rs:200-202 | the final loop returns every pending waiter exactly once |
| Subscriptions.OneForwarderPerKey | crates/proxy/src/web.rs:179-190 | at most one forwarder serves a connection and run, and it is the registered one |
| Subscriptions.StaleCleanupIsHarmless | crates/proxy/src/web.rs:192-200 | a late cleanup never removes another forwarder's entry |
| Subscriptions.EntryExactly | crates/proxy/src/web.rs:184-235 | a key's entry is the forwarder that registers, or stays, or is gone by an unsubscribe, the connection's end or its own forwarder's cleanup |
| Subscriptions.ForwarderExactly | crates/proxy/src/web.rs:184-235 | when a forwarder registers, finishes, cleans up, is aborted or removed for aborting, if and only if |
| Subscriptions.ServedExactly | crates/proxy/src/web.rs:179-236 | an unfinished registered forwarder is its key's entry if and only if it is neither aborted nor about to be |
| Subscriptions.DisconnectReachesAll | crates/proxy/src/web.rs:217-235 | a disconnect leaves no entry of the connection, and every forwarder it registered is finished, aborted or about to be |
| Subscriptions.DisconnectForGood | crates/proxy/src/web.rs:217-235 | a forwarder registered before a disconnect is never listed again; the connection has an entry again if and only if one of its forwarders registers afterwards |
| Subscriptions.LateRegistration | crates/proxy/src/web.rs:404-450 | from any state: a subscription that resumes from its attach after the disconnect takes a generation, registers and forwards |
| Subscriptions.RunSubscriptions.Insert | crates/proxy/src/web.rs:184-190 | inserting replaces the entry and aborts the one it replaced |
| Subscriptions.RunSubscriptions.RemoveIfCurrent | crates/proxy/src/web.rs:192-200 | removes the entry exactly if it is of this generation |
| Subscriptions.RunSubscriptions.Unsubscribe | crates/proxy/src/web.rs:202-215 | removes and aborts the key's forwarder, and says whether there was one |
| Subscriptions.RunSubscriptions.Disconnect | crates/proxy/src/web.rs:217-235 | removes exactly the connection's entries and aborts each of their forwarders |

## Left out

- JSON encoding and framing: frames are values on FIFO wires; that encoding, writing or the connection may fail is modelled, what the bytes are is not.
- Providers: a run's provider is an arbitrary source of events and one ending; starting, probing, injecting, approving and interrupting go through a library that is not part of this model.
- Outbound queue: on the Unix transport a forwarder hands its frames to a FIFO the connection drains; `wire` is the order of the offers, and what is still queued when the connection ends is not modelled.
- Sinks: whether a client takes an event is a parameter of each turn; `ForwardRunEvents` is for a sink that accepts, with nobody else running, and its parking on an empty channel is a return.
- Order across attachments: delivery is stated per attachment; on the Unix transport frames queued by an older forwarder can follow a newer attachment's replay, and a detach does not silence frames already queued.
- The per-connection map of attachments in `handle_connection`: replacing or detaching is an `Abort` that may happen at any point.
- Waiting loops: `recv` and `wait_until_idle` are the waiter steps of `Wakeup`, only `Flag::wait` is also a loop; the notifier's own contract (a ticket resolves once the generation passed it) is taken from the source's comments.
- Eventual shutdown: only its safety is claimed; if the acknowledgement write fails, `stopping` stays set and that request never sets the flag.
- Draining of the WebSocket server after its stop signal: the shutdown requests are those of the Unix transport.
- Run metadata, sessions, idempotency keys, authentication, version negotiation, configuration, sockets and signals: single-branch checks or I/O.
- The client's event channel: the same channel code with capacity 512; `Broadcast` holds for every capacity.
- Sequence counters are unbounded; only request ids wrap. Fairness, timing and lock poisoning are not modelled.
