# Verification of klever-subscriber

klever-subscriber is a client of a Klever node: one WebSocket carries a stream of events and a
request/response protocol, shared by any number of goroutines, torn down and replaced at any time.
Beside the Go library there are a dashboard broker that counts events and streams them to browsers, a
browser client, and an example that waits for one block or transaction. This project models the parts
where ordering, interleaving and bookkeeping matter, and proves what they promise.

`dafny verify dfyconfig.toml` checks everything.

## How it is modelled

Code that one goroutine (or one event loop) runs at a time is a class with the source's fields, and
methods with the source's loops: the list helpers (`Lists`), the pending table (`PendingTable`), the
channel registry (`Registry`), changing subscriptions (`Subscriptions`), the rate ring (`RateRing`),
the event-stream writer (`SseFrames`), the browser client (`BrowserClient`). Their contracts tie the
new state to a function of the old one, and lemmas say what the source promises about that function.

Code that many goroutines run together is a step system: a `State`, the `Action`s, when one is
`Enabled` and what comes `Next`. Every block under a lock, and every channel, context or atomic
operation, is one step of its own, and whatever can fail may fail. An invariant is proved inductive and
the theorems are about every state of every run, with any number of callers, readers, connections,
consumers or handlers: `RequestProtocol`, `Lifecycle`, `FanOut`, `SseAdmission`, `Stats`,
`WaitForEvent`.

What such a system does is also told a second time, from the actions or events of a run alone and
without `Next`: what a call returns and what is in the table (`RequestOutcomes`), which set was asked
for last (`Calls`), who is subscribed when (`Membership`), what settles a promise and what a listener
hears (`Promises`), how often each kind was recorded (`Stats`). The lemmas there say that the system and
this account agree on every run, and runs are built in which the ordinary thing happens: a request is
answered, a replaced set is delivered, an event is received.

Main results:

- **No orphaned request.** In every interleaving of callers, read loops (also ones that outlive their
  connection), reconnects and the deferred teardown, a caller that waits on a connection whose teardown
  is over has something to receive, and what it receives is the first thing offered to it and bears its
  own id. No frame is offered to two callers. Ids are distinct exactly until the int64 counter has gone
  round. What a call returns is exactly what happened at its own write, cancellation or receipt; it
  succeeds only with a frame read from a socket, under its id and without an error, and a teardown always
  makes it fail.
- **No lost wakeup, and three ways to lose a change.** However `Start` interleaves with changes of the
  desired set, once no change is between its write and its signal a parked `Start` with types to
  connect for has a token queued, and the node of an undisturbed connection delivers the desired set -
  but for what changes have lost, and `NoLostWakeup` says exactly what such a node lacks and what it
  delivers too much. The losses are real: the in-band changes commit locally without looking whether
  the connection that acknowledged them is still there.
  - If a whole reconnect fits in between, the new connection was set up from the old set, nothing
    bounces it, and asking for the same set again sends nothing. The node then goes on delivering the
    old set: it lacks what was added and keeps what was removed (`UpdateCanBeLost`, for every old set
    with types and every other goal).
  - If the connection only drops while the old set has no types, `Start` parks and the commit does not
    wake it: there is no reconnect, and from there it has no step at all (`UpdateCanStrand`, for every
    goal with types).
  - A `RemoveSubscriptions` that finds no connection bounces none, so one that comes while a connection
    is being dialled leaves the node delivering what was removed (`OfflineRemovalCanBeLost`).

  `CommitCoversIff` says of every commit, wherever `Start` is and whatever was lost before, exactly when
  the node covers the new set and exactly when it delivers that set and nothing else. Once the changes
  stop and dialling goes through, `Start` has an undisturbed open connection whose node delivers exactly
  the set asked for last, but for the placeholder type, within 25 of its own steps.
- **Reconfigure is make-before-break and converges**; over any sequence of acknowledged operations the
  node delivers exactly what `Types()` and `Addresses()` report, but for the placeholder type where
  the handshake had to carry it. `RemoveSubscriptions` sends types and addresses in one request, which
  the source itself calls ambiguous; `MixedDropAgreesIff` says when that keeps the agreement under the
  reading the source warns of.
- **Fan-out.** A consumer is offered every event whose fan-out begins between its subscribing and its
  close, once, and no other. No send ever hits a closed channel and none is closed twice; each consumer's history is
  the ordered part of what was offered to it, with a gap exactly where its buffer held 256 items at the
  step that sent; and all other consumers can be deleted from any run without changing it.
- **The rate ring** refines a log of events for every clock, also one that goes backwards. On a clock
  that goes forwards, every read counts exactly the events of the trailing ten seconds if and only if no
  call at clock second 0 has an event in its window (that second collides with the "no event yet" mark);
  reading is observationally pure.
- **Server-sent events.** Parsing what was written with the parser of sections 9.2.5 and 9.2.6 of the
  WHATWG HTML Living Standard gives back the frames, in order, exactly when no frame of the stream holds
  a line ending.
- **Waiting for a block or transaction.** On a chain on which items keep landing, in every run in which
  node and client keep working, a target on chain is found if and only if it is never so that the lookup
  came too early and the push of the target itself found the buffer full (`FoundIff`). What becomes of
  other items does not matter; and a run that loses the target exists (`OverflowCanMiss`).
- **The browser client** settles every promise at most once, by the first of its timer, its reply and a
  close, and at a close exactly once; listeners hear of exactly the messages that answer nothing. Its close
  handler does not look which socket has closed: the close of a replaced one rejects the requests of the
  new connection and leaves that socket open and unused. `WronglyClosedIff` says exactly which requests
  are failed by a connection they were not sent on.

Dead code: `connect` never returns nil, so the branch of `Start` for a nil error
(subscriber/connection.go:57-60) is never taken, and `Start` returns only when its context is done.

## Model

| member | source | states |
|---|---|---|
| Lists.Remove | subscriber/helpers.go:31-85 | the loops of removeTypes, removeStrings, diffTypes and diffStrings compute `Without` |
| Lists.Merge | subscriber/helpers.go:3-29 | the loops of mergeTypes and mergeStrings compute `Merged` |
| Lists.WithoutElements | subscriber/helpers.go:59-71 | as a set it is the difference, and it is empty exactly when nothing was left to remove from |
| Lists.WithoutMultiplicity | subscriber/helpers.go:31-43 | every item that stays occurs as often as before, every other not at all |
| Lists.WithoutPiecewise | subscriber/helpers.go:31-43 | each item is kept or dropped for itself and in its place |
| Lists.MergedElements | subscriber/helpers.go:3-15 | as a set it is the union |
| Lists.MergedAppendsNewOnce | subscriber/helpers.go:3-15 | the existing list is a prefix; each genuinely new item follows once, in the order of its first occurrence |
| Decimal.FormatIntInjective | subscriber/request.go:31-31 | decimal text of an integer, of either sign, determines it |
| Decimal.RequestIdsEqualIff | subscriber/request.go:31-31 | two calls share an id exactly when their numbers differ by a multiple of 2^64 |
| PendingTable.Table.Register | subscriber/request.go:31-45 | takes the next id and registers a fresh empty one-place channel under it, changing nothing else |
| PendingTable.Table.Deregister | subscriber/request.go:47-51 | removes the caller's own id and nothing else |
| PendingTable.Table.RouteResponse | subscriber/request.go:68-78 | a reply reaches the channel under its own id only; unknown ids and second replies are dropped |
| PendingTable.Table.FailAllPending | subscriber/request.go:80-90 | every registered channel that is empty gets an error under its own id and nothing as data; the table is emptied |
| RequestProtocol.StepInv | subscriber/request.go:30-90 | every step of callers, readers and teardown keeps the protocol invariant |
| RequestProtocol.NoOrphanedRequest | subscriber/request.go:42-66 | a caller waiting on a torn-down connection can receive, and receives a genuine message under its own id |
| RequestProtocol.ReplyStillReaches | subscriber/request.go:68-78 | as long as a waiting caller has nothing to receive, its connection is current and a reply looked up now arrives |
| RequestProtocol.ReturnsOwnFirstReply | subscriber/request.go:57-65 | what a call returns is the first thing offered to it, bears its id, and was read from a socket or made by a teardown |
| RequestProtocol.FrameReachesOneCall | subscriber/request.go:68-78 | no frame is offered to two calls |
| RequestProtocol.PendingAreInFlight | subscriber/request.go:42-51 | every key of the table is the id of a call that has registered and not returned |
| RequestProtocol.TeardownNeverBlocks | subscriber/connection.go:93-99 | a teardown under way always has a next step of its own |
| RequestProtocol.TeardownLength | subscriber/connection.go:93-99 | in any interleaving a teardown takes four steps and one per call in the table, and at any moment as many of them as its stage shows; then it is over |
| RequestOutcomes.WriteDecides | subscriber/connection.go:249-256 | a write without a connection leaves with not connected, a failed one with the write error, and after a good one the call waits on that connection |
| RequestOutcomes.NoWriterIsOrphaned | subscriber/request.go:53-65 | a call that wrote its request and has not ended when its connection is torn down can receive, a genuine message under its own id |
| RequestOutcomes.OutcomeIs | subscriber/request.go:37-65 | how a call ends is exactly what was so at its own marshalling, write, cancellation or receipt |
| RequestOutcomes.ReturnsAsItEnded | subscriber/request.go:57-65 | it returns exactly that; a success is a frame from a socket under its id without an error, and what a teardown hands out is a failure |
| RequestOutcomes.TableIs | subscriber/request.go:42-51 | the table holds exactly the calls that have registered and since then neither left nor seen a teardown end |
| RequestOutcomes.FrameIsLookedUp | subscriber/request.go:68-72 | a read frame is taken to the call under its id exactly if that call is in the table at the lookup |
| RequestOutcomes.FrameIsOffered | subscriber/request.go:68-78 | and then it is offered to that call, unchanged, and to no other |
| RequestOutcomes.ReaderStaysOut | subscriber/connection.go:160-172 | an ended read loop routes nothing more |
| RequestOutcomes.ReplyReturns | subscriber/request.go:53-65 | for every reply there is a run in which the call returns it, as a success if it bears no error |
| RequestOutcomes.CanEndAs | subscriber/request.go:37-59 | every other outcome happens, too |
| RequestOutcomes.TeardownFailsCall | subscriber/request.go:80-90 | a run in which a teardown ends a waiting call with a failure |
| Topics.HandshakeExactIff | subscriber/connection.go:118-128 | the handshake covers the desired set, and is exactly it unless there are no types and the placeholder is sent |
| Subscriptions.Subscriber.Reconfigure | subscriber/subscription.go:9-92 | the local set is the requested one in every case; the node acts on the acknowledged start of the plan; without a full acknowledgement the connection is bounced, with one it is not |
| Subscriptions.Subscriber.InBand | subscriber/subscription.go:22-66 | the staged requests stop at the first failure and report whether all went through |
| Subscriptions.Subscriber.Bounce | subscriber/subscription.go:82-91 | the captured context is cancelled and a wakeup is queued |
| Subscriptions.Subscriber.AddSubscriptions | subscriber/subscription.go:94-133 | acknowledged: merged on both sides; not connected: merged locally and bounced; failed: nothing changes; the old lists stay as prefixes and only new items follow, once each |
| Subscriptions.Subscriber.RemoveSubscriptions | subscriber/subscription.go:135-166 | acknowledged: removed on both sides; not connected: removed locally without a bounce; failed: nothing changes |
| Subscriptions.PlanStages | subscriber/subscription.go:22-66 | after any number of stages the node lies between the common part and the union of old and new set |
| Subscriptions.PlanConverges | subscriber/subscription.go:22-74 | all stages acknowledged: the node delivers exactly the new set |
| Subscriptions.PlanEmptyIff | subscriber/subscription.go:28-55 | nothing is sent exactly when both sets stay as they are |
| Subscriptions.PlanShape | subscriber/subscription.go:28-66 | the addition comes first and whole; a removal names one dimension, addresses before types, and nothing still wanted |
| Subscriptions.AgreementKept | subscriber/subscription.go:94-166 | one acknowledged operation in one dimension keeps node and local sets equal, up to types the node delivered unasked before |
| Subscriptions.LongRunAgreement | subscriber/subscription.go:94-166 | so does any sequence of them, whatever the node makes of mixed requests |
| Subscriptions.SessionAgreement | subscriber/connection.go:118-128 | from the handshake on they stay equal; in a session opened with the placeholder that one type may remain |
| Subscriptions.PlanFrom | subscriber/subscription.go:22-74 | what all stages make of a node that also delivers types nobody asked for |
| Subscriptions.MixedDropAgreesIff | subscriber/subscription.go:147-150 | a mixed removal, read as the source warns, keeps them equal exactly in the stated cases |
| Subscriptions.MergedIsAppended | subscriber/subscription.go:128-131 | after an addition the old lists are prefixes and each new item follows once |
| Lifecycle.ConnectedMeansActive | subscriber/connection.go:137-140 | `connected` implies a connection to write to, and the callbacks alternate from OnConnect |
| Lifecycle.NoLostWakeup | subscriber/connection.go:26-50 | between changes, a parked `Start` with types has a token exactly unless a commit stranded it; what the node of an undisturbed connection lacks, and what it delivers too much, is exactly what changes left missing and left over |
| Lifecycle.NothingLostUnlessCrossed | subscriber/subscription.go:68-74 | in a run in which no addition crosses a reconnect or a parking, nothing is stranded or missing |
| Lifecycle.NothingLeftUnlessCrossed | subscriber/subscription.go:147-165 | in a run in which no removal crosses a reconnect, the node delivers nothing but the desired set and the placeholder |
| Lifecycle.NoLostSlowPathChange | subscriber/subscription.go:111-124 | both hold among changes that bounce the connection; the first also among removals made offline |
| Lifecycle.CommitCoversIff | subscriber/subscription.go:68-74 | wherever `Start` is and whatever was lost before: the condition under which an in-band commit leaves the new set covered, and the one under which it leaves exactly it delivered, both ways |
| Lifecycle.UpdateCanBeLost | subscriber/subscription.go:68-74 | for every old set with types and every other goal there is a run that commits the goal and leaves the node of an undisturbed connection delivering the old set; asking again changes nothing |
| Lifecycle.OfflineRemovalCanBeLost | subscriber/subscription.go:151-158 | a removal made while a connection is being dialled leaves its node delivering what was removed |
| Lifecycle.UpdateCanStrand | subscriber/subscription.go:128-132 | for every goal with types there is a run with one connection only that ends with the goal committed and `Start` parked for good |
| Lifecycle.CatchUpNeverBlocks | subscriber/connection.go:36-73 | once changes stop, `Start` is never stuck before it has caught up |
| Lifecycle.CatchesUp | subscriber/connection.go:26-82 | and when dialling and the handshake go through, within 25 of its own steps it has an undisturbed open connection whose node delivers the desired set and at most the placeholder besides |
| Lifecycle.StaysCaughtUp | subscriber/connection.go:137-140 | where it stays until that connection fails |
| Lifecycle.ShutdownNeverBlocks | subscriber/connection.go:223-246 | once the context is done, `Start` always has a step until it has returned |
| Lifecycle.ShutdownBounded | subscriber/connection.go:18-73 | and at most 22 of its steps remain, whichever way its selects go, however often tokens are queued |
| Lifecycle.ClosesOnceOnReturn | subscriber/connection.go:18-69 | `Start` returns only under cancellation and closes the subscribers exactly once, as it returns |
| Lifecycle.LeavesNothingBehind | subscriber/connection.go:45-50 | a socket is open and requests are owed a failure only from dial to teardown, every earlier context is cancelled, and a close message goes exactly to connections given up for their context |
| Calls.CallsAnswered | subscriber/subscription.go:68-91 | after any run the desired set is the one asked for last; a token is queued exactly if a wakeup was sent since the last was taken |
| Calls.SlowPathDeliversAskedFor | subscriber/subscription.go:79-91 | among changes that bounce the connection, the node of an undisturbed one delivers what was asked for last, and at most the placeholder besides |
| Calls.DeliversAskedFor | subscriber/connection.go:26-82 | once a run's changes stop and none was lost, that holds on an open connection within 25 steps of `Start` |
| Calls.LastReplaceCounts | subscriber/subscription.go:79-82 | the last replacement is what was asked for, whatever came before |
| Calls.ReplaceCanBeServed | subscriber/subscription.go:79-91 | for any two sets with types there is a run that replaces the one by the other and delivers it |
| Calls.CancelShutsDown | subscriber/connection.go:18-73 | after the context is cancelled at most 22 steps of `Start` remain, and one is possible until it has returned |
| Registry.Channel.TrySend | subscriber/subscriber.go:193-198 | a non-blocking send appends, or drops when 256 items are buffered |
| Registry.Subscriber.Subscribe | subscriber/subscriber.go:133-139 | registers a fresh open channel last |
| Registry.Subscriber.RemoveSub | subscriber/subscriber.go:141-151 | splices out and closes a registered channel, does nothing for any other |
| Registry.Subscriber.CloseSubscribers | subscriber/subscriber.go:181-188 | closes every registered channel once and empties the registry, leaving what is buffered |
| Registry.Subscriber.FanOut | subscriber/subscriber.go:190-199 | offers the event once to every registered channel |
| Registry.Subscription.Close | subscriber/subscriber.go:72-76 | only the first call has an effect, and only while the channel is registered |
| FanOut.NeverPanics | subscriber/subscriber.go:133-199 | in no interleaving is a closed channel sent to or closed again; the registry is distinct and open |
| FanOut.ClosedStaysClosed | subscriber/subscriber.go:141-151 | closes are at most one per channel and never undone |
| FanOut.ShutdownClosesOnce | subscriber/subscriber.go:181-188 | what is registered at shutdown has been closed exactly once ever after |
| FanOut.FanOutReachesAudience | subscriber/subscriber.go:190-199 | a finished fan-out offered its own event, and no other, exactly once to everyone registered when it began, and to nobody else |
| FanOut.FanOutNeverBlocks | subscriber/subscriber.go:193-198 | no consumer can hold up a fan-out |
| FanOut.HistoryIsOwn | subscriber/subscriber.go:190-199 | received and buffered events are a function of the consumer's own log |
| FanOut.SoloKeepsOrder | subscriber/subscriber.go:193-198 | they are exactly the offers let in, in order |
| FanOut.MissedExactlyWhenFull | subscriber/subscriber.go:193-198 | an event sent at some step of a run is among what its consumer has received or buffered ever after exactly if the buffer held fewer than 256 items at that step |
| FanOut.OthersCanBeDeleted | subscriber/subscriber.go:190-199 | deleting all other consumers from a run leaves a run with the same channel, log and history |
| Membership.RegisteredUntilClosed | subscriber/subscriber.go:133-151 | from its subscribing a channel is registered and open exactly until its own close or the shutdown |
| Membership.SubscribedIsOffered | subscriber/subscriber.go:133-199 | a subscribed channel is offered the event of every later fan-out, once by its end, exactly if it was not closed before that began |
| Membership.FanCarries | subscriber/subscriber.go:190-199 | a fan-out carries the event it was given to the registry of its beginning, and is over exactly when it has ended |
| Membership.CloseIsFinal | subscriber/subscriber.go:141-151 | after its close or the shutdown a channel is out of the registry for good, closed once |
| Membership.ReceivesOldestFirst | subscriber/subscriber.go:193-198 | each receive hands over the next of the offers let in, and nothing else is received |
| Membership.EventIsReceived | subscriber/subscriber.go:133-199 | a run from subscribing to receiving, closing and the shutdown |
| RateRing.Ring.BumpRate | web/broker/broker.go:160-184 | for every clock: each bucket counts the events of its age, one more event, of age 0 |
| RateRing.Ring.RateSnapshot | web/broker/broker.go:186-211 | for every clock: answers how many events are younger than ten seconds of forward clock movement |
| RateRing.Ring.Advance | web/broker/broker.go:172-181 | the shifting loop and the full reset are one and the same ageing |
| RateRing.ShiftedCounts | web/broker/broker.go:172-181 | shifting the ring by any amount is ageing the log by it |
| RateRing.ReadCountsTrailingWindow | web/broker/broker.go:186-211 | on a forward clock, with no event in the window of a call at second 0, a read answers the number of events in (now - 10, now] |
| RateRing.ReadsExactIff | web/broker/broker.go:165-211 | and that condition is necessary: every read at every point is exact if and only if it holds |
| RateRing.WallClockExactIff | web/broker/broker.go:165-211 | on a clock without negative seconds: if and only if no event is recorded at second 0 |
| RateRing.ReadsDoNotDisturb | web/broker/broker.go:193-205 | runs that record the same events give the same answers, however many reads they contain |
| RateRing.AgesAreElapsed | web/broker/broker.go:160-184 | on every clock that never shows second 0, also backwards or wrapping, an event's age is the forward movement of the clock since it |
| RateRing.ZeroClockMiscounts | web/broker/broker.go:165-167 | an event recorded at clock second 0 is counted outside its window |
| SseFrames.Stream.WriteFrame | web/broker/broker.go:115-121 | the written text stays the preamble followed by the encoded frames |
| SseFrames.PreambleSetsRetry | web/broker/broker.go:83-83 | the preamble sets the reconnection time to 3000 and dispatches nothing |
| SseFrames.FrameDispatches | web/broker/broker.go:115-121 | a frame without line endings dispatches exactly one message and leaves no partial event |
| SseFrames.RoundTrip | web/broker/broker.go:115-121 | parsing any list of such frames yields exactly them, in order, an absent name read as "message" |
| SseFrames.SurvivesIff | web/broker/broker.go:115-121 | a stream comes out as it went in exactly when no frame in it holds a line ending in its name or data |
| SseFrames.Stream.Received | web/broker/broker.go:83-121 | so for everything written to one response so far |
| SseFrames.LineEndingsAgree | web/broker/broker.go:115-121 | the standard's parser ends a line at LF, CR LF or CR alike |
| SseFrames.ByteOrderMarkDropped | web/broker/broker.go:83-83 | a byte order mark before the stream would be dropped |
| SseFrames.OtherLines | web/broker/broker.go:115-121 | comments, fields without a colon and ids are read as the standard says |
| SseAdmission.AdmissionBounds | web/broker/broker.go:64-96 | the counter is the number of handlers inside, the admitted never exceed the limit, the map exceeds it by at most the departing; at rest both are empty |
| SseAdmission.RefusedOnlyWhenFull | web/broker/broker.go:65-69 | a handler is refused exactly when the limit was reached as it entered |
| SseAdmission.TurnedAwayIsNoClient | web/broker/broker.go:65-76 | a handler refused, or without a flusher, never has a client in the map |
| SseAdmission.MapCanExceedLimit | web/broker/broker.go:91-96 | the map really can hold more clients than the limit |
| Stats.SnapshotOrdered | web/broker/stats.go:20-34 | a snapshot taken while events are counted has Total at least the sum of Counts |
| Stats.TotalIsSumAtRest | web/broker/broker.go:143-158 | the total is the sum of the five counters plus the events half counted |
| Stats.CountsByKind | web/broker/broker.go:143-157 | each counter is the number of finished recordings of its own kind, the total the number of events seen |
| Stats.SnapshotBracketed | web/broker/stats.go:20-34 | a snapshot shows each counter as it was at some moment between its beginning and its end |
| Stats.FiveLoads | web/broker/stats.go:20-34 | it is taken by exactly five loads, whatever is counted meanwhile |
| BrowserClient.KleverSubscriber.Request | examples/browser/klever-subscriber.js:137-153 | rejected at once when not open; otherwise a new id, timer, table entry and frame |
| BrowserClient.KleverSubscriber.OnTimer | examples/browser/klever-subscriber.js:144-149 | a timer settles its promise only if it is still pending |
| BrowserClient.KleverSubscriber.OnMessage | examples/browser/klever-subscriber.js:209-233 | a reply settles the pending promise under its id; errors and events are emitted; the rest is ignored |
| BrowserClient.KleverSubscriber.FailPending | examples/browser/klever-subscriber.js:243-249 | every pending promise is rejected once with the given cause, its timer cleared, the table emptied |
| BrowserClient.KleverSubscriber.Unsubscribe | examples/browser/klever-subscriber.js:197-205 | one request per dimension named, promises in that order; a call naming none is rejected |
| BrowserClient.KleverSubscriber.OnClose | examples/browser/klever-subscriber.js:84-88 | the close of any socket rejects everything pending and forgets the current socket, whichever it was |
| BrowserClient.StaleCloseDisconnectsIff | examples/browser/klever-subscriber.js:84-88 | a close leaves the client without a socket; the one it had is still open exactly when it was another one that closed |
| BrowserClient.ClosedByIff | examples/browser/klever-subscriber.js:84-88 | over runs, a promise is rejected by the close of a socket exactly when that one closes while it is pending |
| BrowserClient.WronglyClosedIff | examples/browser/klever-subscriber.js:84-88 | over runs, a request is failed by a connection it was not sent on exactly when some other socket than its own closes while it is pending |
| BrowserClient.StaleCloseHappens | examples/browser/klever-subscriber.js:61-88 | a run in which a request on a second connection is rejected because the first one closes |
| BrowserClient.UnsubscribeSplits | examples/browser/klever-subscriber.js:197-205 | no request it sends names types and addresses together |
| BrowserClient.NextInv | examples/browser/klever-subscriber.js:137-153 | every event keeps table, timers and unsettled promises in step |
| BrowserClient.SettledAtMostOnce | examples/browser/klever-subscriber.js:137-153 | no promise is settled twice; the unsettled are those in the table, each with its timer running |
| BrowserClient.CloseSettlesAll | examples/browser/klever-subscriber.js:84-88 | after a close every promise has been settled exactly once and no timer runs |
| BrowserClient.SettledForGood | examples/browser/klever-subscriber.js:209-221 | late replies, timers and closes change nothing |
| BrowserClient.ReplySettlesItsRequest | examples/browser/klever-subscriber.js:214-221 | a reply settles the promise of its request with its error or data, and no other |
| Promises.ListenersHear | examples/browser/klever-subscriber.js:209-233 | over runs, listeners hear in order of exactly the messages that answer no pending request: the event if it has a type, else the error |
| Promises.PromiseIsSettled | examples/browser/klever-subscriber.js:137-153 | over runs, a promise is settled by the first of its timer, a message under its id and a close, with that cause, and by nothing else |
| Promises.RequestSends | examples/browser/klever-subscriber.js:137-153 | one frame, on the open socket, with what was asked, under the id the promise waits for; none when not open |
| Promises.FrameIdsDistinct | examples/browser/klever-subscriber.js:143-143 | no two frames bear the same id |
| Promises.SocketsFollow | examples/browser/klever-subscriber.js:84-98 | `isOpen` is true exactly between the opening of the current socket and its closing |
| WaitForEvent.TargetIsNotMissed | examples/wait-for-event/main.go:63-123 | whenever the target lands, it is found, or a reply or push that brings it is still to come, or its own push found the buffer full |
| WaitForEvent.SearchStep | examples/wait-for-event/main.go:87-123 | no step, a landing or the loss of another item included, sets the search back, and the one it waits for brings it nearer |
| WaitForEvent.TargetIsFound | examples/wait-for-event/main.go:87-123 | in every fair endless run, whatever else lands or is dropped, a target on chain is found, or its own push is dropped after the lookup came too early |
| WaitForEvent.FoundIff | examples/wait-for-event/main.go:87-123 | and it is found if and only if the latter never happens |
| WaitForEvent.SearchEnds | examples/wait-for-event/main.go:99-123 | while nothing further lands, the search ends within the work left, with a target on chain found unless its own push was dropped |
| WaitForEvent.OverflowCanMiss | examples/wait-for-event/main.go:99-123 | a run in which 256 buffered items cost the target, with nothing under way that could still bring it |
| WaitForEvent.FoundOnlyIfLanded | examples/wait-for-event/main.go:87-122 | nothing is announced or found that is not on chain |

## Left out

- `Start` and `connect` are not a Dafny loop: other goroutines act between any two of their statements,
  so the control point is part of the state and each statement a step.
- Requests that time out after the node may or may not have acted: `Lifecycle` and `Subscriptions` take
  an unacknowledged request as one the node did not act on, so a `RemoveSubscriptions` that fails
  ambiguously is not covered.
- A request frame written between `activeConn` being set and the handshake frame being written: the node
  is taken to see the handshake first.
- The node: its behaviour is an assumption (subscribe adds, unsubscribe subtracts in the one dimension
  given, frames of one connection are handled in order), and its reading of mixed requests is arbitrary.
- CommitCoversIff, UpdateCanBeLost: a removal that names types and addresses is taken to go through in
  both; `MixedDropAgreesIff` says what the other reading makes of it.
- NoOrphanedRequest: runs stop before the int64 counter has gone round and ids repeat, after 2^64 calls;
  `RequestIdsEqualIff` says when that is.
- SettledAtMostOnce: runs stop before the browser's counter reaches 2^53, where numbers start to skip;
  the class counts on.
- SnapshotOrdered: the event counters do not wrap at 2^64, because no run of the program gets there; the
  buckets of the ring do wrap.
- ReadCountsTrailingWindow: a clock whose readings lie 2^63 seconds or more apart is not covered, because
  the subtraction wraps; the refinement of the log covers every clock.
- Dialling, TLS, ping and read deadlines, and the wire format: operations that succeed or fail, and
  opaque payloads. JSON encoding contributes only that its output has no line ending.
- Panics and `recover`, and user callbacks that misbehave: callbacks are entries in a trace.
- Aliasing between a caller's slices and the subscriber's: lists are values.
- The order in which maps are iterated (failing pending requests): any order is covered, none is promised.
- `broadcast` of the broker: the same loop as `fanOut`, over clients that are never closed.
- The browser client's `connect` promise and listeners, and its `send` throwing.
- How the wait example recognises its target (decoding, case folding), its timeout and error exits.
- The command line, HTTP handlers and pages: single-branch plumbing.
