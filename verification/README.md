# MailPump: a model and its proofs

MailPump copies each message of a source mailbox to a destination mailbox and deletes the original once the copy is
known to be there. It is a handful of goroutines joined by channels: one receiver per source, with a worker goroutine
at a time doing the IMAP work; a pump that passes messages and acknowledgements; an ingester that appends; and a
client that reconnects by itself. This project models that protocol and proves what it keeps.

The main results:

- **No loss.** With any number of sources and arbitrarily colliding UIDs, a UID is put in a `UidStore` of `\Deleted`
  only if an earlier Append, to that source's own mailbox, of the very message known under that UID returned nil, and
  the source has known that message without a break since (`EndToEnd.NothingDeletedUnappended`). One dishonest answer
  from a server is enough for loss, and a run that shows it is built (`HonestyNeeded.OneLieLosesAMessage`). A message
  whose Append failed stays known, is not sent out again and is never marked (`FailedStaysPut`); a message is appended
  at most once per stay (`AppendedOncePerStay`).
- **The receiver's loop.** One joint invariant over the four states, four flags, the worker, the capacity-1 operation
  channel, the known messages and the pending deletes. Whatever servers answer, none of the seven panics is reached, the loop
  never blocks on its own send, no worker is left at the exit, no wake-up is lost, pending deletes go first and the
  batch size is irrelevant. With honest servers every known UID is in exactly one place, and a quitting receiver has
  exited after a bounded number of steps.
- **The pump.** Routing by index and conservation per source. Without intake all that is under way gets acked, in a
  number of steps known beforehand, if and only if pump and ingester are not jammed; with at most 11 messages under way
  they never are, and with 12 a run reaches a jam, which nothing ever undoes. While the receiver sends out a fetch
  result, receiver and pump can come to wait for each other if and only if three counts say so beforehand
  (`Backpressure.StarvesIff`).
- **The reconnecting client.** There is a connection exactly in the connected state, one panic is never reached and the
  other exactly when two callers inside Idle can both be taken while disconnected, every call
  is answered exactly once (a Select dropped at the exit apart), with the very result its connection returned if it was
  forwarded, IDLEs run with their caller's own stop channel, and the backoff delay is an exact function of the
  attempts made so far.

## How it is laid out

Each part of the program is modelled twice. As a value: functions and a nondeterministic step relation over all the
goroutines, about which everything is proved. And in the program's own form: classes whose methods update fields in
place; those that are an event of the model are proved to take the object to the state the functions give for it, the
others to do their part of one.

| file | holds |
|---|---|
| `Imap.dfy`, `Numbers.dfy`, `Paths.dfy` | messages; counting; runs of a step relation and ways of arguing along them |
| `FlagCounter.dfy`, `FetchSet.dfy` | the flag and its channel; `buildSeqSet` and `readMessages` |
| `ReceiverSpec.dfy`, `MailReceiver.dfy` | one iteration of the receiver's loop, as functions and as the class |
| `ReceiverWorkers.dfy` | the worker goroutines `doFetch` and `doDelete` |
| `ReceiverSystem.dfy`, `ReceiverRuns.dfy`, `ReceiverQuit.dfy` | loop, workers and channel together; whole runs; quitting |
| `PumpSpec.dfy`, `PumpRuns.dfy`, `PumpProgress.dfy`, `Pumps.dfy` | pump, ingester and their channels; whole runs; progress; the classes |
| `Backpressure.dfy` | the single pump and a receiver sending out a fetch result, with channels that fill up |
| `EndToEnd.dfy` | N receivers and the pump together |
| `ReceiverHonesty.dfy`, `HonestyNeeded.dfy` | what one dishonest answer does to a receiver, and to the whole |
| `Backoff.dfy`, `ClientSpec.dfy`, `ClientRuns.dfy`, `ClientReplies.dfy`, `PersistentClient.dfy` | the reconnecting client: delays; the relation; its invariant over runs; what it tells its callers; the class |

## What is assumed of the surroundings

- A server answers a `UidStore` only for UIDs it was given, each at most once. This is no part of the step relation but
  a hypothesis on runs (`ReceiverSystem.Honest`, `ReceiverRuns.IsHonestRun`), made only where it is needed;
  `HonestyNeeded.OneLieLosesAMessage` shows that it is.
- `Fetch` and `UidStore` close their channel and then return; a result keeps the UID it is filed under.
- A UID names the same message for the whole run (section 2.3.1.1 of RFC 3501). The theorems are about the message the
  receiver knows under a UID; that the server's message under it is the same one is this assumption.
- At most one caller is inside the reconnecting client's `Idle` at a time. This too is a hypothesis on runs
  (`ClientRuns.Polite`), made by `ClientRuns.PoliteCallersNeverPanic` alone, and `ClientRuns.PanicIff` says exactly what
  happens without it. The receiver has at most one worker (`ReceiverRuns.WorkerAndStateAgree`), so it keeps to it.
- Timers may fire at any step; jitter is any number of milliseconds from 0 to 999.

## Model

| member | source | states |
|---|---|---|
| `EndToEnd.NothingDeletedUnappended` | receiver/imap.go:112-131 | In every honest run of any number of sources, when source i stores UID u as deleted, an earlier Append to source i's mailbox returned nil for the message known under u, which source i has known without a break since; returns that step |
| `EndToEnd.FailedStaysPut` | ingest/ingest.go:105-117 | After a failed Append the message stays known and unacked for the rest of the run: not dispatched again, never stored as deleted |
| `EndToEnd.AppendedOncePerStay` | pump/pump.go:76-95 | Between two Appends for one UID of one source, the source has forgotten that UID |
| `EndToEnd.StoredIsAppended` | receiver/receiver.go:159-179 | In every state of the joint invariant a stored UID is acked and its own message is among those appended to its own mailbox |
| `EndToEnd.KnownIsNotDispatched` | receiver/receiver.go:120-132 | No step sends out a message with a UID its source knows already |
| `EndToEnd.StepKeepsInv` | multipump/multipump.go:125-145 | Every step of a receiver with an honest server, the pump or the ingester keeps the link, per source, between known messages, messages and responses under way, and what was appended or failed |
| `EndToEnd.SentIsTakenOrWaiting` | receiver/receiver.go:130 | In every run and for each source, what its receiver sent out is, in order, what the pump has taken from it and then what waits to be taken |
| `ReceiverRuns.WorkerAndStateAgree` | receiver/receiver.go:243-414 | In every reachable state, whatever servers answer: no panic, no self-block, at most one worker and of the state's kind, the operation channel and blocked sender are one of four patterns, and no worker is left at the exit |
| `ReceiverRuns.EveryUidHasOnePlace` | receiver/receiver.go:117-179 | Each known UID is exactly one of unacked, pending, in flight or abandoned; none is recorded as deleted; it was sent out once per stay |
| `ReceiverRuns.StoresOnlyAcked` | receiver/imap.go:112-131 | A store names only messages acked without error, and happens only with deletions enabled |
| `ReceiverRuns.AbandonedForGood` | receiver/imap.go:150-152 | An acked message that its delete finished without answering for stays known, acked and untried for the rest of the run |
| `ReceiverRuns.PendingGoesFirst` | receiver/receiver.go:324-341 | With acks pending, whatever a resting loop receives, it hands over all of them before any fetch, IDLE or exit |
| `ReceiverRuns.NothingPendingAtExit` | receiver/receiver.go:368-370 | In every run, nothing is pending when the loop has exited with deletions enabled |
| `ReceiverRuns.BatchSizeIsIrrelevant` | receiver/receiver.go:324-326 | Under the flags' invariant the switch behaves the same for every batch size |
| `ReceiverRuns.NoLostWakeup` | receiver/receiver.go:239-242 | After a mailbox update in any state, anything but its end during an IDLE, or a timeout outside a fetch, no IDLE starts until a fetch has |
| `ReceiverRuns.IdleHoldsTheStopChannel` | receiver/receiver.go:353-383 | An IDLE starts on an open stop channel, which stays the flag's current one while it runs |
| `ReceiverRuns.DisturbedIdleIsStopped` | receiver/receiver.go:372-383 | In every run, a disturbed IDLE has its stop channel closed at once; if it is no longer so later, the IDLE was over in between, in the step returned |
| `ReceiverRuns.FetchLeavesOutTheKnown` | receiver/receiver.go:348-352 | In every run, as long as a fetch runs, a number is left out if and only if it is the sequence number recorded for some message known at that moment |
| `ReceiverRuns.FetchAsksForNothingKnown` | receiver/imap.go:41-55 | No fetch of any run, of whatever size, asks for the sequence number recorded for a known message |
| `ReceiverRuns.EveryFetchHasACause` | receiver/receiver.go:343-352 | Every fetch that starts was caused by a mailbox update, a disturbed IDLE or a timeout since the last one started; returns that step |
| `ReceiverRuns.NeverStalls` | receiver/receiver.go:379-407 | From its first event to its exit the receiver always has a step to take that waits for nothing but its own workers |
| `ReceiverRuns.AckPutsDeleteInHand` | receiver/receiver.go:271-276 | In every run an ack without error makes an unacked message pending or part of a delete that has started; an ack with an error leaves it unacked |
| `ReceiverRuns.HonestRuns` | receiver/receiver.go:146-151 | An honest run is a run, of the relation that lets servers answer anything, whose every answer is honest |
| `ReceiverQuit.QuitBoundsVisits` | receiver/receiver.go:319-370 | After a quit, in any run, StateNone is visited at most once per outstanding ack, once for a waiting batch, once to leave, and once per refused delete |
| `ReceiverQuit.QuitBoundsProgress` | receiver/receiver.go:236-420 | After a quit the progress steps, of workers and the loop, are bounded by a measure that only refused deletes raise |
| `ReceiverQuit.QuitExits` | receiver/receiver.go:417-420 | From the step that asks it to quit, a receiver has exited after as many progress steps as the measure says, refused deletes included |
| `ReceiverQuit.QuitBoundsAnswers` | receiver/receiver.go:258-267 | After a quit, answers to stores are bounded by the messages that can still be answered for and the deletes refused |
| `ReceiverQuit.QuitStuckHasExited` | receiver/receiver.go:368-370 | A quitting receiver for which no progress step is possible has exited |
| `ReceiverQuit.ProgressIsPossible` | receiver/receiver.go:279-280 | Until it has exited, a quitting receiver has such a step to take |
| `ReceiverQuit.QuitStartsNothing` | receiver/receiver.go:250-254 | From the step that asks it to quit, that step included, no fetch and no IDLE starts and nothing is dispatched |
| `ReceiverQuit.QuitIsHeeded` | receiver/receiver.go:236-238 | A receiver asked to quit is quitting in every later state, having dispatched nothing since |
| `ReceiverQuit.QuitStep` | receiver/receiver.go:319-322 | One step of a quitting receiver: nothing new is begun, and a visit to StateNone uses one up |
| `ReceiverSystem.InvKept` | receiver/receiver.go:224-415 | Every step of the loop, a worker or the outside with an honest server keeps the joint invariant over control and data |
| `ReceiverSystem.SteadyKept` | receiver/receiver.go:224-415 | Every step, with any answer from a server, keeps the invariant over control |
| `ReceiverSystem.RestCases` | receiver/receiver.go:319-370 | Under the flags' invariant StateNone comes to: all pending deletes, else leave if quitting, else a wanted fetch, else an IDLE |
| `ReceiverSystem.IterationGoesOnOrLeaves` | receiver/receiver.go:288-414 | From any state of the control invariant an iteration goes on or leaves: no panic site, no blocking on `opChan` |
| `ReceiverSpec.FetchDispatchesTheUnknown` | receiver/receiver.go:117-136 | In whatever order the result is walked, exactly the unknown messages go out, once each, and become known as unacked; known entries are unchanged |
| `ReceiverSpec.NewMessagesUids` | receiver/receiver.go:120-132 | The UIDs sent out are the fetched ones less the known ones, each once |
| `Receiver.MailReceiver.constructor` | receiver/receiver.go:205-214 | A new receiver is at rest with no flags, no known and no pending messages |
| `Receiver.MailReceiver.HandleFetch` | receiver/receiver.go:117-136 | Files the unknown messages in place, sends them out, returns how many; known entries stay the same objects |
| `Receiver.MailReceiver.HandleDelete` | receiver/receiver.go:138-157 | Forgets a deleted message; sets the state of a refused one in place and returns it |
| `Receiver.MailReceiver.HandleAck` | receiver/receiver.go:159-179 | Turns an unacked message, and nothing else, into an acked one, and only without error |
| `Receiver.MailReceiver.OnFetch` | receiver/receiver.go:245-257 | A fetch result: the panic outside a fetch, discarded when quitting, handled otherwise |
| `Receiver.MailReceiver.OnAnswer` | receiver/receiver.go:258-267 | A delete result: the panic outside a delete, and a refused one is queued and flagged |
| `Receiver.MailReceiver.OnAck` | receiver/receiver.go:271-276 | An ack: what becomes acked is queued, and flagged unless deletions are off |
| `Receiver.MailReceiver.BuildCurrentSequence` | receiver/imap.go:29-36 | A number is in the result if and only if it is the sequence number recorded for some known message |
| `Receiver.MailReceiver.ReceiveEvent` | receiver/receiver.go:235-281 | The select, for each kind of event it can receive, and the client told to quit on a quit and only then |
| `Receiver.MailReceiver.RestState` | receiver/receiver.go:319-370 | StateNone after the operation check: the job started, with the batch, the sequence numbers or the stop flag's current channel it is given |
| `Receiver.MailReceiver.SwitchAtRest` | receiver/receiver.go:289-370 | StateNone on each operation, with its panic |
| `Receiver.MailReceiver.SwitchInIdle` | receiver/receiver.go:372-386 | StateInIDLE on each operation, with its panic |
| `Receiver.MailReceiver.SwitchInFetch` | receiver/receiver.go:387-399 | StateInFetch on each operation, with its panic |
| `Receiver.MailReceiver.SwitchInDelete` | receiver/receiver.go:400-413 | StateInDelete on each operation, with its panic |
| `Receiver.MailReceiver.Iterate` | receiver/receiver.go:224-415 | One iteration on the shared, mutable state is the select function followed by the switch function |
| `Receiver.MailReceiver.IterateInRun` | receiver/receiver.go:224-415 | In any state of the control invariant the iteration does what the step relation says and reaches no panic site, and an IDLE it starts is given an open stop channel |
| `ReceiverWorkers.DoFetch` | receiver/imap.go:57-105 | Fetches exactly when there is something free to fetch, asks for exactly the fetch set, and returns the last message for each UID |
| `ReceiverWorkers.DoDelete` | receiver/imap.go:107-160 | Stores exactly the acked messages of the batch if there are any, and expunges last in any case; tells deleted for each entry marked so, then for each answer in order deleted if it carries `\Deleted` and refused otherwise |
| `ReceiverWorkers.HasDeletedFlag` | receiver/imap.go:134-140 | Finds `\Deleted` exactly when it is among the flags |
| `ReceiverWorkers.DeleteIsTheWorker` | receiver/imap.go:107-153 | Whatever an honest server answers, what the worker sends is within the rules for its results |
| `ReceiverWorkers.DeleteIsARun` | receiver/imap.go:112-148 | All that a delete of any batch sends is delivered, result by result, in some run of the receiver, at whose end a message answered for with the flag is forgotten and one answered for without it is known, acked and pending |
| `ReceiverHonesty.DishonestAnswerStores` | receiver/receiver.go:146-151 | While a store is answered, one dishonest answer for an unacked message leads, honestly and without an ack, to a store of that message |
| `HonestyNeeded.DishonestAnswerDeletes` | receiver/receiver.go:146-151 | The same from every state in which a source waits for answers to a store and knows a message that is unacked and was never appended |
| `HonestyNeeded.OneLieLosesAMessage` | receiver/receiver.go:146-151 | An honest run, one dishonest answer, an honest run from there, and a source stores a UID of which nothing was ever appended |
| `FetchSet.BuildSeqSet` | receiver/imap.go:41-55 | The min(maxSize, free) smallest free numbers; the 32-bit counter wraps exactly on a mailbox of 2^32-1 messages with fewer than maxSize free |
| `FetchSet.FetchSetUnique` | receiver/imap.go:41-55 | Being the smallest free numbers determines the set |
| `FetchSet.RoundsCover` | receiver/receiver_test.go:184-228 | Repeated fetching takes min(rounds * maxSize, free) numbers, and all of them exactly when rounds * maxSize reaches their count |
| `FetchSet.RoundsDisjoint` | receiver/receiver_test.go:184-228 | No number is asked for in two rounds |
| `FetchSet.ReadMessages` | receiver/util.go:27-42 | Strictly increasing UIDs, which are the map's keys and those of the stream, each bound to a message of the stream after which none has its UID |
| `FlagCounters.FlagCounter.Flag` | receiver/flagcounter.go:35-41 | One more; the first closes the channel, which is open before (closing twice is excluded by contract) |
| `FlagCounters.FlagCounter.FlagIf` | receiver/flagcounter.go:43-47 | Flags exactly when told to |
| `FlagCounters.FlagCounter.FlagMany` | receiver/flagcounter.go:49-56 | Flags by a count, zero included |
| `FlagCounters.FlagCounter.IsFlagged` | receiver/flagcounter.go:58-60 | Flagged exactly when the current channel is closed |
| `FlagCounters.FlagCounter.Reset` | receiver/flagcounter.go:62-65 | Back to zero with a new, open channel |
| `FlagCounters.NeverClosedTwice` | receiver/flagcounter.go:35-65 | However it is used, no channel is closed twice and the current one is closed exactly while the count is positive |
| `FlagCounters.FlagByIsRepeatedFlag` | receiver/flagcounter.go:49-56 | Flagging by n is n single flags: same count, same channels closed |
| `FlagCounters.WrapAround` | receiver/flagcounter.go:35-56 | On a 64-bit counter: counting is right exactly without wrap-around, and the channel closed exactly while flagged unless the sum is 2^64 |
| `PumpSpec.RoutesPartition` | multipump/multipump.go:81-104 | The 2n+1 cases are one receive and one reply per source and the exit, without overlap or gap |
| `PumpSpec.InvKept` | multipump/multipump.go:125-145 | Every step of pump and ingester keeps routing, and taken = acked + in flight for each source |
| `PumpProgress.TakenIsAckedOrUnderWay` | multipump/multipump.go:125-145 | In every run, per source and message by message, what was taken is acked to it or under way, and every Append tried went to the mailbox of the source the message came from |
| `PumpRuns.ArrivedIsTakenOrWaiting` | multipump/multipump.go:129-139 | In every run and for each source, what arrived is, in order, what was taken and then what waits |
| `PumpRuns.AcksAreReadInOrder` | receiver/receiver.go:90-103 | In every run and for each source, the acks given are, in order, those its receiver has read and then those that wait |
| `PumpRuns.OutcomesAreThoseReturned` | ingest/ingest.go:105-117 | The requests counted as appended, or as failed, are exactly those whose Append returned so |
| `PumpRuns.ReceiversAreToldTheTruth` | ingest/ingest.go:67-79 | In every run an ack without error is for a message of that source that was appended; one with an error for one whose Append failed or which was refused for want of a UID or an ingester |
| `PumpRuns.LeavingIsFinal` | pump/pump.go:90-92 | Once the stop channel is chosen nothing is ever chosen, handed over, taken or acked again |
| `PumpRuns.QuittingIsFinal` | ingest/ingest.go:95-121 | Once the ingester has quit nothing more is appended, and whatever is taken is acked with an error |
| `PumpProgress.ElevenNeverBlock` | pump/pump.go:60 | A jam of select loop and ingester takes at least 12 messages under way |
| `PumpProgress.DrainEnds` | pump/pump.go:76-90 | Without intake, a drain that can go no further has left nothing under way if and only if it did not start from a jam; it goes on as long as something is under way and the two do not wait for each other, in a number of moves known beforehand whatever their order |
| `PumpProgress.JammedForGood` | pump/pump.go:76-90 | From a jam, no run acks anything more; from a mutual wait, none appends anything either |
| `PumpProgress.NothingUnderWay` | multipump/multipump.go:125-145 | Nothing under way means that all ever taken has been acked, source by source |
| `PumpProgress.TwelveCanBlock` | ingest/ingest.go:100-117 | A run of the single pump reaches a state with 12 under way in which each waits for the other, and from which every run stays so, acking and appending nothing |
| `Backpressure.FlowIsThePump` | pump/pump.go:76-95 | The counts move as the pump does, step by step in both directions, given room on the out and ack channels |
| `Backpressure.StarvesIff` | receiver/receiver.go:130 | While a fetch result is sent, loop and pump can come to wait for each other if and only if the messages held and still to be taken exceed the room for acks by two, or those not being acked come to 13 |
| `Backpressure.SafeSendsAll` | receiver/receiver.go:117-136 | When the counts are safe, every way of going on ends, in boundedly many moves, with all of the fetch result sent |
| `Backpressure.SmallFetchIsSafe` | pump/pump.go:29 | A fetch no larger than the out channel never starves on an empty one; 20 queued, 11 held and 20 to send may |
| `Pumps.MultiPump.constructor` | multipump/multipump.go:68-104 | Channels per source are all different and the case array is laid out as receive, reply, exit |
| `Pumps.NewPump` | multipump/multipump.go:53-66 | No sources and a mismatch of sources and mailboxes are errors; anything else gives a pump in the initial state |
| `Pumps.MultiPump.HandleIncoming` | multipump/multipump.go:129-139 | A message goes to its source's mailbox with its source's channel, or is acked with the error to its source |
| `Pumps.MultiPump.HandleResponse` | multipump/multipump.go:140-143 | A response acks the receiver its channel belongs to |
| `Pumps.MultiPump.Tick` | multipump/multipump.go:125-149 | One iteration, for any index, is the step of the case that index stands for, on every channel and receiver; it stops exactly on the last index |
| `Pumps.MailPump.Tick` | pump/pump.go:76-95 | One iteration of the single pump is the same step with one source; it stops exactly on the stop channel |
| `Pumps.IngestClient.IngestMessage` | ingest/ingest.go:67-79 | Refuses a zero UID and a shut-down ingester, and otherwise offers the request |
| `Pumps.IngestClient.Serve` | ingest/ingest.go:100-117 | Answers on the channel the request came with, with its UID and the outcome of the Append, there being room |
| `Pumps.MultiPump.ServeIngest` | ingest/ingest.go:100-117 | A request through the ingester is the three steps of handing over, appending and answering |
| `Pumps.ReceiverClient.Ack` | receiver/receiver.go:90-103 | Queues the ack unless the UID is zero |
| `Backoff.BackoffClosedForm` | imap/persistentclient/persistentclient.go:266-288 | After k failures from the start (since a connection) the delay is exactly 2^(k-1) (2^k) seconds plus the last jitter, cut off at the maximum |
| `Backoff.MaximumIsTheConfigured` | imap/persistentclient/persistentclient.go:404-408 | The maximum in force is the configured one, 64 seconds if none is, and never below one second |
| `Backoff.CapAbsorbs` | imap/persistentclient/persistentclient.go:271-278 | Once at the maximum, always at it, whole seconds or not |
| `Backoff.NoOverflowIff` | imap/persistentclient/persistentclient.go:268-278 | 64-bit arithmetic agrees for every delay and jitter exactly when twice the maximum's whole seconds plus 999 ms fits |
| `ClientSpec.InvKept` | imap/persistentclient/persistentclient.go:223-400 | Every step of a caller or the loop keeps the client's joint invariant |
| `ClientSpec.DrainAccounts` | imap/persistentclient/persistentclient.go:366-400 | Draining answers or drops each blocked call, once |
| `ClientRuns.ConnectionIffConnected` | imap/persistentclient/persistentclient.go:286-357 | In every run, whatever callers do: "not in idle" is never reached, no request without a connection; a connection exactly while connected; connections made are lost, current or logged out, at most one of the last, at the exit |
| `ClientRuns.PoliteCallersNeverPanic` | imap/persistentclient/persistentclient.go:233-261 | In every run with at most one caller inside Idle at a time, no panic is reached |
| `ClientRuns.PanicIff` | imap/persistentclient/persistentclient.go:244-251 | In every reachable state the client may panic, without a further Idle, if and only if two callers are inside whose requests can both be taken while disconnected |
| `ClientRuns.SecondIdlePanics` | imap/persistentclient/persistentclient.go:246-248 | Two callers at the very start are a run after which the client may panic |
| `ClientRuns.AnsweredOnce` | imap/persistentclient/persistentclient.go:306-399 | In every run, calls made = answered + waiting + Selects dropped at the exit, caller by caller; nobody waits after the exit |
| `ClientRuns.IdleRunsAsAsked` | imap/persistentclient/persistentclient.go:294-319 | Every IDLE run on a connection got its caller's stop channel and options |
| `ClientRuns.RefusedOnlyAfterLogout` | imap/persistentclient/persistentclient.go:40-161 | In every run, however often the connection is lost, nobody is told it is closed, or given a made-up mailbox, before a logout has been asked for |
| `ClientRuns.HeldIdleStops` | imap/persistentclient/persistentclient.go:233-243 | A held IDLE whose stop channel is closed can be ended, with a nil reply, while disconnected |
| `ClientRuns.DelayIsBounded` | imap/persistentclient/persistentclient.go:266-288 | The delay of every reachable state keeps to the closed form for the failures so far |
| `ClientReplies.ResultsAreTheConnections` | imap/persistentclient/persistentclient.go:294-341 | In every run the callers told a result are, in order, those whose IDLE or call was forwarded, each with the very result its connection returned |
| `ClientReplies.NilsAreForTheStopped` | imap/persistentclient/persistentclient.go:233-261 | In every run those told nil are, in order, the IDLEs stopped or cut short while disconnected and the callers who asked to log out |
| `ClientReplies.EveryReplyFits` | imap/persistentclient/persistentclient.go:379-394 | In every run a forwarded call is told its result, or after a logout was asked for the refusal of its kind, and never nil |
| `ClientReplies.LogoutIsHeard` | imap/persistentclient/persistentclient.go:163-173 | The first request to log out waits, neither refused nor forgotten, until the loop takes it |
| `ClientReplies.LogoutIsFinal` | imap/persistentclient/persistentclient.go:345-363 | A logout taken by the loop ends it for good, with no connection, nobody waiting, and the blocked Selects left without a reply |
| `ClientReplies.ConnectionIsTheCurrent` | imap/persistentclient/persistentclient.go:286-310 | In every run, short of a panic, the connection is the one last made and not since lost or logged out |
| `ClientReplies.DelayFollowsTheFailures` | imap/persistentclient/persistentclient.go:266-288 | The delay of every state, exactly, as a function of the attempts made so far |
| `ClientReplies.IdlesRunAreThoseGiven` | imap/persistentclient/persistentclient.go:294-319 | The IDLEs run on connections are, in order, those upgraded and those taken while connected, with their own stop channel and options |
| `ClientReplies.ClosedStopEndsHeldIdle` | imap/persistentclient/persistentclient.go:233-243 | A caller that closed its stop channel, no matter when, can have its held IDLE answered nil while disconnected |
| `PersistentClient.PersistentIMAPClient.constructor` | imap/persistentclient/persistentclient.go:402-434 | A new client is in the initial state; its maximum delay is the configured one, or the default, or a second |
| `PersistentClient.PersistentIMAPClient.Idle` | imap/persistentclient/persistentclient.go:40-54 | Refused once shut down; otherwise blocked with its own stop channel and options |
| `PersistentClient.PersistentIMAPClient.Logout` | imap/persistentclient/persistentclient.go:163-173 | Only the caller that sets the flag asks the loop; the others get nil at once |
| `PersistentClient.PersistentIMAPClient.WakeUp` | imap/persistentclient/persistentclient.go:233-264 | The select while disconnected; the panic "already in idle" exactly when an IDLE is taken while one is held, the other never |
| `PersistentClient.PersistentIMAPClient.Connect` | imap/persistentclient/persistentclient.go:266-288 | A failure sets the next delay, a success the connection and the state |
| `PersistentClient.PersistentIMAPClient.UpgradeIdle` | imap/persistentclient/persistentclient.go:294-304 | The held IDLE runs with the saved stop channel, is answered, and is held no more |
| `PersistentClient.PersistentIMAPClient.Forward` | imap/persistentclient/persistentclient.go:320-341 | A call is taken off the channel and told the result its connection returned |
| `PersistentClient.PersistentIMAPClient.Finish` | imap/persistentclient/persistentclient.go:345-363 | A logout ends a held IDLE, is answered, logs the connection out and sends everyone else away |
| `PersistentClient.PersistentIMAPClient.DrainCalls` | imap/persistentclient/persistentclient.go:379-394 | Empties the channel, replying to each call in turn but for the Selects |
| `PersistentClient.PersistentIMAPClient.DrainIdlers` | imap/persistentclient/persistentclient.go:373-378 | Turns away everyone blocked in Idle, in turn |
| `PersistentClient.PersistentIMAPClient.Run` | imap/persistentclient/persistentclient.go:223-364 | After any run of events the object is in the state the run of the model ends in |

## Left out

- Only `Backpressure.dfy` has out and ack channels that fill up, for the single pump; elsewhere they are unbounded and a
  fetch's messages are sent in one step. With several sources that share a pump the waiting they cause is not modelled.
- Sequence numbers are those recorded at fetch time; that an expunge renumbers messages (section 7.4.1 of RFC 3501) is
  not modelled, as the program only logs it. The fetch set excludes the recorded numbers.
- Deletions that the server refuses or does not answer, and failed acks, are not retried for ever or at all; nothing is
  claimed about their being done in the end.
- Expunge, which also removes messages others flagged (section 6.4.3 of RFC 3501): the theorems are about the store set.
- Shutdown of the ingester is one step that happens while nobody is handing it a message: the race between the test in
  `IngestMessage` and `drain`, and `drain` itself, are not modelled. Nor are calls made on the reconnecting client's
  closed channels after its exit, or result channels left unclosed by its draining.
- The client told to quit is not joined to the receiver (receiver/receiver.go:238): its answer is the logout of the client
  model. A worker may finish at any moment in either case.
- A call forwarded to a connection, the IDLE it upgrades included, is one step of the client's loop.
- The order in which blocked callers are drained: the model takes the IDLE first and then the calls in order, the
  program's select any of them. Which replies are given does not depend on it.
- FetchSet.BuildSeqSet: once the 32-bit counter has wrapped, it reports that and stops; what the program then does with
  the number zero is left to the IMAP library.
- FetchSet.SortUids: stands for the library's in-place sort and works on a sequence.
- FlagCounters.FlagCounter.FlagMany: the count is a natural number; `FlagCounters.WrapAround` says exactly when Go's
  `uint` would differ.
- ReceiverWorkers.DoDelete: the batch is a snapshot of the entries handed over; no step changes the state of an entry in
  a batch before the server has answered for it.
- The pairing of source names with mailboxes in `cmd/run-multi`, which is made by two separate map walks: the model
  starts from a given list of mailboxes.
- Network, TLS, authentication, configuration, signals, logging, timers as durations, message bodies and the encoding of
  sequence sets.
- `imap/client/client.go`, which forwards every call unchanged, and the default values of the receiver's configuration.
