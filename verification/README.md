# Verified model of the EV-charging backend's core protocols

The repository is the backend of an EV-charging network. This project models the
parts of it whose correctness depends on more than one function at a time, and
proves what they promise over every run, every interleaving or every input:

- **Concurrent protocols** as step relations in which any enabled step may fire:
  redemption of team invites under a per-code lock (`TeamJoin`), correlation of
  OCPP-J calls with their replies on one socket (`LiveConnections`), the chain from
  a command log through a message broker and a gateway node to that socket
  (`CommandChain`), the meter-reading buffer whose flush swaps before it awaits
  (`MeterValues`), fan-out to consumers whose handlers are awaited between the
  deduplication check and the mark (`EventBus`), and the carbon-intensity cache
  around an awaited provider (`Carbon`).
- **State machines whose whole history matters**: transactions with retried stops
  (`Transactions`), charger presence (`Presence`), refresh-token families
  (`RefreshTokens`), the fixed-window limiter (`RateLimiter`), and the card-failure
  streak (`SessionBilling`).
- **Aggregates against a direct sum**: the nightly rollup read back by the cost
  report (`Rollup`), the wallet ledger (`Wallet`), invoices and credit notes
  (`Invoicing`).
- **Rounding** over exact arithmetic: the tariff calculator in its two versions
  (`Tariff`), basis-point discounts and payouts (`BasisPoints`), both on `Rounding`.

Stateful components are modelled in layers. A pure `Step` and `Run` give the state
after any history of events; an event that cannot happen leaves the state alone.
Reference definitions are read off the history (the first reply to a call, the streak
of declines, the value stored last for a zone); a few of them count what happened at the
steps of the run, such as losses of presence or completions of a call, and so look
at the states between. Lemmas relate state and reference for all histories. A class
with the source's fields then carries a ghost history, and every method is proved to move
the fields exactly as `Step` does, so the lemmas hold of the object.

What happens between two points where a call really suspends is one event: awaiting a
lock, a handler, a socket, a sink, the broker or a provider suspends; the in-memory
stores and the limiter do not. Where a call suspends after it has read or changed
something, its parts are separate events (`TeamJoin`, `LiveConnections`,
`CommandChain`, `MeterValues`, `EventBus`, `Carbon`); where it suspends only before that, as
in `SessionBilling` and in starting a transaction, whole calls are the events, in the
order in which they resume. A heartbeat sweep may be interrupted as it announces a
loss; it is then a sweep of each part of its list (`Presence.SweepSplits`).

Oracles are parameters: clock readings, drawn identifiers, handlers that raise, the
payment provider, the carbon provider, the broker, the charge point. Drawn
identifiers are taken to be unused. `Seqs` holds counting and summing lemmas.

## Model

| member | source | states |
|---|---|---|
| `TeamJoin.NoOverRedemption` | backend/src/evagg/fleet/team_invites.py:55-71 | In every interleaving the use count has grown since the invite was stored by exactly the slots handed out, and never passes the limit unless it was stored above it |
| `TeamJoin.MutualExclusion` | backend/src/evagg/fleet/team_invites.py:56-64 | At most one task is inside the critical section of a code |
| `TeamJoin.Reachable` | backend/src/evagg/fleet/team_invites.py:55-71 | The inductive invariant of all runs: the lock table names exactly the tasks in a critical section, a task past its check still has a free slot, counts add up |
| `TeamJoin.StepKeeps` | backend/src/evagg/fleet/team_join.py:38-60 | Every enabled step of any task keeps that invariant, though check and increment are separate steps |
| `TeamJoin.SlotsGoToContenders` | backend/src/evagg/fleet/team_join.py:56-58 | Since an invite was stored, winners are exactly the smaller of contenders answered and slots available: no slot is wasted and "fully redeemed" is only said when true |
| `TeamJoin.MembershipsAreGrants` | backend/src/evagg/fleet/team_join.py:56-60 | Each membership is recorded as often as joined tasks brought it |
| `TeamJoin.MembershipsMeetGrowth` | backend/src/evagg/fleet/team_join.py:56-60 | At every moment memberships created plus winners not yet recorded equal the growth of all use counts together |
| `TeamJoin.GrantsMatchInvites` | backend/src/evagg/fleet/team_join.py:49-60 | A task that won or joined did so for the driver who asked, with the team and role of an invite it found stored under its code, unexpired |
| `TeamJoin.RefusedIffCaused` | backend/src/evagg/fleet/team_join.py:41-58 | A call is refused for a reason if and only if an event of the run gave cause: the limiter was over its limit, the code was not stored when looked up, its invite had `expires_at <= now`, or its uses were used up when checked |
| `TeamJoin.LookupDecides` | backend/src/evagg/fleet/team_join.py:49-54 | Looking up a code leads to unknown, expired, or waiting with the grant of the invite found |
| `TeamJoin.AdmittedIffBelowLimit` | backend/src/evagg/fleet/team_join.py:41-47 | A call gets past the limiter if and only if fewer than the configured attempts of its requester came before it in its window |
| `TeamJoin.TasksAreCalls` | backend/src/evagg/fleet/team_join.py:38-40 | Task i is the i-th call and keeps what was asked |
| `TeamJoin.InviteIsLastAdded` | backend/src/evagg/fleet/team_invites.py:49-53 | What is stored under a code is the invite last added to it; redemptions move its use count alone |
| `TeamJoin.Progress` | backend/src/evagg/fleet/team_invites.py:56-71 | While a call is unanswered, it or the holder of its lock can step, and that step lessens the work left: no deadlock |
| `TeamJoin.GuessingIsThrottled` | backend/src/evagg/fleet/team_join.py:41-47 | Under a monotone clock one requester gets at most 2·max − 1 attempts past the limiter in any window-long interval |
| `TeamJoin.TeamJoinService.AddInvite` | backend/src/evagg/fleet/team_invites.py:49-50 | Stores an invite, over one of the same code if there is any, while no task is between its check and its increment |
| `TeamJoin.TeamJoinService.Enter` | backend/src/evagg/fleet/team_join.py:41-47 | Calls the limiter under the prefixed key and admits or refuses, as the Arrive step |
| `TeamJoin.TeamJoinService.LookupInvite` | backend/src/evagg/fleet/team_join.py:49-54 | Unknown and expired codes are refused, as the Lookup step |
| `TeamJoin.TeamJoinService.TakeLock` | backend/src/evagg/fleet/team_invites.py:56-57 | Takes a free lock, as the Acquire step |
| `TeamJoin.TeamJoinService.CheckSlot` | backend/src/evagg/fleet/team_invites.py:65-69 | Passes exactly if a slot is free, releases the lock otherwise, as the Check step |
| `TeamJoin.TeamJoinService.CommitSlot` | backend/src/evagg/fleet/team_invites.py:70-71 | Increments and releases, as the Commit step |
| `TeamJoin.TeamJoinService.RecordMembership` | backend/src/evagg/fleet/team_membership.py:35-38 | Appends the winner's membership, as the Record step |
| `RateLimiter.SlidingBound` | backend/src/evagg/gateway/rate_limit.py:24-31 | For one key with one limit L and window W under a monotone clock, no half-open interval of length W holds more than 2L − 1 allowed calls (none if L is not positive) |
| `RateLimiter.BoundIsReached` | backend/src/evagg/gateway/rate_limit.py:24-31 | For every positive limit and window some run reaches 2L − 1 |
| `RateLimiter.FirstCallsPass` | backend/src/evagg/gateway/rate_limit.py:24-31 | A call passes if and only if fewer than L calls of its key precede it in its window, windows being read off the call times alone |
| `RateLimiter.InMemoryRateLimiter.Allow` | backend/src/evagg/gateway/rate_limit.py:24-31 | The dictionary of windows moves as the run does and the verdict is the run's |
| `LiveConnections.EndsOnceWithItsOwnReply` | backend/src/evagg/ocpp_gateway/ws_app.py:63-87 | In every interleaving a call comes back at most once; with a reply only if it is the first frame naming its id since it was sent, as timed out only if its timer fired |
| `LiveConnections.EndIsDecided` | backend/src/evagg/ocpp_gateway/ws_app.py:67-73 | A call that resumes with its reply returns the first frame that named it, one that resumes on its timer times out, one whose frame could not be written fails |
| `LiveConnections.AnsweredInTime` | backend/src/evagg/ocpp_gateway/ws_app.py:67-73 | A call whose timer never fired and whose frame could be written comes back with its reply |
| `LiveConnections.HoldsReplyIffInTime` | backend/src/evagg/ocpp_gateway/ws_app.py:69-87 | An unfinished call can come back with its reply if and only if one came before its timer fired |
| `LiveConnections.SentIsRecorded` | backend/src/evagg/ocpp_gateway/ws_app.py:64-68 | The frame on record is the one sent, action and payload included |
| `LiveConnections.PendingIsUnfinished` | backend/src/evagg/ocpp_gateway/ws_app.py:63-73 | The pending table holds exactly the calls sent and not yet back |
| `LiveConnections.FrameTakesEffect` | backend/src/evagg/ocpp_gateway/ws_app.py:75-87 | A reply frame changes anything if and only if its call is unfinished, unanswered and not timed out |
| `LiveConnections.EndsAreFinal` | backend/src/evagg/ocpp_gateway/ws_app.py:63-87 | What was sent, how calls ended and which reply came first is never rewritten |
| `LiveConnections.RegistryIsLatest` | backend/src/evagg/ocpp_gateway/ws_app.py:99-107 | A charger resolves to x if and only if x is its latest registration and x has not unregistered since |
| `LiveConnections.LiveConnection.BeginCall` | backend/src/evagg/ocpp_gateway/ws_app.py:64-68 | Registers the future and writes the frame, as the Send event |
| `LiveConnections.LiveConnection.Deliver` | backend/src/evagg/ocpp_gateway/ws_app.py:75-87 | Returns true exactly if the frame changed the connection |
| `LiveConnections.LiveConnection.Resolve` | backend/src/evagg/ocpp_gateway/ws_app.py:75-80 | A CallResult as the Frame event, true exactly if it took effect |
| `LiveConnections.LiveConnection.Reject` | backend/src/evagg/ocpp_gateway/ws_app.py:82-87 | A CallError as the Frame event, true exactly if it took effect |
| `LiveConnections.LiveConnection.FireTimer` | backend/src/evagg/ocpp_gateway/ws_app.py:69-71 | The timer cancels a future without a reply, as the Expire event |
| `LiveConnections.LiveConnection.EndCall` | backend/src/evagg/ocpp_gateway/ws_app.py:69-73 | The call returns its reply or times out and its entry is gone |
| `LiveConnections.LiveConnection.AbandonCall` | backend/src/evagg/ocpp_gateway/ws_app.py:67-73 | A call whose send raised leaves no entry behind |
| `LiveConnections.LiveConnectionRegistry.RegisterConnection` | backend/src/evagg/ocpp_gateway/ws_app.py:99-100 | Replaces the charger's entry |
| `LiveConnections.LiveConnectionRegistry.UnregisterConnection` | backend/src/evagg/ocpp_gateway/ws_app.py:102-104 | Removes the entry only if it is this connection |
| `LiveConnections.LiveConnectionRegistry.Get` | backend/src/evagg/ocpp_gateway/ws_app.py:106-107 | Returns the latest standing registration, and nothing exactly if there is none |
| `CommandChain.AcceptedWasAnswered` | backend/src/evagg/ocpp_gateway/nats_command_transport.py:76-143 | In every interleaving a command logged accepted had its own frame sent on one connection, and the first reply to that frame's id was a CallResult with the logged result |
| `CommandChain.AnswerIsTold` | backend/src/evagg/ocpp_gateway/nats_command_transport.py:113-143 | A command that took in its node's answer is told, and logged, accepted with a payload if and only if its call came back with that result, rejected with code and text if and only if with that error, timed out if and only if its timer ended it, internal error if and only if its frame could not be written, and not connected if no call was made |
| `CommandChain.NoBodyIsTold` | backend/src/evagg/ocpp_gateway/nats_command_transport.py:76-94 | No answer is told as timed out, no responders and a garbled body as rejected, each with its reason |
| `CommandChain.RefusedIffOffline` | backend/src/evagg/ocpp_gateway/commands.py:262-267 | A command is refused, and logged as offline, if and only if it was issued to a charger that is not online |
| `CommandChain.StoryReplay` | backend/src/evagg/ocpp_gateway/commands.py:260-279 | Order, sender and log record are what the issue, the end of the wait and the mark make of them |
| `CommandChain.DeliverDecides` | backend/src/evagg/ocpp_gateway/nats_command_transport.py:113-131 | A delivered command is put, with its type and payload, on the latest standing connection of the charger read from the subject, and on no other |
| `CommandChain.RegistryIsOfMoves` | backend/src/evagg/ocpp_gateway/ws_app.py:99-107 | Each node's registry follows its connects and disconnects |
| `CommandChain.AcceptedByItsCharger` | backend/src/evagg/ocpp_gateway/nats_command_transport.py:113-132 | With a dot-free charger id that connection is one of the very node and charger addressed |
| `CommandChain.LogAgreesWithCaller` | backend/src/evagg/ocpp_gateway/commands.py:264-279 | The log says what the caller was told; a command is pending exactly while its caller waits, or if its transport raised |
| `CommandChain.RaisedStaysPending` | backend/src/evagg/ocpp_gateway/commands.py:270-278 | A command whose transport raised stays pending, whatever follows |
| `CommandChain.RaiseLeavesPending` | backend/src/evagg/ocpp_gateway/commands.py:269-278 | A command issued and then failed by an error of the transport is logged pending with nobody waiting |
| `CommandChain.CallsAreNotShared` | backend/src/evagg/ocpp_gateway/nats_command_transport.py:128-132 | Two commands never share a call, so one reply never answers both |
| `CommandChain.CommandsReachTheirCharger` | backend/src/evagg/ocpp_gateway/nats_command_transport.py:31-41 | The node reads back the addressed charger if and only if its id has no dot; then only the addressed node is subscribed |
| `CommandChain.DottedIdMisroutes` | backend/src/evagg/ocpp_gateway/nats_command_transport.py:114-145 | With a dot in the id, a command for one node reaches another node as another charger |
| `CommandChain.SenderReachable` | backend/src/evagg/ocpp_gateway/commands.py:260-279 | Every run keeps orders, senders and log in step, and any outcome a sender holds is final |
| `CommandChain.BridgeReachable` | backend/src/evagg/ocpp_gateway/nats_command_transport.py:113-143 | Every answer a node gives is the wording of how the command's own call ended |
| `CommandChain.RegistryReachable` | backend/src/evagg/ocpp_gateway/ws_app.py:99-107 | In every run a registered connection belongs to the node and charger it is registered under |
| `CommandChain.Read` | backend/src/evagg/ocpp_gateway/nats_command_transport.py:76-101 | Every reply or lack of one is a final outcome, accepted if and only if a body said "accepted" |
| `CommandChain.RemoteCommandService.Create` | backend/src/evagg/ocpp_gateway/commands.py:76-88 | Adds a pending record |
| `CommandChain.RemoteCommandService.MarkResponded` | backend/src/evagg/ocpp_gateway/commands.py:90-94 | Changes the outcome of that record only |
| `CommandChain.RemoteCommandService.Send` | backend/src/evagg/ocpp_gateway/nats_command_transport.py:76-101 | The exception branches and the status table give the outcome the chain's steps use |
| `CommandChain.RemoteCommandService.BeginCommand` | backend/src/evagg/ocpp_gateway/commands.py:260-269 | Up to the transport: logged pending, or rejected as offline with the error, as the Issue event |
| `CommandChain.RemoteCommandService.FinishCommand` | backend/src/evagg/ocpp_gateway/commands.py:270-279 | From the reply on: the outcome logged is final and is the one returned, as the sender's events of the chain |
| `CommandChain.RemoteCommandService.LeaveCommand` | backend/src/evagg/ocpp_gateway/commands.py:270-278 | A transport that raises leaves the record pending, as the Raise event of the chain |
| `CommandChain.RemoteCommandService.Meanwhile` | backend/src/evagg/ocpp_gateway/commands.py:270-277 | Nothing at sockets, nodes or the broker touches the log while a command is awaited |
| `CommandChain.FinishIsLogged` | backend/src/evagg/ocpp_gateway/commands.py:270-279 | Taking in a reply and marking the command logs what the reply says and nothing else |
| `EventBus.Isolation` | backend/src/evagg/ocpp_gateway/event_bus.py:123-160 | In every interleaving of deliveries a consumer ends as it would if it were the only one registered and were handed the same deliveries |
| `EventBus.ConsumerReplay` | backend/src/evagg/ocpp_gateway/event_bus.py:123-160 | In every interleaving a consumer's state is what the deliveries addressed to it make of it, out of stores all consumers share |
| `EventBus.FailuresAreTrailing` | backend/src/evagg/ocpp_gateway/event_bus.py:123-138 | In every interleaving the failure counter is the trailing run of failed attempts, alerts are raised exactly where it reaches the threshold, and the handled list is the attempts that succeeded, in the order attempts ended |
| `EventBus.HandledIffSucceeded` | backend/src/evagg/ocpp_gateway/event_bus.py:127-138 | At least once: an event is handled if and only if some delivery of it did not raise |
| `EventBus.HandledIsSeen` | backend/src/evagg/ocpp_gateway/event_bus.py:124-138 | In every interleaving the handled events are the marked ones |
| `EventBus.SucceedsTwiceIffCrossed` | backend/src/evagg/ocpp_gateway/event_bus.py:123-138 | A handler succeeds twice for an event if and only if a delivery of it begins while another is running and both succeed |
| `EventBus.HandledOnce` | backend/src/evagg/ocpp_gateway/event_bus.py:123-138 | Deliveries of an event made one at a time, its handler succeeds at most once |
| `EventBus.OverlapHandlesTwice` | backend/src/evagg/ocpp_gateway/event_bus.py:123-138 | Redelivering an event while its handler is awaited puts it on the handled list twice |
| `EventBus.DeliveryContract` | backend/src/evagg/ocpp_gateway/event_bus.py:123-160 | For every registered consumer of every interleaving: counter, alerts and handled list are those of its own attempts, without duplicates if and only if no two deliveries of one event cross and both succeed |
| `EventBus.InMemoryEventBus.Publish` | backend/src/evagg/ocpp_gateway/event_bus.py:149-154 | Logs the event and opens a fan-out to every consumer in registration order |
| `EventBus.InMemoryEventBus.Redeliver` | backend/src/evagg/ocpp_gateway/event_bus.py:156-160 | Opens a fan-out to one consumer or to all; an unknown name is an error that changes nothing |
| `EventBus.InMemoryEventBus.BeginDelivery` | backend/src/evagg/ocpp_gateway/event_bus.py:123-128 | The deduplication check of the next delivery: the handler runs exactly if the event is not marked |
| `EventBus.InMemoryEventBus.EndDelivery` | backend/src/evagg/ocpp_gateway/event_bus.py:127-138 | The end of the delivery under way, as the End event; the fan-out moves on |
| `EventBus.InMemoryEventBus.Settle` | backend/src/evagg/ocpp_gateway/event_bus.py:127-138 | A handler that raised is counted and alerted, one that returned is marked and recorded |
| `EventBus.InMemoryEventBus.FanoutIsComplete` | backend/src/evagg/ocpp_gateway/event_bus.py:149-160 | A fan-out that is through has left every target with the event handled or with a failed attempt of this delivery |
| `EventBus.TurnIffEarlierThrough` | backend/src/evagg/ocpp_gateway/event_bus.py:149-160 | A target of a fan-out has begun, or may begin, if and only if every target before it is through |
| `EventBus.SlowConsumerHoldsUpNext` | backend/src/evagg/ocpp_gateway/event_bus.py:149-154 | Two consumers, one publish: until the first one's handler comes back the second is not handed the event |
| `MeterValues.RowsAreConserved` | backend/src/evagg/ocpp_gateway/meter_values.py:69-88 | In every interleaving of adds, flushes and writes, each row is buffered, in flight, written or lost with a failed write as often as it was added |
| `MeterValues.NothingLostIff` | backend/src/evagg/ocpp_gateway/meter_values.py:83-88 | No row is lost if and only if no write under way ever failed |
| `MeterValues.FailedWriteLoses` | backend/src/evagg/ocpp_gateway/meter_values.py:83-88 | A reading whose write fails is neither written nor buffered |
| `MeterValues.FlushedIsWrittenIff` | backend/src/evagg/ocpp_gateway/meter_values.py:83-88 | With the buffer empty, everything added has been written if and only if no batch is in flight or lost |
| `MeterValues.FlushOutrunsWrite` | backend/src/evagg/ocpp_gateway/message_handlers.py:126-130 | A flush before a stop can return while rows swapped out earlier are still being written |
| `MeterValues.FlushCoversIff` | backend/src/evagg/ocpp_gateway/meter_values.py:83-88 | Of distinct rows, whatever other calls do while a flush is awaited, those added before it have all been written if and only if every batch that had left the buffer by then has |
| `MeterValues.BatchesAreBounded` | backend/src/evagg/ocpp_gateway/meter_values.py:69-88 | Batches have one to max rows and leave in order of arrival; fewer than max rows stay buffered |
| `MeterValues.BufferIsYoung` | backend/src/evagg/ocpp_gateway/meter_values.py:76-81 | A row that stays buffered leaves the buffer younger than the flush interval |
| `MeterValues.AddFlushesIff` | backend/src/evagg/ocpp_gateway/meter_values.py:69-81 | An add sends the buffer off if and only if it fills it or finds it as old as the flush interval |
| `MeterValues.FlushSendsAll` | backend/src/evagg/ocpp_gateway/meter_values.py:83-88 | A flush sends off whatever is buffered, and only that |
| `MeterValues.BufferHasOpener` | backend/src/evagg/ocpp_gateway/meter_values.py:69-72 | The age of a buffer is counted from the add that put its first row in |
| `MeterValues.WritesInTurnKeepOrder` | backend/src/evagg/ocpp_gateway/meter_values.py:83-88 | If writes finish in turn, what is written is a prefix of what was added |
| `MeterValues.PrefixIffInTurn` | backend/src/evagg/ocpp_gateway/meter_values.py:83-88 | What has been written of distinct rows is all of them up to some point if and only if writes finish in turn |
| `MeterValues.OrderIffDoneInOrder` | backend/src/evagg/ocpp_gateway/meter_values.py:83-88 | Distinct rows are written in the order added if and only if writes finish in the order their batches left the buffer, whatever is lost or in flight |
| `MeterValues.OverlappingWritesReorder` | backend/src/evagg/ocpp_gateway/meter_values.py:83-88 | If they overlap, rows can be written out of order |
| `MeterValues.MeterValueBuffer.Add` | backend/src/evagg/ocpp_gateway/meter_values.py:69-81 | Up to the awaited write: flushes exactly when size or age demands it, as the Add event |
| `MeterValues.MeterValueBuffer.Flush` | backend/src/evagg/ocpp_gateway/meter_values.py:83-88 | Up to the awaited write, as the Flush event; an empty buffer begins no write |
| `MeterValues.MeterValueBuffer.TakeOut` | backend/src/evagg/ocpp_gateway/meter_values.py:84-88 | The buffer becomes the newest write under way, or nothing happens if it is empty |
| `MeterValues.MeterValueBuffer.WriteReturned` | backend/src/evagg/ocpp_gateway/meter_values.py:88-88 | The sink has taken the batch, as the WriteDone event |
| `MeterValues.MeterValueBuffer.WriteRaised` | backend/src/evagg/ocpp_gateway/meter_values.py:88-88 | The sink raised and the batch is gone, as the WriteFails event |
| `MeterValues.MeterValueBuffer.FlushAndWait` | backend/src/evagg/ocpp_gateway/meter_values.py:83-88 | A flush to its end leaves earlier batches as they were, its own written, or lost with the error |
| `MeterValues.MeterValueBuffer.AddAndWait` | backend/src/evagg/ocpp_gateway/meter_values.py:69-74 | An add to its end adds its row; an error means that the batch it was in is lost |
| `MeterValues.MeterValueBuffer.Settle` | backend/src/evagg/ocpp_gateway/meter_values.py:88-88 | The write just begun comes back, written or lost |
| `MeterValues.LatestIsNewest` | backend/src/evagg/ocpp_gateway/live_meter_readings.py:27-37 | However late and often readings come, what is held for a transaction's measurand is the newest, of equally new ones the last, and nothing exactly if none came |
| `MeterValues.InMemoryLatestMeterReadingStore.Update` | backend/src/evagg/ocpp_gateway/live_meter_readings.py:27-34 | Keeps the reading unless a newer one is held |
| `MeterValues.InMemoryLatestMeterReadingStore.GetLatest` | backend/src/evagg/ocpp_gateway/live_meter_readings.py:36-37 | Returns the newest reading, and nothing exactly if none came |
| `Transactions.RecordIsFirstStop` | backend/src/evagg/ocpp_gateway/transactions.py:79-127 | In every run a record is its accepted start plus the first stop after it; later stops overwrite nothing |
| `Transactions.OneStopEventEach` | backend/src/evagg/ocpp_gateway/message_handlers.py:119-133 | One stop event per completed transaction, naming its tenant and charger, none for any other |
| `Transactions.ActiveIsLatest` | backend/src/evagg/ocpp_gateway/transactions.py:76-127 | A charger's active transaction is its most recently started one, shown as it was started, unless that has been stopped |
| `Transactions.OcppMessageHandlers.HandleStart` | backend/src/evagg/ocpp_gateway/message_handlers.py:101-117 | Starts exactly if the tag is accepted |
| `Transactions.OcppMessageHandlers.CloseTransaction` | backend/src/evagg/ocpp_gateway/transactions.py:103-127 | Unknown ids are an error; a repeated stop changes nothing |
| `Transactions.OcppMessageHandlers.HandleStop` | backend/src/evagg/ocpp_gateway/message_handlers.py:119-133 | If the flush fails the transaction stays open; otherwise it closes, with everything handed in written if and only if no earlier batch was in flight or lost |
| `Transactions.OcppMessageHandlers.HandleMeterValues` | backend/src/evagg/ocpp_gateway/message_handlers.py:135-157 | Each reading of a frame becomes one row and updates the latest readings, in order, until a write fails |
| `Transactions.OcppMessageHandlers.TakeReading` | backend/src/evagg/ocpp_gateway/message_handlers.py:146-157 | A row of the buffer and, unless a write it causes fails, an update of the latest readings |
| `Presence.DisconnectsAreLosses` | backend/src/evagg/ocpp_gateway/connection_manager.py:67-134 | In every run the disconnect events of a charger number its online-to-offline transitions, one per arrival that has ended |
| `Presence.PresenceIsLastHeard` | backend/src/evagg/ocpp_gateway/presence.py:101-121 | In every run a charger is known once it has greeted, its entry is that of its last greeting, it was last seen when last heard from, and it is online if and only if since then neither a close nor a sweep listing it more than twice the interval later has come |
| `Presence.SweepReturnsIff` | backend/src/evagg/ocpp_gateway/connection_manager.py:124-134 | A sweep returns exactly the listed chargers that are online and were last heard from more than twice the interval ago |
| `Presence.SweepExact` | backend/src/evagg/ocpp_gateway/connection_manager.py:119-134 | A sweep takes down the expired chargers of its list and leaves every other entry unchanged |
| `Presence.SweepAnnounces` | backend/src/evagg/ocpp_gateway/connection_manager.py:126-134 | It announces each once, in order, under the tenant of its entry, even if the list repeats ids |
| `Presence.ExpiredOfExact` | backend/src/evagg/ocpp_gateway/connection_manager.py:125-134 | The result has no repeats and holds exactly the listed chargers that were online and overdue |
| `Presence.SweepLeavesNoneExpired` | backend/src/evagg/ocpp_gateway/connection_manager.py:126-134 | No listed charger stays online past twice the interval |
| `Presence.SweepSplits` | backend/src/evagg/ocpp_gateway/connection_manager.py:126-134 | A sweep is the sweeps of the parts of its list, one after the other |
| `Presence.InterruptedSweepHolds` | backend/src/evagg/ocpp_gateway/connection_manager.py:124-134 | Once a sweep, however interrupted, has come to a charger, that charger is never again overdue by the sweep's clock: none is taken down twice and none of the list is left overdue |
| `Presence.ConnectionManager.HandleHandshake` | backend/src/evagg/ocpp_gateway/connection_manager.py:67-84 | The subprotocol is checked before the credentials; accepted with the protocol negotiated, or refused with its reason |
| `Presence.ConnectionManager.HandleInboundFrame` | backend/src/evagg/ocpp_gateway/presence.py:107-112 | Refreshes a known charger only |
| `Presence.ConnectionManager.HandleDisconnect` | backend/src/evagg/ocpp_gateway/connection_manager.py:108-117 | Announces only what was online |
| `Presence.ConnectionManager.CheckAndExpireHeartbeats` | backend/src/evagg/ocpp_gateway/connection_manager.py:119-134 | Returns exactly the expired chargers without repeats, one event each, and leaves none expired |
| `RefreshTokens.FamilyIsChain` | backend/src/evagg/gateway/refresh_store.py:46-78 | In every run a family is one chain without repeats, all for the subject and tenant issued to, its last token current, revoked exactly if compromised |
| `RefreshTokens.RotatesIffLast` | backend/src/evagg/gateway/refresh_store.py:54-75 | A token rotates if and only if it is the last of an uncompromised family |
| `RefreshTokens.VerdictIs` | backend/src/evagg/gateway/refresh_store.py:54-75 | Presenting a token is unknown if and only if it was never handed out, revoked if and only if its family is compromised, reuse if and only if it is retired in a family that is not |
| `RefreshTokens.RotatesOnce` | backend/src/evagg/gateway/refresh_store.py:54-75 | A token rotates at most once, and exactly once if retired |
| `RefreshTokens.CompromiseIsFinal` | backend/src/evagg/gateway/refresh_store.py:54-78 | A compromised family stays as it is under any further operations |
| `RefreshTokens.ReplayKillsFamily` | backend/src/evagg/gateway/refresh_store.py:54-75 | After a retired token is presented no token of its family ever rotates |
| `RefreshTokens.InMemoryRefreshTokenStore.IssueToken` | backend/src/evagg/gateway/refresh_store.py:46-52 | Opens a family with its first token |
| `RefreshTokens.InMemoryRefreshTokenStore.RotateToken` | backend/src/evagg/gateway/refresh_store.py:54-75 | The verdict in the source's order of checks; a new token exactly on success |
| `RefreshTokens.InMemoryRefreshTokenStore.RevokeFamily` | backend/src/evagg/gateway/refresh_store.py:77-78 | As the Revoke operation |
| `Rollup.ReportIsDirectSum` | backend/src/evagg/fleet/cost_report.py:47-75 | For any sessions and runs that roll no day up twice, failures and retries allowed, the totals are the number, the energy and the cost of the team's sessions on the days in range rolled up, under either grouping |
| `Rollup.RowsAreDirectSums` | backend/src/evagg/fleet/cost_report.py:53-67 | Each row is the number, energy and cost of the sessions of its driver, or of its site with the nil id for none, and no key has two rows |
| `Rollup.RowIffSessions` | backend/src/evagg/fleet/cost_report.py:53-67 | A driver or site has a row if and only if at least one of its sessions counts |
| `Rollup.StoreIsDirect` | backend/src/evagg/fleet/rollup.py:70-101 | If no day is rolled up twice without failing, what the store holds for any selection of keys is the direct sum over the days rolled up |
| `Rollup.EveryRunAdds` | backend/src/evagg/fleet/rollup.py:54-101 | Every successful run of a day adds that day's sessions once more |
| `Rollup.StoreCountsRuns` | backend/src/evagg/fleet/rollup.py:54-101 | Over any runs, with whatever sessions, repeats, failures and retries, the store holds what each run that did not fail saw |
| `Rollup.StoreIsDirectIff` | backend/src/evagg/fleet/rollup.py:54-101 | Over runs given the sessions of their day, for a figure that is never negative, the store meets the direct sum if and only if no session counting towards it is of a day rolled up more than once |
| `Rollup.SecondRunDoubles` | backend/src/evagg/fleet/rollup.py:54-101 | A day rolled up twice over one session reports it twice |
| `Rollup.GroupingConserves` | backend/src/evagg/fleet/rollup.py:85-92 | Grouping preserves every figure for every selection of keys |
| `Rollup.IncompleteDays` | backend/src/evagg/fleet/rollup.py:57-83 | The days marked incomplete are exactly those some run of which failed |
| `Rollup.RowsOfDay` | backend/src/evagg/fleet/rollup.py:54-101 | A day has rows if and only if a run of it that did not fail had sessions |
| `Rollup.MarkedThoughReportedIff` | backend/src/evagg/fleet/rollup.py:54-101 | A day is both reported and marked incomplete if and only if a run of it failed and another found sessions to report |
| `Rollup.RetriedDayStaysMarked` | backend/src/evagg/fleet/rollup.py:57-101 | A day that failed and was then rolled up stays marked, with its figures in the totals |
| `Rollup.GroupLoop` | backend/src/evagg/fleet/rollup.py:86-92 | The bucket loop yields one row per key, in order of first occurrence, with the sum of its items |
| `Rollup.InMemoryRollupStore.RunDailyRollup` | backend/src/evagg/fleet/rollup.py:70-101 | A failing day is marked and adds no row, any other day appends its grouped rows, as one run of the history |
| `Rollup.InMemoryRollupStore.Aggregate` | backend/src/evagg/fleet/rollup.py:85-101 | Selects, groups and appends the sessions of the day |
| `Rollup.InMemoryRollupStore.SaveAll` | backend/src/evagg/fleet/rollup.py:94-101 | Appends the rows with their date |
| `Rollup.InMemoryRollupStore.IncompleteDatesInRange` | backend/src/evagg/fleet/rollup.py:66-67 | Strictly ascending, and exactly the failed days in range |
| `Rollup.InMemoryRollupStore.Select` | backend/src/evagg/fleet/rollup.py:60-64 | The rollups of the team and range, under the key grouped by |
| `Rollup.InMemoryRollupStore.GenerateReport` | backend/src/evagg/fleet/cost_report.py:47-75 | Totals that are the number, energy and cost of the sessions rolled up, their rows, and the failed days in range |
| `Rounding.HalfEvenIsNearest` | backend/src/evagg/billing/tariff_calculator.py:48-52 | r is the rounding if and only if it is nearest, and even among two nearest |
| `Rounding.HalfUpIsNearest` | portal/src/app/features/tariffs/tariff-calculator.ts:33-33 | r is the rounding if and only if it is nearest, and the greater of two |
| `Rounding.ComplementRounds` | backend/src/evagg/billing/payouts.py:20-25 | Two rounded parts of a whole miss it by at most one, and miss it if and only if the parts are ties and the whole is odd |
| `BasisPoints.PayoutsSplitGross` | backend/src/evagg/billing/payouts.py:20-25 | Payouts at p and 10000 − p sum to the gross within one unit, exactly if and only if the share is no half-unit tie or the gross is even |
| `BasisPoints.PayoutIs` | backend/src/evagg/billing/payouts.py:20-25 | A percent payout is r if and only if r is the whole number nearest to gross·points/10000, even at a tie; a flat fee is the fee; any other kind is an error |
| `BasisPoints.DiscountIs` | backend/src/evagg/billing/promotions.py:96-103 | What is left is the base less the nearest share of it, or less the flat amount, and never below zero |
| `BasisPoints.DiscountKinds` | backend/src/evagg/billing/promotions.py:101-102 | Any other kind is an error |
| `BasisPoints.DiscountInRange` | backend/src/evagg/billing/promotions.py:96-103 | A percent discount leaves between zero and the base |
| `BasisPoints.DiscountMonotone` | backend/src/evagg/billing/promotions.py:96-103 | A higher base is never discounted to a lower total |
| `BasisPoints.DiscountAntitone` | backend/src/evagg/billing/promotions.py:96-103 | A higher rate never leaves more |
| `BasisPoints.ShareGrowsSlowly` | backend/src/evagg/billing/promotions.py:96-103 | One unit of base more is discounted by at most one unit more |
| `BasisPoints.TieIsRemainder` | backend/src/evagg/billing/payouts.py:20-25 | A share is a tie if and only if the product leaves 5000 modulo 10000 |
| `Tariff.CalculateSessionCost` | backend/src/evagg/billing/tariff_calculator.py:24-52 | Succeeds if and only if every component is known and has a positive step; otherwise reports the first that is not |
| `Tariff.ExactIs` | backend/src/evagg/billing/tariff_calculator.py:34-52 | A flat component costs its price; any other, its price per step of energy, of minutes, or of idle minutes over the grace period |
| `Tariff.PreviewSessionCost` | portal/src/app/features/tariffs/tariff-calculator.ts:10-41 | Over form components whose steps and prices need not be whole: succeeds if and only if every component of a known kind has a usable step, and then rounds once the exact total of those components |
| `Tariff.FormCostIs` | portal/src/app/features/tariffs/tariff-calculator.ts:13-41 | The same for the portal's form, whole steps and prices or not |
| `Tariff.PreviewIsOfExactTotal` | portal/src/app/features/tariffs/tariff-calculator.ts:13-31 | In a tariff the backend can price the portal passes nothing over and sums the exact costs |
| `Tariff.BackendNearExact` | backend/src/evagg/billing/tariff_calculator.py:24-52 | The bill is within m/2 of the exact cost for m metered components |
| `Tariff.PreviewDriftBound` | portal/src/app/features/tariffs/tariff-calculator.ts:10-41 | The preview is at most m/2 below the bill and at most (m + 1)/2 above it |
| `Tariff.AgreeIffResiduesSmall` | portal/src/app/features/tariffs/tariff-calculator.ts:3-34 | Preview and bill agree if and only if the rounding residues of the components, read off the fraction and parity of their exact costs, sum to more than −1/2 and at most 1/2 |
| `Tariff.BillIsExactPlusResidues` | backend/src/evagg/billing/tariff_calculator.py:24-52 | The bill is the exact cost plus the residues of its metered components |
| `Tariff.WholeCostsAgree` | portal/src/app/features/tariffs/tariff-calculator.ts:3-34 | They agree and are exact when every component cost is whole |
| `Tariff.SingleComponentAgrees` | portal/src/app/features/tariffs/tariff-calculator.ts:3-34 | With one component they agree if and only if its cost is not a tie above an even amount |
| `Tariff.DriftIsReached` | portal/src/app/features/tariffs/tariff-calculator.ts:3-34 | For every odd m some tariff and session reach the bound, so the two do drift |
| `Tariff.DriftBelowIsReached` | portal/src/app/features/tariffs/tariff-calculator.ts:3-34 | For every even m some tariff and session reach the lower bound |
| `Tariff.BillIsMonotone` | backend/src/evagg/billing/tariff_calculator.py:24-52 | With nonnegative prices the bill never falls as energy, duration or idle time grow |
| `Wallet.BalanceAccount` | backend/src/evagg/billing/wallet.py:34-66 | In every run the balance is first deliveries, less top-ups lost to a colliding charge, less deductions |
| `Wallet.LedgerIs` | backend/src/evagg/billing/wallet.py:34-63 | The ledger is a deduction under its session for every charge and a top-up under its provider id for every delivery whose id is new to the wallet, in order |
| `Wallet.BalanceIsFirstDeliveries` | backend/src/evagg/billing/wallet.py:34-66 | If provider ids and session references are kept apart, it is first deliveries less deductions |
| `Wallet.PromiseKeptIffNoneLost` | backend/src/evagg/billing/wallet.py:60-63 | With positive top-ups it is so if and only if no first delivery follows a charge booked under its id |
| `Wallet.TakenIffSeen` | backend/src/evagg/billing/wallet.py:42-43 | An id is taken if and only if it was delivered before or a charge of the wallet bears it |
| `Wallet.CollidingTopUpIsLost` | backend/src/evagg/billing/wallet.py:60-63 | A top-up whose id equals an earlier session reference of the wallet is dropped |
| `Wallet.BalanceIgnoresRedelivery` | backend/src/evagg/billing/wallet.py:60-66 | Runs delivering the same ids in any order and number, with the same deductions, end with the same balance |
| `Wallet.WalletsAreIndependent` | backend/src/evagg/billing/wallet.py:34-46 | A wallet's entries and balance are those of a run of its own operations alone |
| `Wallet.InMemoryWalletLedger.HandleTopupWebhook` | backend/src/evagg/billing/wallet.py:60-63 | Appends unless the reference is taken |
| `Wallet.InMemoryWalletLedger.DeductCharge` | backend/src/evagg/billing/session_billing.py:131-132 | Appends the negated amount under the session reference |
| `Wallet.InMemoryWalletLedger.GetBalance` | backend/src/evagg/billing/wallet.py:39-66 | Sums the wallet's entries |
| `SessionBilling.SuspensionByStreak` | backend/src/evagg/billing/session_billing.py:121-152 | In every run the failure count is the number of declines since the last successful card charge, wallet charges ignored, and a driver is suspended if and only if a decline brought it to the threshold |
| `SessionBilling.SuspendedIffStreakReached` | backend/src/evagg/billing/session_billing.py:144-148 | With a threshold of at least one, suspended if and only if some prefix of the run had a streak that long |
| `SessionBilling.RetriesAreDeclines` | backend/src/evagg/billing/session_billing.py:142-146 | Retries are exactly the declines, numbered and delayed by their streak |
| `SessionBilling.RetryTimes` | backend/src/evagg/billing/session_billing.py:93-95 | A decline is retried after 5, 30 and from the third of its streak on 120 minutes |
| `SessionBilling.StatusIsLastCharge` | backend/src/evagg/billing/session_billing.py:129-151 | A session is charged or failed as its last charge with a usable method went, failed only by a declined card |
| `SessionBilling.BackoffNeverShrinks` | backend/src/evagg/billing/session_billing.py:93-95 | Within a streak attempts count up and delays never shrink |
| `SessionBilling.SuspensionStays` | backend/src/evagg/billing/session_billing.py:147-152 | No charge lifts a suspension |
| `SessionBilling.CallsAreCardCharges` | backend/src/evagg/billing/session_billing.py:136-141 | The provider is asked once for every card charge, for its amount on its card, and for nothing else |
| `SessionBilling.KeyNamesSession` | backend/src/evagg/billing/session_billing.py:139-141 | Two requests carry one idempotency key if and only if they are for one session |
| `SessionBilling.SessionBillingService.ChargeSession` | backend/src/evagg/billing/session_billing.py:121-152 | Debits the wallet exactly without a card method; payment failed exactly for a declined card; an unusable method is an error |
| `SessionBilling.SessionBillingService.FailCharge` | backend/src/evagg/billing/session_billing.py:142-149 | Status, count, retry and suspension of a declined charge |
| `Invoicing.PeriodsConserve` | backend/src/evagg/billing/invoicing.py:120-125 | For any ordered boundaries the period totals sum to the total of the span |
| `Invoicing.PeriodTotalIsSum` | backend/src/evagg/billing/invoicing.py:123-124 | A period's total is the sum of the amounts of the sessions in [start, end) |
| `Invoicing.OnePeriodEach` | backend/src/evagg/billing/invoicing.py:120-123 | A session is in exactly one period if and only if it is inside the span |
| `Invoicing.DraftUntilIssued` | backend/src/evagg/billing/invoicing.py:132-162 | In every run an invoice is a draft exactly until first issued, and never again |
| `Invoicing.StatusIs` | backend/src/evagg/billing/invoicing.py:132-162 | In every run an invoice keeps tenant, account, period and due date, and is overdue if and only if since it was last issued it was looked at after its due date |
| `Invoicing.OnlyCreditsMoveTotal` | backend/src/evagg/billing/invoicing.py:128-162 | From any state past draft, only credit notes move the total, each by its amount |
| `Invoicing.TotalIsIssuedPlusCredits` | backend/src/evagg/billing/invoicing.py:128-162 | The total is the total at any point after issue plus every later adjustment |
| `Invoicing.AdjustmentsAreCredits` | backend/src/evagg/billing/invoicing.py:99-104 | In every run the adjustments recorded against an invoice are exactly its accepted credit notes, in order |
| `Invoicing.TotalIsLastSetPlusCredits` | backend/src/evagg/billing/invoicing.py:96-155 | The total is what creation or the last accepted edit set, plus the credit notes since |
| `Invoicing.TotalMeetsRecordIff` | backend/src/evagg/billing/invoicing.py:135-155 | The total is what was last set plus all adjustments on record if and only if those recorded before cancel out |
| `Invoicing.EditForgetsCredit` | backend/src/evagg/billing/invoicing.py:135-155 | A credit note on a draft edited afterwards stays on record and is not in the total |
| `Invoicing.InvoiceService.GenerateForPeriod` | backend/src/evagg/billing/invoicing.py:111-125 | A draft for the tenant, account and period with the total of the sessions in [start, end) |
| `Invoicing.InvoiceService.IssueInvoice` | backend/src/evagg/billing/invoicing.py:132-133 | Any known invoice becomes issued |
| `Invoicing.InvoiceService.Edit` | backend/src/evagg/billing/invoicing.py:135-143 | Succeeds if and only if the invoice was created and never issued |
| `Invoicing.InvoiceService.ApplyCreditNote` | backend/src/evagg/billing/invoicing.py:145-155 | Records the adjustment with its reason, moves the total and returns the adjustment; an unknown invoice is an error |
| `Invoicing.InvoiceService.MarkOverdueIfPastDue` | backend/src/evagg/billing/invoicing.py:157-162 | Only an issued invoice strictly past its due date becomes overdue |
| `Carbon.AnswersAreFetched` | backend/src/evagg/carbon/service.py:46-65 | In every interleaving a fresh answer is a value the provider gave this query or a query of the zone begun less than the time to live before; a stale one is the entry seen as the query began, too old by then, after the provider failed it |
| `Carbon.CacheIsLastStored` | backend/src/evagg/carbon/cache.py:37-45 | In every interleaving the string-keyed cache holds for each supported zone exactly what was stored last for it |
| `Carbon.Replay` | backend/src/evagg/carbon/service.py:46-65 | In every interleaving a query that has begun is waiting for the provider, or answered with what its history says it saw and was given |
| `Carbon.SeenWasGiven` | backend/src/evagg/carbon/service.py:51-55 | What a query saw in the cache is a value the provider gave a query of the same zone |
| `Carbon.AsksAgainIff` | backend/src/evagg/carbon/service.py:51-64 | A query less than the time to live after an unfailed one of its zone asks again: with the earlier value stored, if and only if it was overtaken by one of a query open as it began; with the earlier query still open, if and only if no third query's value is stored and young |
| `Carbon.YoungestIffInOrder` | backend/src/evagg/carbon/service.py:58-64 | The cache holds the youngest value stored for a zone throughout a run if and only if values are stored in the order their queries began |
| `Carbon.OutOfOrderMeansCrossed` | backend/src/evagg/carbon/service.py:58-64 | Under a monotone clock a value stored after a younger one is of a query that was open as the younger one's began |
| `Carbon.FetchesAreSpaced` | backend/src/evagg/carbon/service.py:51-64 | One query of a zone at a time, unfailed fetches are at least a time to live apart |
| `Carbon.StaleIsLastIff` | backend/src/evagg/carbon/service.py:51-62 | A stale answer is what was stored last as its query began, and still is if and only if nothing was stored for the zone since |
| `Carbon.StaleIsLastStored` | backend/src/evagg/carbon/service.py:57-62 | One query of a zone at a time, the entry behind a stale answer is the last one stored |
| `Carbon.OverlappingQueriesBothAsk` | backend/src/evagg/carbon/service.py:51-58 | Two overlapping queries on an empty cache both ask the provider |
| `Carbon.SlowQueryOverwrites` | backend/src/evagg/carbon/service.py:58-64 | The slower of two overlapping queries leaves its older entry in the cache |
| `Carbon.StaleThoughFetched` | backend/src/evagg/carbon/service.py:57-62 | A query the provider fails answers stale though a younger value was stored since it began |
| `Carbon.ZonesAreIndependent` | backend/src/evagg/carbon/service.py:46-65 | In every interleaving a query is answered as if only its own zone had ever been queried |
| `Carbon.KeysInjective` | backend/src/evagg/carbon/cache.py:27-28 | Colon-free country codes never share a key |
| `Carbon.ColonCollides` | backend/src/evagg/carbon/cache.py:27-28 | A country code with a colon always has a distinct zone with the same key |
| `Carbon.CarbonIntensityService.BeginQuery` | backend/src/evagg/carbon/service.py:46-58 | Up to the provider: unsupported and young zones are answered, others wait, as the Begin event |
| `Carbon.CarbonIntensityService.EndQuery` | backend/src/evagg/carbon/service.py:57-65 | From the provider on: a value is stored and returned, a failure falls back on what was seen, as the End event |

## Where the code falls short of its promise

Each with a failing run and the exact condition.

- The portal says its preview never drifts from the backend
  (portal/src/app/features/tariffs/tariff-calculator.ts:3-9). `Tariff.DriftIsReached`
  gives sessions where it does, `Tariff.AgreeIffResiduesSmall` says when it does not.
- A charger id containing a dot is addressed by one name and read back as another
  (`CommandChain.DottedIdMisroutes`, `CommandChain.CommandsReachTheirCharger`).
- A payment-provider id equal to an earlier session reference of the wallet loses the
  top-up (`Wallet.CollidingTopUpIsLost`, `Wallet.PromiseKeptIffNoneLost`).
- Credit notes applied to a draft are forgotten by a later edit of it, though they
  stay recorded (`Invoicing.EditForgetsCredit`, `Invoicing.TotalMeetsRecordIff`).
- A batch whose write fails is gone (`MeterValues.FailedWriteLoses`,
  `MeterValues.NothingLostIff`), overlapping writes reorder rows
  (`MeterValues.OverlappingWritesReorder`, `MeterValues.OrderIffDoneInOrder`), and a stop may
  close before rows swapped out earlier are written (`MeterValues.FlushOutrunsWrite`,
  `MeterValues.FlushedIsWrittenIff`, `MeterValues.FlushCoversIff`).
- Running a day's rollup twice counts it twice (`Rollup.SecondRunDoubles`,
  `Rollup.StoreIsDirectIff`), and a day that failed and was then rolled up stays marked
  incomplete (`Rollup.RetriedDayStaysMarked`, `Rollup.MarkedThoughReportedIff`).
- An event redelivered while its handler is awaited is handled twice
  (`EventBus.OverlapHandlesTwice`, `EventBus.SucceedsTwiceIffCrossed`).
- A slow consumer does hold up those registered after it
  (backend/src/evagg/ocpp_gateway/event_bus.py:10-14 and 98-100 say that it cannot):
  `EventBus.SlowConsumerHoldsUpNext`, `EventBus.TurnIffEarlierThrough`.
- A command whose transport raises is left pending for good
  (`CommandChain.RaiseLeavesPending`, `CommandChain.RaisedStaysPending`,
  `CommandChain.LogAgreesWithCaller`).
- Overlapping queries of a zone both ask the provider
  (`Carbon.OverlappingQueriesBothAsk`, `Carbon.AsksAgainIff`), can leave the older value
  in the cache (`Carbon.SlowQueryOverwrites`, `Carbon.YoungestIffInOrder`), and can answer
  stale after a younger value was stored (`Carbon.StaleThoughFetched`,
  `Carbon.StaleIsLastIff`).

## Left out

- BeginCall: the frame is taken as written together with its registration; a write that raises is AbandonCall.
- GenerateForPeriod: the source sums whatever sessions it is given, whichever account they name, and so does the model.
- ChargeSession: wallet deductions are not idempotent per session in the source, and are not here.
- FlushAndWait: no other call runs while its write is awaited, and so for AddAndWait, HandleStop and HandleMeterValues; what other calls may do meanwhile is covered by MeterValues.FlushCoversIff and the other lemmas over runs.
- DisconnectsAreLosses: presence is per charger; which socket closed is not part of it in the source either.
- Floating-point error: quantities, clocks and quotients are exact reals.
- Re-registering a consumer under a used name, and consumers joining during a run.
- Rate-limiter results for a key used with changing limits or windows.
- Parsing of OCPP-J frames, the receive loop's dispatch, `handle_reconnect`, `seed_active_transaction`, boot, firmware and diagnostics messages: field copying.
- `list_recent`, CSV export, promotion windows and redemption counts, OCPI adapters, charging preferences, payment methods and vehicles: decisions settled by one branch.
- HTTP routers, middleware, configuration, observability; SQL schema and migrations.
- Stripe, OSRM, Electricity Maps, OCSP, Redis, NATS and PostgREST adapters: they depend on servers outside the repository.
- Cryptography, route planning, the mobile app and the rest of the portal.
