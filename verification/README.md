# Verified model of a companion-radio client

This project models the core of meshquill, a client for companion radios, and proves
properties of it. The client talks to one device over a byte transport. Replies carry no
request id, pushes may arrive at any time, and any wait may time out, fail or be cancelled,
so most of what is proved is about whole runs against an arbitrary transport.

## How the model is built

* `Protocol`, `AckStore` and `Session` describe the client session as a small-step machine.
  Between two awaits the code runs without interruption, so there is one phase per await
  point and one step per answer (a packet, a close, an error, a timeout, or the operation
  being dropped). Each step appends what it did to a trace.
* `SessionAnswers` says, packet by packet and written out, what every operation returns.
* `SessionInvariants`, `SessionSync`, `SessionInbox`, `SessionDelivery`, `SessionPackets`,
  `SessionAcks` and `SessionLedger` prove what holds over every legal run of that machine.
* `ClientObject` (in `Client.dfy`) is the client itself: a class with the source's fields, its
  acknowledgement stores as maps with order deques, and a method for each operation. Every
  method is proved to do exactly the steps of the machine. `ClientRuns` concludes that the run
  theorems hold of every client object, whatever it is used for.
* `Scenarios` gives concrete runs, so that the premises of the run theorems are known to occur.
* `ActorMachine` and `ActorProofs` model the managed actor: callers stamping, enqueuing and
  cancelling, and the actor taking, running, interrupting and stopping, in every interleaving.
  `ActorAnswers` proves what callers are told, `ActorStopping` how the actor leaves its client,
  and `ActorRuns` carries the session theorems over to the managed client.
* `IncomingTracker` is the consumer that pairs the broadcast and the queued view of a message;
  `EndToEnd` composes it with the session.
* `Words`, `Bytes`, `Framing`, `FramedReader`, `RemotePayloads` (in `Telemetry.dfy`) and
  `NeighbourPages` are the codecs.
* `BatchLexer`, `Suggestions` and `ChatSession` are the batch-line lexer, the spelling
  suggestions and the line chat of the command-line program.

## What the code does not do

Four places where the code falls short of what its comments or tests suggest. The model
follows the code; each shortfall is stated exactly.

* The outer decoder compares the position of the prefix before skipping garbage with the
  buffer length after skipping it (`framing.rs` line 121). Garbage at least as long as what has
  arrived behind it takes that with it: `Framing.ResynchronisesExactlyIfShorter` for complete
  buffers, `Framing.ChunksResynchroniseExactlyIf` and `Framing.SplitFrameIsLost` for growing
  ones. The serial and TCP readers mask this: they discard noise before every decode, and
  `FramedReader.NoiseIsSkipped` proves that no noise can then cost a frame.
* `connect` on a client that is connected and awaiting a sync answer clears the sync state; if
  the transport then does not open, the old session is still connected and the next command
  goes out before the answer: `SessionSync.ConnectWhileAwaitingIsUnsafe`.
* A wait for an acknowledgement takes an error packet as its own, even if it answers a sync in
  flight: `SessionSync.AnswerIsKept` says that this is the only way to lose an answer, and
  `Scenarios.RefusalMetByAckWait` reaches it. It also publishes a receipt without tracking it
  (`SessionAcks.PacketStores`).
* A sync that fails without an answer, for instance on a write error that is not terminal,
  leaves the session awaiting, and every request is refused until an answer or a reset:
  `SessionSync.EndedSyncStaysAwaiting` and `SessionSync.RequestsAreRefusedUntilAnswered`.
  No liveness is claimed.

## Model

| member | source | states |
|---|---|---|
| `SessionInvariants.RunIsSound` | crates/meshquill-core/src/client.rs:1643-1661 | In every state any run reaches: offline means both ACK stores are empty, sync is idle and nothing is deferred; while an answer is awaited the deferred slot is empty, so a deferred reply is never overwritten; each store has at most 256 entries with distinct codes and no code is in both; every await point has the state it relies on. |
| `SessionInvariants.StepKeepsSound` | crates/meshquill-core/src/client.rs:1185-1291 | One step of any operation, under any transport answer or drop, keeps that invariant. |
| `SessionInvariants.PacketEffect` | crates/meshquill-core/src/client.rs:1566-1582 | Handling a packet changes the sync state only if the packet answers the sync in flight, and defers the answer exactly when the idle reader or an ACK wait met it. |
| `SessionInvariants.TrackKeepsStores` | crates/meshquill-core/src/client.rs:1623-1641 | Tracking a receipt or an acknowledgement keeps both stores bounded, duplicate-free and disjoint. |
| `SessionInvariants.ForgetKeepsStores` | crates/meshquill-core/src/client.rs:1286-1289 | Giving up on a code removes it from both stores and keeps the stores well formed. |
| `SessionSync.SyncIsSafe` | crates/meshquill-core/src/client.rs:1185-1203 | In every run a sync is outstanding exactly while the state says so, and no command of any kind is issued between a sync command and its answer or a reset. |
| `SessionSync.SyncIsSafePerSession` | crates/meshquill-core/src/client.rs:1413-1420 | If every connect is begun offline or with no answer awaited, nothing is ever issued on a transport session whose sync is unanswered. |
| `SessionSync.ConnectWhileAwaitingIsUnsafe` | crates/meshquill-core/src/client.rs:134-150 | That condition is needed: from every reachable state that is connected and awaiting, a connect whose transport fails to open, or whose caller drops it while it opens, followed by any request of a writable size or by another sync, writes on the session whose sync is unanswered. |
| `SessionSync.AnswerIsKept` | crates/meshquill-core/src/client.rs:1513-1592 | A packet that answers the sync in flight ends the awaiting, and its message with its new id, its emptiness or its refusal is what the operation that synchronises returns, or what anyone else who read it keeps for the next sync, if and only if it is not an error met by an ACK wait; in that case the session goes on awaiting with nothing kept. |
| `SessionSync.EndedSyncStaysAwaiting` | crates/meshquill-core/src/client.rs:1193-1235 | A sync that ends while an answer is awaited leaves the session awaiting if and only if it was dropped, met a non-terminal error, an unparsable packet or a timeout, or gave up draining; such a failure changes nothing else. |
| `SessionSync.RequestsAreRefusedUntilAnswered` | crates/meshquill-core/src/client.rs:1413-1420 | From then on, over any run without an answer or a reset, every request is refused with nothing written and nothing changed. |
| `SessionSync.DeferredSurvives` | crates/meshquill-core/src/client.rs:1566-1582 | A deferred answer is unchanged by any run that neither synchronises, connects nor loses the connection. |
| `SessionSync.DeferredAnswerIsReturned` | crates/meshquill-core/src/client.rs:1187-1189 | A sync answer read by the idle reader or an ACK wait is what the next sync returns, written out by packet (the message with the id it was given, none for an empty queue, an error for a refusal), without reading or writing, however many other operations ran in between. |
| `SessionInbox.ExactlyTheAnswersAreReturned` | crates/meshquill-core/src/client.rs:1185-1235 | Over every run the messages returned by sync are exactly those that answered one, in order, less those a reset caught waiting: one read by the sync itself is returned by it, one read by anyone else while an answer was outstanding is returned by the next sync, and what waits now is the latest not yet returned. |
| `SessionInbox.PacketPosts` | crates/meshquill-core/src/client.rs:1566-1592 | What one message read at each await point does: returned by a sync, kept by anyone else while an answer is awaited, and neither otherwise. |
| `SessionAnswers.SyncAnswers` | crates/meshquill-core/src/client.rs:1205-1235 | What a sync returns for each packet it reads, in its drain or its wait: the message with its id, none for an empty queue, an error for a refusal; anything else is waited over, up to 256 drained packets. |
| `SessionAnswers.DeferredAnswers` | crates/meshquill-core/src/client.rs:1187-1189 | What a sync that finds a kept answer returns for each kind of it, at once and without I/O. |
| `SessionAnswers.AckWaitAnswers` | crates/meshquill-core/src/client.rs:1264-1284 | A wait that reads its own acknowledgement returns that code with that trip time; a refusal ends it; anything else is waited over. |
| `SessionAnswers.IdleAnswers` | crates/meshquill-core/src/client.rs:230-240 | The idle read returns a message as such, with the id it was given, any other packet with a public form as a notice, and nothing for the rest. |
| `SessionAnswers.SimpleAnswers` | crates/meshquill-core/src/client.rs:1353-1377 | The answer of a plain command for every packet: done, refused, disabled, or waiting on with the packet published. |
| `SessionAnswers.HasConnectionAnswers` | crates/meshquill-core/src/client.rs:819-845 | The answer of the connection query for every packet: present on OK, absent on error 2, refused on any other error. |
| `SessionAnswers.QueryAnswers` | crates/meshquill-core/src/client.rs:1379-1411 | A query returns exactly the packet of the kind it asked for. |
| `SessionAnswers.DeviceQueryAnswers` | crates/meshquill-core/src/client.rs:321-345 | The device query returns exactly the device information it reads. |
| `SessionAnswers.SendAnswers` | crates/meshquill-core/src/client.rs:1298-1351 | A send returns the code and timeout of its receipt. |
| `SessionAnswers.ListingAnswers` | crates/meshquill-core/src/client.rs:262-313 | A listing collects contacts in order and returns them with the marker of the terminator. |
| `SessionAnswers.HandshakeAnswers` | crates/meshquill-core/src/client.rs:157-177 | The handshake returns the device name, and announces Connected exactly inside connect and reconnect; a refusal there closes the transport first. |
| `SessionAnswers.RemoteReceiptAnswers` | crates/meshquill-core/src/client.rs:884-898 | A remote request waits for its receipt, then for the tag it was given or else the code of that receipt. |
| `SessionAnswers.RemoteReplyAnswers` | crates/meshquill-core/src/client.rs:897-908 | The reply is returned if and only if kind and tag are those awaited; the failure kind with that tag is an authentication failure; anything else is waited over. |
| `SessionAnswers.AnswersAreAttributed` | crates/meshquill-core/src/client.rs:884-911 | In every run each await point belongs to the operation begun last, and every reply a remote request returns is the packet just read, of its kind, with the tag it was given or the code of its own receipt. |
| `SessionAnswers.ReadFailureAnswers` | crates/meshquill-core/src/client.rs:1495-1511 | A read without a packet fails the operation with the error of that read; the connection is lost exactly on a close or a terminal error. |
| `SessionAnswers.WriteAnswers` | crates/meshquill-core/src/client.rs:1422-1445 | Where each write leads, and that only a terminal write error disconnects. |
| `SessionAnswers.TransportAnswers` | crates/meshquill-core/src/client.rs:134-211 | Opening leads to the handshake, closing always disconnects, and a reboot succeeds whatever the closing says. |
| `SessionAnswers.RequestsBegin` | crates/meshquill-core/src/client.rs:1413-1445 | A request is written exactly if connected, with no inbox answer awaited and 1 to 176 bytes; each obstacle has its own error and changes nothing. |
| `SessionAnswers.OperationsBegin` | crates/meshquill-core/src/client.rs:182-240 | How every other operation begins, online and offline. |
| `SessionAnswers.DrainEnds` | crates/meshquill-core/src/client.rs:1193-1203 | Once nothing more is ready, a sync command is issued unless one is in flight. |
| `SessionAnswers.DropsChangeNothing` | crates/meshquill-core/src/client.rs:1185-1291 | A dropped operation leaves the session as it was. |
| `SessionAnswers.ParsingOnlyStamps` | crates/meshquill-core/src/client.rs:1594-1604 | Parsing sets the id of a message and nothing else, and leaves other packets alone. |
| `SessionAnswers.ConnectedEventsMatchSuccesses` | crates/meshquill-core/src/client.rs:134-211 | Over every run the number of Connected events equals the number of connects and reconnects that succeeded. |
| `SessionDelivery.MessagesAreDelivered` | crates/meshquill-core/src/client.rs:1594-1621 | Over every run: the broadcast messages are exactly the parsed ones in order, the messages returned by sync (plus the deferred one) are a subsequence of them, and the k-th parsed message carries the k-th id. |
| `SessionDelivery.EachMessageOnce` | crates/meshquill-core/src/client.rs:1594-1604 | Before the id counter wraps, ids are nonzero, each is broadcast once and returned by at most one sync. |
| `SessionDelivery.NextIdIsIdOf` | crates/meshquill-core/src/client.rs:1596-1602 | The wrapping increment that skips zero enumerates 1 + k mod (2^64 - 1). |
| `SessionDelivery.DisconnectedEventsMatchFalls` | crates/meshquill-core/src/client.rs:1643-1649 | Over every run the number of Disconnected events equals the number of connected-to-disconnected transitions. |
| `SessionPackets.PacketsAreConserved` | crates/meshquill-core/src/client.rs:1353-1411 | For every interleaving of pushes and replies, the published packets are exactly the consumed packets no operation kept (listed by request and packet), once each and in arrival order. |
| `SessionPackets.KeptPacketEnds` | crates/meshquill-core/src/client.rs:1463-1493 | A packet a request keeps, as listed by request and packet, is its reply or refusal and ends it, except one contact of a listing and the receipt before a remote answer. |
| `SessionPackets.ContactListsAreExact` | crates/meshquill-core/src/client.rs:262-313 | Every contact list ever returned is exactly the Contact packets received for it, in order, with the marker of the terminator that ended it. |
| `SessionLedger.AcksAreAccountedFor` | crates/meshquill-core/src/client.rs:1243-1291 | Over every run and for every code: the acknowledgements due (read by the wait for it, or while it was tracked) are exactly those returned by waits, plus one still kept, plus those lost to a reset, to a new send with the same code, or as the oldest of 256 to another completion. |
| `SessionLedger.StoresFollowHistory` | crates/meshquill-core/src/client.rs:1623-1709 | In every run both stores, in order and with their values, are folds over the history of sends, acknowledgements, waits and resets. |
| `SessionLedger.StoredAckIsReturned` | crates/meshquill-core/src/client.rs:1248-1254 | A wait for a completed code returns at once exactly what was stored for it. |
| `SessionAcks.NoAckLost` | crates/meshquill-core/src/client.rs:1243-1262 | An acknowledgement of a pending code read by anyone but its waiter is returned by a later wait at once, without reading or writing, unless the connection was lost or reset, the code was waited for or tracked again, or 256 other codes completed since. |
| `SessionAcks.AckSurvives` | crates/meshquill-core/src/client.rs:1687-1696 | A completed entry outlives any run with fewer than 256 further completions that does not claim it. |
| `SessionAcks.FinishedWaitForgets` | crates/meshquill-core/src/client.rs:1256-1291 | However a wait for an acknowledgement ends, its code is then in neither store; a dropped wait changes nothing at all. |
| `SessionAcks.ImmediateWaitForgets` | crates/meshquill-core/src/client.rs:1248-1254 | The same for a wait that is answered from the store, or that starts offline. |
| `SessionAcks.PendingFollowsHistory` | crates/meshquill-core/src/client.rs:1663-1685 | In every run the pending store, in order, is the fold "remove, append, keep the last 256" over the whole history. |
| `SessionAcks.PacketStores` | crates/meshquill-core/src/client.rs:1329-1337 | What each reader does to the stores for each packet: request loops track what they pass on and the receipt they were waiting for, an ACK wait tracks only acknowledgements. |
| `AckStore.RememberIsGood` | crates/meshquill-core/src/client.rs:1663-1677 | "Remove, append, keep the last 256" keeps a store bounded and duplicate-free, holds the new entry, and adds no other code. |
| `ClientObject.RememberIn` | crates/meshquill-core/src/client.rs:1663-1672 | The discard-then-evict loop over map and order deque keeps them in step and yields exactly the abstract "remove, append, keep the last 256". |
| `ClientObject.DiscardRepresents` | crates/meshquill-core/src/client.rs:1674-1677 | Removing a code from the map and filtering the deque is removal from the abstract store. |
| `ClientObject.EvictRepresents` | crates/meshquill-core/src/client.rs:1665-1669 | Popping the front of the deque and removing its key drops the oldest abstract entry. |
| `ClientObject.InsertRepresents` | crates/meshquill-core/src/client.rs:1670-1672 | Inserting and pushing back appends to the abstract store. |
| `ClientObject.Client.constructor` | crates/meshquill-core/src/client.rs:89-104 | A new client represents the initial session. |
| `ClientObject.Client.DiscardPendingAck` | crates/meshquill-core/src/client.rs:1674-1677 | Removes exactly that code from the pending store. |
| `ClientObject.Client.TakePendingAck` | crates/meshquill-core/src/client.rs:1679-1685 | Returns the pending entry of the code, if any, and removes it. |
| `ClientObject.Client.DiscardCompletedAck` | crates/meshquill-core/src/client.rs:1698-1701 | Removes exactly that code from the completed store. |
| `ClientObject.Client.TakeCompletedAck` | crates/meshquill-core/src/client.rs:1703-1709 | Returns the completed entry of the code, if any, and removes it. |
| `ClientObject.Client.RememberPendingAck` | crates/meshquill-core/src/client.rs:1663-1672 | The pending store becomes "remove, append, keep the last 256". |
| `ClientObject.Client.RememberCompletedAck` | crates/meshquill-core/src/client.rs:1687-1696 | The completed store becomes "remove, append, keep the last 256". |
| `ClientObject.Client.UpdateTracking` | crates/meshquill-core/src/client.rs:1623-1641 | Map and deque end up as the abstract tracking of that packet. |
| `ClientObject.Client.RetainSyncResponse` | crates/meshquill-core/src/client.rs:1566-1582 | Defers the answer and leaves the awaiting state exactly if one is awaited and the packet is an answer. |
| `ClientObject.Client.PublishEvent` | crates/meshquill-core/src/client.rs:1612-1621 | Retains a sync answer and records the packet as published. |
| `ClientObject.Client.MarkDisconnected` | crates/meshquill-core/src/client.rs:1643-1649 | Clears all tracking and signals Disconnected exactly if it was connected. |
| `ClientObject.Client.ClearTracking` | crates/meshquill-core/src/client.rs:1651-1661 | Empties all four containers, the sync state and the deferred slot. |
| `ClientObject.Client.ParsePacket` | crates/meshquill-core/src/client.rs:1594-1604 | Stamps a message with the next id and advances the counter, skipping zero on wrap. |
| `ClientObject.Client.WriteRaw` | crates/meshquill-core/src/client.rs:1422-1445 | Size checks before the write; a terminal write error disconnects, any other leaves the state alone. |
| `ClientObject.Client.SendRaw` | crates/meshquill-core/src/client.rs:1413-1420 | Refuses to write while a sync answer is awaited. |
| `ClientObject.Client.ConnectTransport` | crates/meshquill-core/src/client.rs:134-150 | connect does, against every transport script, exactly the steps of the machine: same writes, packets, events, state and result. |
| `ClientObject.Client.InitSession` | crates/meshquill-core/src/client.rs:157-177 | The APP_START exchange does exactly the steps of the machine. |
| `ClientObject.Client.DisconnectTransport` | crates/meshquill-core/src/client.rs:182-186 | disconnect does exactly the steps of the machine. |
| `ClientObject.Client.ReconnectTransport` | crates/meshquill-core/src/client.rs:193-211 | reconnect does exactly the steps of the machine, including the closing of a transport whose handshake failed. |
| `ClientObject.Client.NextEventOrNone` | crates/meshquill-core/src/client.rs:230-240 | The idle read does exactly the steps of the machine. |
| `ClientObject.Client.CollectContacts` | crates/meshquill-core/src/client.rs:262-313 | The contact listing loop does exactly the steps of the machine. |
| `ClientObject.Client.QueryDeviceInfo` | crates/meshquill-core/src/client.rs:321-345 | The device query loop does exactly the steps of the machine. |
| `ClientObject.Client.HasConnectionTo` | crates/meshquill-core/src/client.rs:819-845 | The connection query loop, with its not-found refusal, does exactly the steps of the machine. |
| `ClientObject.Client.RemoteRequest` | crates/meshquill-core/src/client.rs:884-911 | Receipt, then the reply: exactly the steps of the machine, whose reply has the kind asked for and the tag given or that of the receipt (`SessionAnswers.RemoteReplyAnswers`). |
| `ClientObject.Client.WaitForPacket` | crates/meshquill-core/src/client.rs:1463-1493 | The reply loop of remote requests follows the machine step by step, so it returns a packet exactly if kind and tag match. |
| `ClientObject.Client.SendCommandExpectMsgSent` | crates/meshquill-core/src/client.rs:1298-1351 | The tracked and untracked send loops do exactly the steps of the machine. |
| `ClientObject.Client.SendCommandExpectOk` | crates/meshquill-core/src/client.rs:1353-1377 | The OK loop does exactly the steps of the machine. |
| `ClientObject.Client.SendCommandExpect` | crates/meshquill-core/src/client.rs:1379-1411 | The generic reply loop does exactly the steps of the machine. |
| `ClientObject.Client.SendDisconnectCommand` | crates/meshquill-core/src/client.rs:1447-1453 | Write, then close: exactly the steps of the machine. |
| `ClientObject.Client.SyncNextMessage` | crates/meshquill-core/src/client.rs:1185-1203 | sync_next_message does exactly the steps of the machine, drain and deferred slot included; what each packet makes it return is `SessionAnswers.SyncAnswers` and `SessionAnswers.DeferredAnswers`. |
| `ClientObject.Client.DrainReadyPackets` | crates/meshquill-core/src/client.rs:1513-1564 | The bounded drain loop follows the machine poll by poll. |
| `ClientObject.Client.WaitForSyncResponse` | crates/meshquill-core/src/client.rs:1205-1235 | The sync reply loop follows the machine step by step, so it returns the message read, none, or an error. |
| `ClientObject.Client.WaitForAckOf` | crates/meshquill-core/src/client.rs:1243-1291 | wait_for_ack does exactly the steps of the machine, so its own acknowledgement is what it returns (`SessionAnswers.AckWaitAnswers`). |
| `ClientRuns.DriveExtendsRun` | crates/meshquill-core/src/client.rs:134-313 | Running any operation to its end against any script is a legal extension of the run so far. |
| `ClientRuns.Perform` | crates/meshquill-core/src/client.rs:134-240 | Whichever operation is called, the object does exactly the steps of the machine. |
| `ClientRuns.UseClient` | crates/meshquill-core/src/client.rs:89-1661 | A client object used for any operations in any order against any transport satisfies the run theorems: invariant, sync safety, message delivery, exactly the answers returned, packet conservation, exact contact lists, correlated remote replies, both stores following the history, and every acknowledgement accounted for. |
| `Scenarios.AckMetByIdleReader` | crates/meshquill-core/src/client.rs:1623-1641 | There is a run in which the idle reader meets the acknowledgement of a tracked send, and the later wait returns it. |
| `Scenarios.AnswerMetByIdleReader` | crates/meshquill-core/src/client.rs:1566-1582 | There is a run in which a sync is dropped while awaiting and the idle reader meets its answer; for each answer the next sync returns that message, none, or an error. |
| `Scenarios.RefusalMetByAckWait` | crates/meshquill-core/src/client.rs:1270-1274 | There is a run in which an error that answers a sync is met by an ACK wait, which takes it for its own: the sync still awaits and nothing is deferred. |
| `Scenarios.PushedMessageIsAccepted` | crates/meshquill-core/src/client.rs:230-240 | There is a run in which a message is pushed to an idle client and the consumer accepts it once. |
| `ActorProofs.RunIsHealthy` | crates/meshquill-core/src/managed.rs:1089-1184 | In every interleaving of callers and actor, the client is between operations exactly when the actor runs none, and its session invariant holds. |
| `ActorRuns.ClientRunIsLegal` | crates/meshquill-core/src/managed.rs:1089-1184 | In every interleaving, what the actor does to its client is a legal run of the session. |
| `ActorRuns.ManagedClientIsTrustworthy` | crates/meshquill-core/src/managed.rs:1089-1184 | So the managed client satisfies the same run theorems as a client object. |
| `ActorProofs.StartedInOrderAtMostOnce` | crates/meshquill-core/src/managed.rs:1089-1144 | In every run requests are taken in the order they were accepted, started requests are a subsequence of the taken ones, and none is started twice. |
| `ActorProofs.RunsAreDisciplined` | crates/meshquill-core/src/managed.rs:1146-1184 | In every run: operations never overlap; a request is started exactly if its generation is current; after an interrupted operation that may have written, nothing starts until the session is disconnected with all tracking cleared, or the actor is stopping; nothing starts after a completed shutdown. |
| `ActorProofs.EveryCallerGetsOneResult` | crates/meshquill-core/src/managed.rs:859-874 | Every request is answered at most once, and exactly once when the actor has stopped and no caller waits to enqueue; what it is told is `ActorAnswers.CallersGetTheirAnswers`. |
| `ActorAnswers.CallersGetTheirAnswers` | crates/meshquill-core/src/managed.rs:859-874 | In every run the caller of a finished request is told the answer with which the client ended the operation begun for it (a shutdown: its disconnect, or the timeout), and everyone else who is answered, discarded, broken off or never started, is told that the actor stopped. |
| `ActorProofs.DiscardedExactlyIfCancelled` | crates/meshquill-core/src/managed.rs:1154-1160 | In every run, before 2^64 cancellations intervene, a taken request is started exactly if no cancellation came after it was stamped; a discarded one leaves the client untouched. |
| `ActorProofs.StampsArePast` | crates/meshquill-core/src/managed.rs:118-121 | No queued or waiting request carries a stamp from the future. |
| `ActorProofs.InterruptedWaitKeepsSession` | crates/meshquill-core/src/managed.rs:1162-1184 | An interrupted ACK wait leaves the whole session state, its tracked code included; any other interruption goes on to close the transport. |
| `ActorProofs.OnlyJobsWrite` | crates/meshquill-core/src/managed.rs:1099-1142 | Idle reads, cancellations, interruptions and closing issue no command: only a started request does. |
| `ActorProofs.StoppedIsEmpty` | crates/meshquill-core/src/managed.rs:1089-1144 | A stopped actor has answered its whole queue. |
| `ActorStopping.StoppedIsDisconnected` | crates/meshquill-core/src/managed.rs:1140-1144 | In every run an actor that has stopped has left its client disconnected, if and only if the last bounded close did not take too long. |
| `ActorStopping.FailedIdleReadRests` | crates/meshquill-core/src/managed.rs:1109-1124 | An idle read that fails sends the actor to rest exactly if the connection survived it, and a resting actor does not read. |
| `ActorProofs.NextDescribed` | crates/meshquill-core/src/managed.rs:1089-1184 | Every step changes only the fields its kind allows and answers exactly the requests it ends, with the answers of `ActorAnswers.CallersGetTheirAnswers`. |
| `IncomingTracker.Tracker.Observe` | crates/meshquill-cli/src/workflow.rs:55-75 | The search-remove-push-evict loop: a message without id is always new; otherwise it is new exactly if the other view is not held, and the deque becomes the specified one. |
| `IncomingTracker.Tracker.Clear` | crates/meshquill-cli/src/workflow.rs:77-79 | Forgets everything. |
| `IncomingTracker.HeldIsSound` | crates/meshquill-cli/src/workflow.rs:36-75 | In every run the tracker holds at most 256 entries and never both views of one id. |
| `IncomingTracker.NothingIsLost` | crates/meshquill-cli/src/workflow.rs:55-75 | In every run, evictions and clears included, an id is accepted at least max(live, queued) times. |
| `IncomingTracker.NothingIsDoubled` | crates/meshquill-cli/src/workflow.rs:55-75 | Without a clear and without evicting the id, it is accepted exactly max(live, queued) times. |
| `IncomingTracker.AcceptedAgainExactlyIfSeparated` | crates/meshquill-cli/src/workflow.rs:55-79 | An id seen at most once from each origin is accepted once, and a second time if and only if a clear or an eviction forgot its first view before the second came. |
| `IncomingTracker.AcceptedAreViews` | crates/meshquill-cli/src/workflow.rs:55-75 | An id is never accepted more often than it was observed. |
| `IncomingTracker.SecondViewIsRecognised` | crates/meshquill-cli/src/workflow.rs:64-72 | The other view of a remembered message is recognised as long as fewer than 256 other observations were accepted in between. |
| `IncomingTracker.ViewIsKept` | crates/meshquill-cli/src/workflow.rs:64-72 | The entry is still held, with at most that many younger ones. |
| `EndToEnd.AcceptedExactlyOnce` | crates/meshquill-cli/src/workflow.rs:452-464 | From transport to consumer: for any session run and any consumer that sees some of its broadcasts and some of its returns and clears its tracker at any points, an id has at most two views and, once viewed, is accepted exactly once, or twice if and only if a clear or an eviction forgot it between the two views. |
| `Framing.EncodeFrame` | crates/meshquill-core/src/framing.rs:67-90 | Appends 0x3c, the length with its low byte first and the payload, or refuses and leaves the buffer alone, exactly by the 300-byte limit. |
| `Framing.DecodeFrame` | crates/meshquill-core/src/framing.rs:106-153 | The in-place decoder returns and leaves in the buffer what the decoding function says. |
| `Framing.FindPrefix` | crates/meshquill-core/src/framing.rs:97-99 | First position of the prefix byte, or the length. |
| `Framing.DecodeFrames` | crates/meshquill-core/src/framing.rs:172-185 | The batch loop returns what repeated decoding yields, or the first error. |
| `Framing.DecodeProgresses` | crates/meshquill-core/src/framing.rs:106-153 | Every frame or error strictly shrinks the buffer, no payload exceeds 300 bytes, and what stays is a tail of the buffer. |
| `Framing.FrameLayout` | crates/meshquill-core/src/framing.rs:67-90 | A frame byte by byte: prefix, two length bytes, payload. |
| `Framing.OversizedIsDropped` | crates/meshquill-core/src/framing.rs:130-143 | A frame that declares more than 300 bytes is an error that names the declared length, and is dropped as far as it has arrived. |
| `Framing.FrameDecodes` | crates/meshquill-core/src/framing.rs:145-152 | A framed payload followed by anything decodes to it and leaves the rest. |
| `Framing.IncompleteFrameWaits` | crates/meshquill-core/src/framing.rs:126-148 | Any proper prefix of a frame yields nothing and stays in the buffer. |
| `Framing.FeedPrefix` | crates/meshquill-core/src/framing.rs:106-153 | For any payloads and any part of their stream in any chunks, exactly the complete payloads were delivered in order and the buffer is exactly the undelivered tail. |
| `Framing.ChunkingDoesNotMatter` | crates/meshquill-core/src/framing.rs:106-153 | Once the stream has arrived, in any chunks, every payload was delivered in order and the buffer is empty. |
| `Framing.StreamDecodes` | crates/meshquill-core/src/framing.rs:172-185 | Decoding the whole stream at once gives the same payloads. |
| `Framing.ResynchronisesExactlyIfShorter` | crates/meshquill-core/src/framing.rs:172-185 | Decoding a complete buffer skips prefix-free garbage before a frame stream if and only if the garbage is shorter than the stream. |
| `Framing.ChunksResynchroniseExactlyIf` | crates/meshquill-core/src/framing.rs:117-124 | For a buffer that grows chunk by chunk: prefix-free garbage before a frame stream, in any chunks, is skipped if and only if the first chunk that holds a stream byte holds no garbage or less garbage than stream; then every payload is delivered in order. |
| `Framing.GarbageIsSkippedIfShorter` | crates/meshquill-core/src/framing.rs:117-124 | One decode call on garbage and a prefixed rest decodes the rest if the garbage is shorter, and otherwise empties the buffer and returns nothing. |
| `Framing.LongGarbageSwallowsAFrame` | crates/meshquill-core/src/framing.rs:121-124 | A concrete four-byte garbage run swallows the frame behind it; three bytes do not. |
| `Framing.SplitFrameIsLost` | crates/meshquill-core/src/framing.rs:121-124 | A concrete frame behind one stray byte is lost when its prefix arrives with the stray byte and its rest in the next chunk. |
| `FramedReader.FramedReadState.DiscardPrecedingNoise` | crates/meshquill-transport/src/framed.rs:74-88 | Drops exactly what precedes the first prefix byte. |
| `FramedReader.FramedReadState.ReadFrom` | crates/meshquill-transport/src/framed.rs:39-72 | The read loop returns, leaves in the buffer and takes off the stream exactly what the reading function says, end of stream and cut-off frames included. |
| `FramedReader.ChunksDoNotMatter` | crates/meshquill-transport/src/framed.rs:39-72 | For any byte stream without an oversized frame, cut into any chunks, the reads yield the frames of the whole stream in order and then a clean end, or an error that counts the bytes of the cut-off frame. |
| `FramedReader.NoiseIsSkipped` | crates/meshquill-transport/src/framed.rs:74-88 | Any prefix-free noise before, between and after the frames, in any chunks, is skipped: the reads yield exactly the payloads in order and then a clean end. |
| `FramedReader.OversizedIsReported` | crates/meshquill-transport/src/framed.rs:39-72 | After any noise, a frame that declares more than 300 bytes is reported with its length and dropped. |
| `FramedReader.PeerCloses` | crates/meshquill-transport/src/framed.rs:39-72 | An empty read, or the end of the stream, ends the packet: cleanly if only noise waits, and otherwise with the number of bytes cut off. |
| `RemotePayloads.FromCodeIsExact` | crates/meshquill-core/src/remote.rs:351-382 | Decoding a kind byte is the inverse of its wire value, and nothing else is a kind. |
| `RemotePayloads.LowKindBytes` | crates/meshquill-core/src/remote.rs:351-382 | The kind bytes 0 to 103, one by one. |
| `RemotePayloads.MiddleKindBytes` | crates/meshquill-core/src/remote.rs:351-382 | The kind bytes 104 to 121, one by one. |
| `RemotePayloads.HighKindBytes` | crates/meshquill-core/src/remote.rs:351-382 | The kind bytes 125 to 133, one by one. |
| `RemotePayloads.HighestKindBytes` | crates/meshquill-core/src/remote.rs:351-382 | The kind bytes from 134, one by one. |
| `RemotePayloads.TelemetryTable` | crates/meshquill-core/src/remote.rs:384-427 | Which kinds of a telemetry record are signed, how many values they have and how wide those are, by lists of kinds. |
| `RemotePayloads.SummaryTable` | crates/meshquill-core/src/remote.rs:465-500 | The same for summary records, and which kinds have none. |
| `RemotePayloads.MultiplierTable` | crates/meshquill-core/src/remote.rs:429-509 | The scale of every kind and component in both formats. |
| `RemotePayloads.SummaryTableAgainstTelemetry` | crates/meshquill-core/src/remote.rs:384-500 | A summary exists exactly for the scalar kinds, with the telemetry encoding except for the width of humidity and the sign of current. |
| `RemotePayloads.DecodeValue` | crates/meshquill-core/src/remote.rs:725-793 | Bytes read one by one at widths 1 to 4 are the big-endian two's-complement value; truncation and other widths fail. |
| `Bytes.ReadI24IsSigned` | crates/meshquill-core/src/remote.rs:692-707 | The 24-bit reading with shifts and masks on 32-bit words, as used by the value decoder, is the two's-complement value of its bytes. |
| `Words.SignExtensionIsSigned` | crates/meshquill-core/src/remote.rs:700-707 | Setting the top byte of a word when bit 23 is set subtracts 2^24 exactly from the upper half. |
| `RemotePayloads.DecodeValues` | crates/meshquill-core/src/remote.rs:795-829 | The value loop reads exactly the declared number of values, or reports truncation. |
| `RemotePayloads.NextSample` | crates/meshquill-core/src/remote.rs:1097-1163 | One telemetry record at a cursor, polylines included, with its errors in order; its layout is `RemotePayloads.TelemetryTable`. |
| `RemotePayloads.NextSummary` | crates/meshquill-core/src/remote.rs:1188-1218 | One summary record at a cursor: minimum, maximum, average, or its error. |
| `RemotePayloads.ParseTelemetryPayload` | crates/meshquill-core/src/remote.rs:1085-1170 | The cursor loop computes the specified parse of the whole payload; for any nine bytes of a position record the result is their three signed 24-bit values. |
| `RemotePayloads.ParseSummaryPayload` | crates/meshquill-core/src/remote.rs:1173-1221 | The cursor loop computes the specified clock and records. |
| `RemotePayloads.ParsePrinted` | crates/meshquill-core/src/remote.rs:1085-1170 | Printed records followed by any zero padding parse back to the records, in both formats. |
| `RemotePayloads.ParsedIsPrinted` | crates/meshquill-core/src/remote.rs:1085-1170 | Every accepted buffer is its records, printed, followed by zero padding, and the records are valid. |
| `RemotePayloads.ParsedExactlyIfEncodes` | crates/meshquill-core/src/remote.rs:1085-1221 | A buffer parses to a list if and only if it is that list printed and zero padding, in both formats. |
| `RemotePayloads.TelemetryExactlyIfPrinted` | crates/meshquill-core/src/remote.rs:1085-1170 | The same for whole telemetry payloads, with the 176-byte limit; the printed form uses the layouts of `RemotePayloads.TelemetryTable`. |
| `RemotePayloads.SummaryExactlyIfPrinted` | crates/meshquill-core/src/remote.rs:1173-1221 | The same for whole summary payloads, with the little-endian clock. |
| `RemotePayloads.OneRecordParses` | crates/meshquill-core/src/remote.rs:1097-1163 | A payload of one record of a scalar kind parses to the big-endian values of its bytes, by the listed width, count and sign. |
| `RemotePayloads.PositionParses` | crates/meshquill-core/src/remote.rs:692-707 | A position record of any nine bytes parses to three 24-bit two's-complement values. |
| `RemotePayloads.RecordFaults` | crates/meshquill-core/src/remote.rs:1097-1218 | Why a record is refused, by its bytes: cut short, unknown kind, a kind without summary, a polyline that is too short or cut off. |
| `RemotePayloads.ShortRecordIsTruncated` | crates/meshquill-core/src/remote.rs:795-829 | A record with fewer bytes than its kind calls for is cut short. |
| `RemotePayloads.PayloadFaults` | crates/meshquill-core/src/remote.rs:1085-1221 | Too long, too short for a clock, or padding that is not all zero. |
| `RemotePayloads.ScalingIsLossless` | crates/meshquill-core/src/remote.rs:429-509 | For any rounding with a relative error of at most 2^-53, the scaled and rounded reading determines the record: distinct records never read the same. |
| `NeighbourPages.ParseNeighbourPage` | crates/meshquill-core/src/remote.rs:878-945 | The entry loop computes the specified parse of a page for any prefix length. |
| `NeighbourPages.PageExactlyIfPrinted` | crates/meshquill-core/src/remote.rs:878-945 | A payload parses to a page if and only if the prefix length is 1 to 32, the counts are consistent and non-negative, and the payload is exactly the printed page within the limit. |
| `NeighbourPages.EntryLayout` | crates/meshquill-core/src/remote.rs:878-945 | An entry byte by byte: key prefix, seconds with the low byte first, signed quality. |
| `NeighbourPages.PageFaults` | crates/meshquill-core/src/remote.rs:878-945 | Exactly when and why a page is refused, by its bytes. |
| `BatchLexer.LexLine` | crates/meshquill-cli/src/batch_cli.rs:386-462 | The character loop computes the scan of the whole line, stopping at a comment. |
| `BatchLexer.PrintedLineLexes` | crates/meshquill-cli/src/batch_cli.rs:386-462 | Every line of the grammar, in any mixture of bare, escaped, single-quoted and double-quoted pieces, lexes to its words; one ending inside an escape or a quote fails with that error. |
| `BatchLexer.EveryLineIsPrinted` | crates/meshquill-cli/src/batch_cli.rs:386-462 | Every string is a line of the grammar. |
| `BatchLexer.LexerIsExact` | crates/meshquill-cli/src/batch_cli.rs:386-462 | So the result of lexing any string is a given one if and only if the string reads that way in the grammar; errors occur exactly when it ends inside an escape or a quote. |
| `BatchLexer.QuotedLineLexes` | crates/meshquill-cli/src/batch_cli.rs:386-462 | Any words, double-quoted with backslash escapes, separated by any white space and followed by any white space and comment, lex back to exactly those words. |
| `BatchLexer.WhitespaceTable` | crates/meshquill-cli/src/batch_cli.rs:427-434 | White space is the 25 code points Unicode gives that property. |
| `Suggestions.EditDistance` | crates/meshquill-cli/src/runtime.rs:4082-4097 | The two swapped rows compute the recursive Levenshtein distance. |
| `Suggestions.DistanceIsSymmetric` | crates/meshquill-cli/src/runtime.rs:4082-4097 | The distance is symmetric. |
| `Suggestions.DistanceIsZeroOnlyIfEqual` | crates/meshquill-cli/src/runtime.rs:4082-4097 | It is zero exactly on equal strings. |
| `Suggestions.TriangleInequality` | crates/meshquill-cli/src/runtime.rs:4082-4097 | It obeys the triangle inequality. |
| `Suggestions.ShortestScript` | crates/meshquill-cli/src/runtime.rs:4082-4097 | Some script of that many single-character edits turns one string into the other. |
| `Suggestions.NoShorterScript` | crates/meshquill-cli/src/runtime.rs:4082-4097 | No shorter script does. |
| `Suggestions.Search.Closest` | crates/meshquill-cli/src/runtime.rs:4099-4124 | An empty query gives none; otherwise the result is none exactly if no candidate is within distance 1 (queries of up to 3 characters), 2 (up to 6) or 3, and else the least candidate within it. |
| `Suggestions.Search.ClosestIsUnique` | crates/meshquill-cli/src/runtime.rs:4099-4124 | The answer depends only on which candidates there are. |
| `Suggestions.Search.PrecedesDecides` | crates/meshquill-cli/src/runtime.rs:4116-4121 | The closer candidate comes first; of two equally close, the first difference of their lower-cased forms decides, and then the first difference as written. |
| `Suggestions.FirstDifferenceDecides` | crates/meshquill-cli/src/runtime.rs:4116-4121 | String order: the first difference decides, and without one the shorter comes first. |
| `Suggestions.Search.PrecedesIsTotal` | crates/meshquill-cli/src/runtime.rs:4116-4121 | The comparison is a total order whose ties are equal strings. |
| `Suggestions.Search.PrecedesIsTransitive` | crates/meshquill-cli/src/runtime.rs:4116-4121 | It is transitive. |
| `ChatSession.Chat.RunChat` | crates/meshquill-cli/src/runtime.rs:4453-4467 | For every script of device answers, events, lines and interrupts, a whole chat keeps the history laws: every submission was requested; in lag-free stretches a Disconnected starts a reconnect exactly when no completed reconnect is announced behind it; and a chat that is left normally has acted on every turn and submitted exactly once for every line that called for it. |
| `ChatSession.Chat.RunLines` | crates/meshquill-cli/src/runtime.rs:4468-4571 | The select loop keeps the history laws. Left normally, on /quit or at the end of the script, it has handled every line in order and read an event on every turn that had one, the retained draft is what the history calls for, no submission is owing, and without a lag the count of pending confirmations equals the unread Connected events. It fails only on an interrupt or a fatal result. |
| `ChatSession.Chat.NextTurn` | crates/meshquill-cli/src/runtime.rs:4470-4545 | A turn is an interrupt, else an event if any is unread, else a line. |
| `ChatSession.Chat.TakeLine` | crates/meshquill-cli/src/runtime.rs:4546-4571 | Unless the chat ends, the pending confirmations grow by exactly the reconnects begun, one for each loss of the link that was reported; it ends with an error exactly on a fatal result, and normally exactly on /quit. |
| `ChatSession.Chat.ReadEvent` | crates/meshquill-cli/src/runtime.rs:4472-4538 | Reads the oldest event and keeps the laws, failing exactly on a fatal result; reading a lag resets the count, and unless more events were lost it equals the unread Connected events if and only if there are none. |
| `ChatSession.Chat.React` | crates/meshquill-cli/src/runtime.rs:4473-4508 | A reconnect is begun exactly on a Disconnected with no confirmation pending. |
| `ChatSession.Chat.HandleLine` | crates/meshquill-cli/src/runtime.rs:4607-4787 | The reconnects reported equal those made and the losses reported; unless the chat ends, exactly one submission is made if the line calls for one and none otherwise; /channel and a resolved /to set the target and nothing else changes it; only a message, /send and /discard touch the draft; a message written while a draft is retained is refused and changes nothing; an error ends the chat exactly on a fatal result. |
| `ChatSession.Chat.Compose` | crates/meshquill-cli/src/runtime.rs:4730-4777 | Unless the chat ends, a message is submitted once, as prepared and resolved, if nothing is retained, and refused otherwise; lookup and send reconnects are both counted. |
| `ChatSession.Chat.Resubmit` | crates/meshquill-cli/src/runtime.rs:4694-4706 | Unless the chat ends, /send with a retained draft makes exactly one submission, of that draft; without one it submits nothing. |
| `ChatSession.Chat.SubmitDraft` | crates/meshquill-cli/src/runtime.rs:4790-4899 | Unless the chat ends, exactly one submission, of this draft, is made, and the draft is retained exactly if it failed reconnectably; the reported reconnects equal those made. |
| `ChatSession.Chat.LookUp` | crates/meshquill-cli/src/runtime.rs:4623-4684 | A listing or /to counts its reconnect and never touches the draft; a resolved /to sets the target to what it resolved to, and nothing else changes it. |
| `ChatSession.Chat.ListContacts` | crates/meshquill-cli/src/runtime.rs:4367-4395 | A listing is repeated once after a lost link, with a reconnect that adds exactly one uncounted Connected event, and fails exactly on a fatal result, such as a second loss; it leaves the draft alone. |
| `ChatSession.Chat.AwaitAck` | crates/meshquill-cli/src/runtime.rs:4901-4962 | The wait reconnects exactly if it lost the link, adding one uncounted Connected event, and fails exactly on a fatal result, which an expired wait is not. |
| `ChatSession.Chat.ReconnectSession` | crates/meshquill-cli/src/runtime.rs:4397-4411 | A restored session has published exactly one Connected event that is not yet counted; it fails exactly if a hook, an attempt that cannot be retried or the third attempt does. |
| `ChatSession.Chat.ReconnectDevice` | crates/meshquill-cli/src/reconnect.rs:36-75 | A success adds exactly one Connected event not yet counted, and a failure none; it fails exactly if a delay is interrupted, an attempt fails for good, or three attempts in a row fail. |
| `ChatSession.Chat.Attempt` | crates/meshquill-core/src/client.rs:193-211 | What one attempt publishes, event by event. |
| `ChatSession.Chat.LoadInbox` | crates/meshquill-cli/src/runtime.rs:4574-4605 | After the initial load, repeated at most once after a reconnect, no Connected event is left unread. |
| `ChatSession.Chat.DrainEvents` | crates/meshquill-cli/src/runtime.rs:4982-5012 | Reads exactly the unread events, those that arrive meanwhile included, and says whether the link is up by the last of them that tells; it fails exactly on a lag or a fatal result. |
| `ChatSession.Chat.PollIncoming` | crates/meshquill-cli/src/runtime.rs:4965-5028 | A completed poll went on exactly as long as messages came, and leaves no Connected event unaccounted for. |
| `ChatSession.NoSelfReplay` | crates/meshquill-cli/src/runtime.rs:4607-4899 | In every such history, submissions never outnumber the messages and /send lines. |
| `ChatSession.SubmittedExactlyAsAsked` | crates/meshquill-cli/src/runtime.rs:4607-4899 | In every such history the submissions are exactly the lines that called for one (messages while nothing was retained, /send while something was), but for one that the last line may still be owing. |
| `ChatSession.RetainedIsLastFailure` | crates/meshquill-cli/src/runtime.rs:4865-4884 | A retained draft is, verbatim, the last submission, and that one failed with a reconnectable error. |
| `ChatSession.SubmissionIsNewOrVerbatim` | crates/meshquill-cli/src/runtime.rs:4694-4776 | Every submission is a message written while nothing was retained, or the /send of exactly what failed last. |

## Left out

- The byte layouts of commands and packets (`protocol.rs`): a packet is a datatype with the
  variants the client distinguishes, and a buffer that does not parse is one more transport answer.
- The transports themselves beyond the framed reader, their timers and the wall clock: a timeout is one of the answers a
  read can give.
- The actor is a machine on values rather than a class: its steps interleave with those of the
  callers, which a sequential method cannot express. Aliasing of handles is not captured.
- A caller that gives up before its request is enqueued, and one that drops the receiving end of
  its answer: neither affects the actor.
- The one-line request wrappers of client and actor, which all use one of the modelled loops, and
  `sign`, which strings several of them together.
- Lag of the event broadcast outside the chat: `EndToEnd` quantifies over consumers that miss any
  of the events instead.
- The bits of scaled telemetry values: records hold the raw integers, and scaling is over `real`
  with any rounding of relative error at most 2^-53.
- The context strings of parse errors: the kind of error is modelled.
- The other remote payloads (access lists, regions, status): fixed layouts without new structure.
- `parse_chat_line`, chat output, history and hooks: a line is already parsed, and a hook or an
  output that fails ends the chat.
- Which errors of the chat call for a reconnect and which failed attempts may be retried: the
  answer carries it.
- How a contact query is resolved against a contact list: the listing answer carries the result.
- The lower-casing of suggestions: any function from strings to strings.
- Configuration, command-line arguments, the stores, the MQTT gateway and the hook runtime.
- Liveness, such as that an answer is eventually read: a transport may stay silent for ever.
