# Juggler in Dafny

Juggler is a small RPC and pub-sub protocol over websockets. A client sends a CALL; the
server registers it in redis, in a list for its URI, with an expiring key that carries its
time to live. A callee pops the call, runs it and registers the result, with the time that
is left, in a list for the calling connection. The server pops the result and sends RES.
The client races RES and NACK against its own timer, which raises EXP.

Each piece is short; what the system promises shows only across the pieces and over whole
runs. This project models the pieces and proves those promises for every run.

## How it is put together

| file | what it holds |
|---|---|
| `Keys.dfy` | the four families of redis keys, and cluster slots |
| `Redis.dfy` | the redis commands in use, the two Lua scripts, and the bounded FIFO queue that they refine |
| `Timing.dfy` | durations: Go's truncating division, default timeouts |
| `Protocol.dfy` | the whole call life cycle as a state machine: `World`, `Action`, `Apply`, `Run` |
| `ProtocolPlaces.dfy`, `ProtocolSteps.dfy`, `ProtocolRegister.dfy` | conservation and routing, kept by every action |
| `ProtocolLog.dfy`, `ProtocolTime.dfy` | causal history; deadlines and the expiring keys |
| `ProtocolTheorems.dfy`, `ProtocolResults.dfy` | the theorems over every run; when a RES is sent |
| `ProtocolActions.dfy` | what each action does, from its own arguments; where the times are from |
| `Broker.dfy` | the broker's methods on a redis server, each one step of the protocol |
| `Client.dfy` | the client's pending table, error and stop signal, and their interleavings |
| `Session.dfy` | a client joined to its server: from the call to the RES that is handed over |
| `Pump.dfy` | the loop behind `pollCalls`, `pollResults` and `listen` |
| `Writer.dfy` | the exclusive writer and the limited writer |
| `Message.dfy` | message types, origins of replies, the registry |
| `Negotiate.dfy` | allowed messages: the header, the decoder, what `ServeConn` sets up |
| `Lifecycle.dfy` | the life of a server connection |
| `Handler.dfy` | `ProcessMsg`: one acknowledgement for each request, failed writes, and the counters |

Code that changes fields step by step is a class with methods (`Redis`, `Broker`, `Client`,
`Pump.Conn`, `ExclusiveWriter`, `LimitedWriter`, `Lifecycle.Conn`, `Handling`, `Registry`).
Where goroutines interleave, the same steps are also actions of a state machine, and a run
is any sequence of enabled actions. The methods are proved to do what the actions do.

## What is taken for granted

- Redis: `SET ... PX` with an expiry that is not positive fails and changes nothing; a key
  is there up to and including the millisecond of its deadline; `LTRIM` has inclusive
  bounds, clipped to the list; `BRPOP` serves the tail of the first key that has one;
  `PTTL` of a missing key is -2; a script that fails half-way is not rolled back; the
  hashed part of a key follows section "Hash tags" of the Redis Cluster Specification.
- Message UUIDs are fresh, and no two connections share a UUID.
- JSON encoding is injective, so a payload stands for its text.
- There is one global clock, in nanoseconds, and redis reads it in milliseconds.
- A frame writer that was closed takes no more bytes.
- A field of a connection is read and written in one step, and only `Server.ConnState` gives
  a connection away before its loops start.
- A websocket connection with a frame that could not be flushed refuses every writer after
  that (used in `Handler.dfy` and for `WholeButLast`).
- What the server writes on a connection reaches the client in order, or is lost. That the
  server answers a call once is a hypothesis in `Client.dfy`, and proved in `Session.dfy`.

## Where the code differs from its documentation or from what one expects

The model follows the code.

- The client package promises RES or EXP for every ACKed call, "never both or none". Never
  both holds always; but closing the client can leave none (`ClosedGetsNone`). When exactly
  there is one is `AckedOutcomeExact`.
- The client's `Close` promises that no more messages will be received. A handler goroutine
  that was started before can still call the handler (`DeliveredAfterClose`); when exactly
  it cannot is `QuietAfterStop`.
- `CallsErr` and its like are documented to be set only once the channel is closed. They
  are set before, while the senders drain (`ErrorVisible`).
- A `Juggler-Allowed-Messages` header that is neither empty nor `*` is documented to allow
  only what it names. One that names no request type allows everything (`HeaderRestricts`).
- `ServeConn` is documented to allow only the types in a list that is not empty. A list
  without a request type allows every request, and provides for none but PUB (`Agreement`,
  `NothingProvided`, `AskedExactly`).
- `Conn.Close` is documented as safe to call concurrently. Called while `ServeConn` still
  sets the connection up, from the `ConnState` callback for `Accepting` or from a goroutine
  that it starts, it leaves broker connections open (`EarlyCloseLeaks`, `CloseBetweenLeaks`);
  when exactly is `LinkClosed`.
- A timeout between zero and one millisecond is taken for unset by the broker, so the call
  gets a minute while the client waits less than a millisecond (`TimeoutsAgree`).
- An ACKed call can be trimmed off its list by a broker with a smaller capacity
  (`MixedCapsTrim`); with one capacity it cannot (`NothingTrimmed`).
- A failed write is documented to close the connection, and every request to get an ACK or
  NACK. The error of the flush is discarded, so the last message can be lost on a connection
  that stays open (`LostAck`); when exactly is `FailedWriteCloses`.
- A result that is not sent back before the timeout of its call is documented to be dropped.
  It is dropped at its own deadline, which can be later (`LateRes`); when exactly it is not
  is `ExpiresWithCall`.
- A limited writer is said to fail in the end if written to repeatedly; empty writes never
  fail (`EmptyNeverFails`, `FailsInTheEnd`).

## Model

| member | source | states |
|---|---|---|
| `Keys.RenderInjective` | broker/redisbroker/broker.go:114-136 | two keys of the broker have the same text exactly if they are of the same family and have the same parts, whatever braces and colons the URI holds; so list keys never meet timeout keys |
| `Keys.TimeoutTextInjective` | broker/redisbroker/broker.go:117-121 | the text of a timeout key determines its two parts, also for a message whose UUID text is empty |
| `Keys.CallKeysShareTag` | broker/redisbroker/broker.go:114-117 | the list key and the timeout key of a call hash the same text if and only if the URI is not empty and does not start with a closing brace |
| `Keys.ResKeysShareTag` | broker/redisbroker/broker.go:119-121 | the two keys of a result always hash exactly the connection UUID |
| `Keys.BareUriHashed` | cmd/juggler-callee/main.go:91-100 | exactly which URIs are hashed alike on their own and in their list key |
| `Keys.BracedUriSplitsWrong` | cmd/juggler-callee/main.go:91-100 | a URI with braces that is grouped by another text than its list key is hashed on |
| `Keys.GroupingBySlot` | cmd/juggler-callee/main.go:91-104 | for such URIs, grouping by the slot of the URI groups exactly the list keys that share a slot, for any hash function |
| `RedisStore.ScriptTrim` | broker/redisbroker/broker.go:104-108 | the bounds that the script gives LTRIM keep exactly the oldest items, as many as the limit |
| `RedisStore.Redis.PushBounded` | broker/redisbroker/broker.go:104-111 | LPUSH and LTRIM together are an offer to a bounded FIFO queue, the list read in reverse |
| `RedisStore.Redis.RegisterScript` | broker/redisbroker/broker.go:102-112 | the whole script, with each way that it fails and what it leaves behind then, refines the registration with a bounded queue |
| `RedisStore.Redis.DelAndPttlScript` | broker/redisbroker/calls.go:18-22 | returns the time to live the key had, and removes the key and nothing else |
| `RedisStore.Redis.Brpop` | broker/redisbroker/calls.go:83-84 | takes the oldest item of the first queue that has one, and nothing else changes |
| `RedisStore.FifoRuns` | broker/redisbroker/broker.go:83-112 | over every run of registrations, pops, reads of time to live and expiries, with one capacity for each list: what a list gave out followed by what it holds is what it accepted, in order, and a positive capacity is never exceeded |
| `RedisStore.RegistersExactly` | broker/redisbroker/broker.go:102-112 | after any such run a registration is accepted if and only if redis takes its expiry and what its list accepted and has not given out is below the capacity |
| `RedisStore.PopsExactly` | broker/redisbroker/calls.go:83-84 | after any such run a pop gives out, of the first of its keys that holds anything, the item accepted first of those not given out, and nothing if there is none |
| `RedisStore.RefusedRegistration` | broker/redisbroker/broker.go:103-110 | a refused registration leaves its timeout key behind, and keeps of the queue its oldest items, so that the queue is unchanged if and only if it was within the capacity |
| `Timing.ExpiryPositive` | broker/redisbroker/broker.go:150-153 | which timeouts redis refuses, which become the default, and that the others are rounded down to the millisecond |
| `Timing.ClientWaits` | client/client.go:188-210 | the client waits for the timeout of the call, or else for its own, or else for a minute |
| `Timing.TimeoutsAgree` | client/client.go:188-216 | the client and the broker give a call the same time, to the millisecond, if and only if its timeout is a millisecond or more, or is unset |
| `Broker.Broker.Register` | broker/redisbroker/broker.go:138-163 | a timeout of minus a millisecond or less changes nothing; otherwise the first key expires when the timeout says, rounded down to the millisecond or a minute if unset, and the list takes the payload at its end if and only if it has room |
| `Broker.Broker.Call` | broker/redisbroker/broker.go:125-129 | is the server's step of the protocol on redis, reports acceptance, and leaves the list and the expiring key of the call as its own timeout says |
| `Broker.Broker.Result` | broker/redisbroker/broker.go:132-136 | the same for the callee's last step and the keys of the result |
| `Broker.Broker.SendCall` | broker/redisbroker/calls.go:119-144 | is the step that drops a popped call or sends it on with its time to live |
| `Broker.Broker.SendResult` | broker/redisbroker/results.go:107-130 | is the step that drops a popped result or sends it on |
| `Broker.Broker.PollCall` | broker/redisbroker/calls.go:61-88 | is the step that pops a call for a callee, exactly if there is one; otherwise nothing changes |
| `ProtocolPlaces.SoleJob` | broker/redisbroker/calls.go:100-144 | a message that a goroutine holds or dropped is in no list, in no other goroutine and was not trimmed |
| `ProtocolPlaces.SoleCall` | broker/redisbroker/broker.go:102-129 | a message in a call list is at no other position of any list, in no goroutine and was not trimmed |
| `ProtocolPlaces.SoleRes` | broker/redisbroker/broker.go:102-136 | a message in a result list is at no other position of any list, in no goroutine and was not trimmed |
| `ProtocolSteps.PoppedUri` | callee/callee.go:79-92 | a callee only gets calls for URIs that it listens to, so the thunk it looks up exists |
| `ProtocolRegister.StepCore` | broker/redisbroker/broker.go:102-163 | every action keeps every accepted call in exactly one place, with its connection, message, URI and arguments unaltered |
| `ProtocolTheorems.Conservation` | broker/redisbroker/results.go:66-134 | in every state of every run an accepted CALL is in exactly one place and a refused one is in none |
| `ProtocolTheorems.Routing` | conn.go:158-173 | every RES on a connection was preceded by a CALL received on that connection with that UUID and URI, then by an invocation with the arguments of that CALL, then by the storing of what the RES carries |
| `ProtocolTheorems.AtMostOnce` | handler.go:84-95 | each CALL is answered, invoked, has its result stored and is sent a RES at most once |
| `ProtocolTheorems.RefusedGetsNothing` | handler.go:91-94 | a CALL that is sent a NACK is never invoked and never gets a RES |
| `ProtocolTheorems.OneReply` | handler.go:84-95 | a CALL has its one reply, on its own connection, exactly when the receive loop is done with it, and it is an ACK if and only if its payload was enqueued |
| `ProtocolActions.ReceiveEffect` | handler.go:84-95 | a CALL is recorded and logged as it was received, and accepted, as the last of its list, if and only if the broker can be reached, redis takes its timeout and the list has room; no other list changes |
| `ProtocolActions.DeadlineGranted` | broker/redisbroker/broker.go:150-153 | in every later state the deadline of a call is the millisecond of its receipt plus its own timeout rounded down, or plus a minute if it has less than a millisecond |
| `ProtocolActions.StoreEffect` | callee/callee.go:96-120 | a result is stored, as the last of the list of its connection and with what the thunk returned, if and only if the broker can be reached and the list has room; otherwise it is given up |
| `ProtocolActions.PopEffect` | broker/redisbroker/calls.go:78-101 | a callee gets the oldest call of the first of its lists that holds one, and no other list changes |
| `ProtocolActions.PopResultEffect` | broker/redisbroker/results.go:66-90 | a connection gets the oldest result of its own list |
| `ProtocolActions.FaultDrops` | broker/redisbroker/calls.go:119-132 | a broker error when the time to live is read drops the call or result, and changes nothing else |
| `ProtocolActions.ThunkStarts` | callee/callee.go:43-47 | a thunk is invoked with the URI and arguments of the call that was read, and its time counts from then |
| `ProtocolActions.ThunkEnds` | callee/callee.go:43-53 | a result goes on to be stored if and only if the thunk took less time than the call had left when its time to live was read, and with exactly the difference left |
| `ProtocolActions.JobMade` | callee/callee.go:43-53 | every time that the model keeps of a call is that of the step it is named for: the reads of its times to live, the start and the end of its thunk |
| `ProtocolTheorems.DeliveredInTime` | broker/redisbroker/calls.go:119-144 | without a broker error a popped call goes on to the callee if and only if its time to live is read before its own deadline, and with exactly the time that is left |
| `ProtocolTheorems.ResultInTime` | broker/redisbroker/results.go:107-130 | the same for a result and its own deadline |
| `ProtocolTheorems.DeadlineDrift` | callee/callee.go:43-53 | with a millisecond or more left a result expires exactly at the deadline of the call put off by two named waits, plus and less three named parts of a millisecond, so within two milliseconds before and one after; with less left it gets the default timeout |
| `ProtocolTheorems.NoLaterThanPutOff` | callee/callee.go:43-53 | a result expires no later than that put-off deadline if and only if a millisecond or more was left and the part of a millisecond not yet counted when the call was read is at most those rounded off when the result was stored |
| `ProtocolTheorems.DriftRounds` | callee/callee.go:43-53 | a whole run in which a result outlives that put-off deadline by a millisecond less a nanosecond |
| `ProtocolResults.ResSentInTime` | broker/redisbroker/results.go:107-130 | every RES that is sent had its time to live read after its result was stored and before that expired |
| `ProtocolResults.ExpiresWithCall` | message/message.go:165-169 | a result expires no later than its call, and so is never sent once the call has timed out, if and only if the two waits that the call is not charged for are made up for by the rounding, and a millisecond or more was left |
| `ProtocolResults.LateRes` | message/message.go:165-169 | a run in which a RES is sent ten milliseconds after the deadline of its call |
| `ProtocolTheorems.NothingTrimmed` | broker/redisbroker/broker.go:83-112 | with one capacity for calls and one for results no accepted call is ever trimmed off a list, and no list outgrows its capacity |
| `ProtocolTheorems.CallTrims` | broker/redisbroker/broker.go:102-129 | a registration of a call trims accepted calls if and only if it reaches the list and finds it longer than its own capacity |
| `ProtocolTheorems.ResultTrims` | broker/redisbroker/broker.go:102-136 | the same for a registration of a result |
| `ProtocolTheorems.MixedCapsTrim` | broker/redisbroker/broker.go:102-112 | a run with two capacities in which an accepted call is trimmed off its list |
| `Client.Client.Call` | client/client.go:180-204 | is the steps Begin, Write and Add of the machine, as far as they go; succeeds exactly if the client had no error and the write went through, and only then is the call pending |
| `Client.Client.Close` | client/client.go:136-158 | stops the client with an error for good, and returns the error it had or else that of closing |
| `Client.Client.HandleMessage` | client/client.go:96-112 | the handler gets every message but a RES for a call that is not pending; a RES and a NACK for a call end it, and nothing else changes |
| `Client.Client.HandleMessages` | client/client.go:77-114 | the read loop over any frames, to its error and the stop signal |
| `Client.FramesRead` | client/client.go:77-112 | the read loop over any frames is one read of the machine for each frame that decodes, in order |
| `Client.PendingExactly` | client/client.go:224-240 | in every state a call is pending if and only if it was added and no RES, NACK or timer has come for it since |
| `Client.HandedExactly` | client/client.go:96-112 | over every run each message read is handed over, but a RES for a call that is not due, a timer hands over EXP exactly if its call is due, and nothing else is handed over |
| `Client.ErrorExactly` | client/client.go:77-88 | over every run what sets the error of the client, and to what, and that a request is refused exactly if there is one when it begins |
| `Client.Client.ExpireCall` | client/client.go:217-222 | the timer branch hands over EXP exactly if the call is still pending, which it is not any more |
| `Client.AtMostOneOutcome` | client/client.go:8-12 | in every interleaving, whatever the server sends, a call hands over at most one of RES and EXP |
| `Client.OutcomeDecided` | client/client.go:96-112 | the first of RES, NACK and timer after addPending decides: RES is handed over exactly if it was RES, EXP exactly if it was the timer; replies before addPending change nothing |
| `Client.UnrefusedGetsOne` | client/client.go:8-12 | a call without a NACK whose timer branch was taken hands over exactly one of RES and EXP |
| `Client.UnrefusedOutcomeExact` | client/client.go:8-12 | a call without a NACK hands over exactly one of the two if and only if its RES or its timer came after addPending |
| `Client.AckedGetsOne` | client/client.go:8-12 | a call with an ACK, from a server that answers once, whose timer branch was taken hands over exactly one of RES and EXP |
| `Client.AckedOutcomeExact` | client/client.go:8-12 | such a call that is over hands over exactly one of the two if its timer goroutine did not quit at the stop signal or its RES came after addPending, and neither otherwise |
| `Client.ExpiredThoughNacked` | client/client.go:105-110 | a call with both EXP and a NACK had its NACK before addPending or after the timer |
| `Client.ClosedGetsNone` | client/client.go:211-215 | a run in which an ACKed call gets neither, because Close was called and has returned |
| `Client.ErrorSticks` | client/client.go:82-88 | the error of a client never goes back to nil |
| `Client.ClosedRefuses` | client/client.go:136-158 | a request begun after a Close has returned fails and is never written |
| `Client.SilentAfterStop` | client/client.go:77-112 | after the stop signal no handler goroutine is started but for EXP |
| `Client.LateDelivery` | client/client.go:112 | what the handler is called with after the stop signal is EXP, or a message read before it whose goroutine had not run yet |
| `Client.QuietAfterStop` | client/client.go:135-144 | after the stop signal the handler is called with nothing but EXP if and only if all goroutines started for other messages had called it by then |
| `Client.DeliveredAfterClose` | client/client.go:135-144 | a run in which the handler is called with a RES after Close has returned |
| `Client.HandlerGetsOne` | client/client.go:8-12 | over every run the handler is called with at most one of RES and EXP for a call, and once |
| `Session.AnsweredOnce` | doc.go:9-12 | a client joined to its server never reads both an ACK and a NACK for a call |
| `Session.RefusedGetsNoRes` | client/client.go:105-109 | such a client never reads a RES for a call whose NACK it read |
| `Session.CallOutcome` | client/client.go:8-12 | what AckedOutcomeExact states, with nothing assumed of the server |
| `Session.HandedResTraced` | conn.go:158-173 | a RES that the client hands over is for a call that it wrote, that was received on its connection, invoked exactly once with the URI and arguments of the call, stored, and sent on that connection, in this order |
| `Session.SomeSession` | conn.go:158-173 | a joined run in which a RES reaches the client |
| `Pump.PumpSafe` | broker/redisbroker/calls.go:78-148 | no send on a closed channel; at the close the error is recorded, the senders are gone, and the items popped are those delivered and those dropped, each once |
| `Pump.ErrorVisible` | broker/broker.go:66-68 | in every state of every run the error is set exactly from the poll error on, and so while the channel is still open exactly from the poll error until the close |
| `Pump.ErrorStays` | broker/redisbroker/calls.go:91-97 | the error read is always that of the one poll error |
| `Pump.ErrBeforeClose` | broker/redisbroker/calls.go:91-97 | a run whose error is set while the channel is still open |
| `Pump.DrainProgress` | broker/redisbroker/results.go:79-86 | after a poll error every step brings the close nearer |
| `Pump.DrainEnabled` | broker/redisbroker/pubsub.go:93-101 | until the close some step is possible |
| `Pump.DrainBounded` | broker/redisbroker/pubsub.go:79-121 | after a poll error the number of steps to come is bounded by what the senders have left to do |
| `Pump.Conn.Poll` | broker/redisbroker/calls.go:78-103 | the loop over any replies of redis, to its first error: the items are popped, and a sender started for each, in order |
| `Pump.Conn.RunSender` | broker/redisbroker/calls.go:106-148 | a sender from its item to the end of its goroutine |
| `Pump.SentExactly` | broker/redisbroker/calls.go:106-148 | a sender of an open pump delivers its item, or drops it, exactly as it decides |
| `Pump.Conn.Pump` | broker/redisbroker/calls.go:78-148 | a whole life of the pump, whatever redis replies and the senders decide: the items of the replies are popped in order, those decided on are delivered in order and the others dropped; the channel is closed, nothing panicked, the error is recorded and all senders are gone |
| `Writer.StepOneToken` | internal/wswriter/wswriter.go:46-94 | a step keeps the token in one place if and only if it does not close a writer for a second time |
| `Writer.Exclusive` | internal/wswriter/wswriter.go:46-94 | over any number of writers each closed once at most, through lock timeouts and failures of NextWriter, the token is in the channel or with exactly one writer, and each writer's bytes are contiguous on the wire (section 5.4 of RFC 6455) |
| `Writer.WholeMessages` | internal/wswriter/wswriter.go:75-94 | wherever the pieces of one writer give way to those of another, the first message ends there if and only if its Close could flush it |
| `Writer.WholeButLast` | internal/wswriter/wswriter.go:46-94 | on a connection that refuses a new frame once one could not be flushed, every message on the wire is whole but perhaps the last (section 5.4 of RFC 6455) |
| `Writer.ClosedTwice` | internal/wswriter/wswriter.go:77-94 | a run in which a second Close lets two writers hold the lock |
| `Writer.BudgetPasses` | internal/wswriter/wswriter.go:105-117 | over any sequence of writes exactly the longest prefix within the limit is passed on, and all later writes fail, as long as int64 does not wrap around |
| `Writer.WritePasses` | internal/wswriter/wswriter.go:111-117 | with no bound: after any writes, the next is passed on if and only if the limit less all bytes attempted, wrapped to an int64, is not negative |
| `Writer.BudgetWraps` | internal/wswriter/wswriter.go:111-117 | writes of a size for which two fail and a third passes, because the int64 wraps around |
| `Writer.RepeatedWrites` | internal/wswriter/wswriter_test.go:12-41 | the same write made k times passes every time if and only if the total fits |
| `Writer.EmptyNeverFails` | internal/wswriter/wswriter.go:111-117 | empty writes pass, however many |
| `Writer.FailsInTheEnd` | internal/wswriter/wswriter_test.go:12-41 | writing the same bytes again and again fails in the end if and only if there are any |
| `Writer.ExclusiveWriter.Write` | internal/wswriter/wswriter.go:46-73 | is steps of the lock and of the wire; for each case its error, or the panic of a second Write after NextWriter has failed, what is on the wire and who has the token |
| `Writer.ExclusiveWriter.Close` | internal/wswriter/wswriter.go:75-94 | is the step of the lock that gives the token back exactly if it was taken, whether or not the flush fails; the end of the message is on the wire exactly if there was a frame, still open, that could be flushed, and the error says which of these failed |
| `Writer.LimitedWriter.Write` | internal/wswriter/wswriter.go:111-117 | a write over the budget never reaches the writer below |
| `Writer.WriteMsg` | handler.go:148-157 | a message over the limit takes no lock and leaves no byte; any other is one piece on the wire, and its end if it can be flushed, unless the connection fails; the lock is free again in every case |
| `Message.NackChainOrigin` | message/message.go:287-331 | a chain of NACKs of any length, from any message, keeps the UUID, type, URI and channel of the origin |
| `Message.NackSays` | message/message.go:279-295 | a NACK has its own UUID and the code and text it is given |
| `Message.ServerMessageOrigin` | message/message.go:318-329 | a reply to a result is about its call, and one to an event about the message that published it |
| `Message.AckOrigin` | message/message.go:349-367 | an ACK names the origin if and only if it is for a request |
| `Message.TracedToRequest` | message/message.go:287-367 | an ACK and any NACKs after it are about the request itself, with its UUID, type, URI and channel |
| `Message.Registry.Register` | message/message.go:87-98 | gives the next type to a new name and keeps all others, and panics exactly for a taken one, without a change |
| `Message.RegistryRuns` | message/message.go:53-98 | after any registrations names are pairwise distinct, and the types in use are the standard ones and a run from 256 |
| `Message.NamesTaken` | message/message.go:53-98 | after any registrations a new one panics exactly for the standard names and those registered before |
| `Message.RegisteredFresh` | message/message.go:71-126 | the type a registration returns is new, at least 256, no request, no response and not decodable |
| `Negotiate.Clean` | message/message.go:436-446 | the types that the decoder lets through |
| `Negotiate.IsInType` | server.go:104-111 | membership |
| `Negotiate.Agreement` | server.go:117-174 | every request let through has what it needs if and only if the list is empty or holds a request type |
| `Negotiate.SetupExactly` | server.go:137-174 | for such a list exactly what the requests let through need is set up |
| `Negotiate.NothingProvided` | server.go:137-159 | any other list lets every request through, and none but PUB has what it needs |
| `Negotiate.AskedExactly` | server.go:113-116 | every request let through is in the list, if that is not empty, if and only if the list is empty or holds a request type |
| `Negotiate.AcceptsRequests` | message/message.go:430-447 | nothing but requests is let through |
| `Negotiate.AllowedMessagesFromHeader` | server.go:220-239 | a type is in the result if and only if the header, without the spaces at its ends, is neither empty nor a star, and one of its parts is the name of that request type |
| `Negotiate.NamedExactly` | server.go:225-235 | a part of the header names a request type if and only if, without the spaces at its ends and in capitals, it is the name of that type |
| `Negotiate.CutOnce` | server.go:225 | there is only one way to cut the spaces off both ends |
| `Negotiate.TrimCuts` | server.go:222-225 | the trimmed text is the text without the spaces at its two ends |
| `Negotiate.SplitJoins` | server.go:223 | the parts have no comma and joined give the header again |
| `Negotiate.HeaderNames` | server.go:220-239 | a type is in the list if and only if a part of the header names it |
| `Negotiate.HeaderAgreement` | server.go:209-211 | for every header, every request let through has what it needs |
| `Negotiate.HeaderRestricts` | server.go:188-193 | a missing or empty header and a star allow every request; any other header restricts the connection to what its parts name if and only if some part names a request type |
| `Negotiate.UnknownHeaderAllowsAll` | server.go:220-239 | a header that allows every request although it is neither empty nor a star |
| `Lifecycle.Notifications` | server.go:130-164 | Accepting, then at most one Connected, then one final Closed |
| `Lifecycle.LinkClosed` | conn.go:107-118 | each broker connection that was opened is closed once or never by the time Closed is notified, and once if and only if it was put in its field before the one step of Close that looks there |
| `Lifecycle.LinksClosed` | conn.go:107-118 | when Closed is notified, every broker connection that was opened has been closed exactly once, if and only if none was put in its field after Close had looked there |
| `Lifecycle.ClosedWhenServing` | server.go:130-178 | a connection that no other goroutine closes before it is connected leaves no broker connection open |
| `Lifecycle.EarlyCloseLeaks` | server.go:131-159 | a run in which a Close from the callback for Accepting leaves both broker connections open |
| `Lifecycle.CloseBetweenLeaks` | server.go:146-158 | a run in which a Close by another goroutine between the two dials leaves the second broker connection open |
| `Lifecycle.FirstCloseErr` | conn.go:102-118 | the error of the first closer is recorded and never changes |
| `Lifecycle.Conn.ServeConn` | server.go:117-178 | for any list of allowed types is one run of the machine to its end, with the notifications, the recorded error and the state of both broker connections for each way the setup can go |
| `Handler.Handling.ProcessMsg` | handler.go:73-157 | a request is a Take and a Finish of the machine, answered by an ACK or by a NACK 500 with what the broker said; a result or event is a Push; an error of writeMsg closes the connection, a failed flush does not |
| `Handler.FailedWriteCloses` | handler.go:66-69 | a connection with a failed write that nothing else closes is closed if and only if its last message has an error or an earlier one failed, and then with the first error of writeMsg; so not while the one failure is the flush of the last message |
| `Handler.OpenOnlyLastFailed` | handler.go:148-157 | on an open connection every message but the last has been written, and the last has, or could not be flushed |
| `Handler.ErrorCloses` | handler.go:130-146 | an error that writeMsg returns leaves its connection closed, whatever else closes it |
| `Handler.LostAck` | handler.go:148-151 | a run in which the broker takes a request and its ACK is lost in the flush, on a connection that stays open |
| `Handler.OneAcknowledgement` | doc.go:9-12 | on each connection, whatever else is sent and whatever writes fail, the k-th ACK or NACK names the UUID and type of the k-th request and is an ACK if and only if the broker took it; on an open connection all are written but perhaps the last, if it is the last message and could not be flushed |
| `Handler.FinishExactly` | handler.go:84-120 | a request counts as taken, and is answered with an ACK about it, exactly if the broker had no error, and with a NACK 500 that says it otherwise |
| `Handler.CountersBalance` | handler.go:36-46 | the requests read are always the ACKs, the NACKs and the requests being processed |
| `Handler.CountersExactly` | handler.go:36-46 | the counters are at any time the numbers of all messages processed, of those read, of those written and of those of each type |

## Left out

- JSON text, websocket framing, TCP and TLS: library code; payloads are values here.
- redigo and redisc: retries and redirections; a broker error is an outcome without a change of state, and a script whose reply is lost is not modelled.
- Matching and delivery of pub-sub by redis: only the pump that forwards events is modelled.
- Fairness and latency: the only progress claims are those of the pump's drain.
- Custom handlers and the wrappers in internal/srvhandler: the default handler is modelled.
- Results and calls of a connection or callee that is closed: they stay in their lists, as in redis; the closing of a connection is modelled apart, in `Lifecycle.dfy`.
- Messages of custom types: the handler and the decoder are modelled for the standard ones.
- Servers without a `ConnState` callback: the same runs, without the notifications.
- Read and write deadlines of the websocket, and the counters for slow messages and write failures.
- `Callee.Listen` and the loop of `Conn.results`: they only repeat a step that is modelled.
- The commands for load tests and direct calls, the server configuration, and all deployment files.
- Writer.BudgetPasses: stated for writes that do not wrap an int64 around, since beyond that it is false (`BudgetWraps`); `WritePasses` has no such bound.
- Writer.RepeatedWrites: stated within the same bound, for the same reason.
