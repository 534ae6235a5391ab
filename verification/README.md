# Verification of nproto

A Dafny 4.11 model of nproto's communication components, with proofs. `dafny verify dfyconfig.toml` checks it.

Three parts carry state and concurrency:

- **The message pipe** (`binlogmsg`): rows of message tables are published through an asynchronous downstream and deleted
  once that succeeded. A producer, the owed callbacks, a post-processing goroutine and the caller of `Run` interleave; the
  pipe stops and restarts any number of times.
- **The durable connection** (`stanmsg`): a connection that reconnects and resubscribes by itself, with any number of connect
  tasks, one resubscribing worker for each connection, callers of `Subscribe`, and `Close`.
- **Remote calls** (`natsrpc`): client, subjects, registry, server handler and the way back.

Beside them stand the callback contract of `msg` and its tracing middleware, the encoders of `enc`, metadata, and two
compositions: the content of one message on its whole way (`MessagePath`), and pipe, publisher, broker and subscriber
together (`EndToEnd`: nothing is lost; `Delivery`: everything can be delivered; `EarlierMessages`: the limits).

## How it is built

`PipeModel`, `DurModel` and `EndToEnd` are transition systems: a state, a datatype of steps, `Enabled` and `Apply`. A step
is one channel operation, one wait-group operation, one database statement, one region under a lock, or one library call.
`CanRun(s, steps)` and `Exec(s, steps)` run a sequence of steps, so a theorem about all of them covers every interleaving.
A Go panic is a state with `crashed` set. Fields under "History" are only ever extended.

`MsgPipeCode` and `DurConnCode` hold the code itself, as methods over the channels, counters and fields. Their ghost `trace`
is a run of the transition system, which is part of `Valid()`; `Took(st)` says that a method made exactly that step. Where
a goroutine may be preempted, `Others`, `Interfere`, `InterfereKeeping` or `InterfereWhenClosed` let the rest of the
program move. A `select` is a nondeterministic `if`. Most methods that make just one step, with its effect on the fields,
have no row below.

The steps of `PipeModel` and the code they stand for, in `binlogmsg/binlogmsg.go`: `Flush` 126-133 (quota, wait group,
hand-over), `Callback` 134-141, `CallbackDone` 142, `Receive` 158, `Settle` 159-165, `Release` 166, `PostExit` 154-155,
`Start` 97-178, `FullEnd` and `Abort` 174-209 and 226-251, `Skip` 232-247, `WaitCallbacks` 213 and 255, `DoClose` 115,
`DoCancel` 110, `DoJoin` 107, `DoCloseDb` 104, `ReturnRun` 86-87.

The steps of `DurModel`, in `stanmsg/durconn.go`: `Lock` 154, `Reset` 159-169, `CloseOld` 172, `CloseOldStale` 173,
`ConnectOk` and `ConnectFail` 198-204, `Install` 213-226, `Discard` 216, `DiscardStale` 217, `Spawn` 230 and 302,
`WorkerSubscribe` 321-325, `WorkerStale` 328-330 and 341-343, `WorkerDone` 335-338, `Subscribe` 279-298, `Close` 425-435,
`CloserConn` 438, `CloserStale` 439, `CloserReturn` 442-443, `Lost` 187-192.

What the environment answers a method (the library's result, a query's, downstream's) is a parameter of the method, so that
its contract says what follows from which answer. What is taken from the environment is written down as the guard of a
step or as a precondition:

- A publisher that returns nil calls its callback exactly once, one that returns an error never (`AsyncPublisher.Contract`).
  In the pipe this makes an accepted entry stay in flight until its one `Callback` step.
- The full dump is a snapshot at a log position, not necessarily the newest; the binlog dump replays the log from there;
  row ids are never reused (`Start`, `Skip`, `AppInsert`).
- The broker stores a message before it acknowledges it and forgets it for a durable queue only when that queue
  acknowledges it (`EndToEnd`).
- A runner does not run a task whose submission failed. Unmarshalling undoes marshalling (`Lossless`).
- Rows of message tables carry a valid subject and well-formed data.

## What turned out

- **Messages older than a queue.** A broker keeps nothing for a durable queue that does not exist yet, so a message can be lost
  for a queue: `EarlierMessages.EarlierMessageMayBeLost` is such a run. For messages inserted later there is no
  exception (`EndToEnd.NoLoss`), and `EarlierMessages.MayBeLostIffNotSecured` has the exact condition in any state: the
  message's deletion from its table has happened or a positive result that leads to it is on its way, and the broker neither
  holds it for the queue nor has had it handled.
- **Rows left in a table.** Of the rows a finished iteration has accepted, those still in the table are not exactly those whose
  publication or DELETE failed: with a snapshot older than the pipe's own deletions, a row already gone is accepted again.
  `PipeStaleSnapshot.FailedRowMayBeGone` is such a run. `PipeTheorems.Settlement` has the exact condition: the row was not
  deleted before the iteration started.
- **Metadata.** A message without metadata of its own picks up the outgoing metadata of the context given to `MsgPipe.Run`:
  `MessagePath.RunMetadataLeaks` is such a message. The republished bytes equal the stored ones exactly if the message has
  metadata or that context has none (`MessagePath.RepublishedUnchanged`). Servers and subscribers fill in their base
  context's metadata in the same way.
- **Formats.** A remote call equals a local one exactly if the client's encoder named a format, or the server's encoder has none of
  its own for the output, or the answer is an error (`Rpc.Transparency`); `Rpc.FormatsNeedNotMeet` is a call that differs.
- Code and comments disagree in two places; the model follows the code. `enc/pjenc/pjenc.go:49-50` says the encoder's own format
  comes before the requested one, the code (lines 54-57) lets the requested one win. `stanmsg/durconn.go:200` says a
  failed connect is retried immediately, the code (line 202) waits first.

## Model

The compositions come first, then the theorems of each part, then its code.

| member | source | states |
|---|---|---|
| EndToEnd.NoLoss | binlogmsg/binlogmsg.go:133-167 | over all restarts, reconnects, failures and panics, a message inserted after its durable queue came to exist is in its table, or held for the queue, or was handled with nil |
| EndToEnd.HandledWasInserted | stanmsg/durconn.go:374-413 | a handler is only called for an inserted message of its queue's subject |
| EarlierMessages.MayBeLostIffNotSecured | stanmsg/durconn.go:355-360 | some run loses an inserted message for a durable queue if and only if its deletion is due and the broker neither holds it for the queue nor has had it handled |
| EarlierMessages.EarlierMessageMayBeLost | stanmsg/durconn.go:355-360 | a run that loses a message for a queue that came to exist after the broker had stored it |
| Delivery.AlwaysDeliverable | binlogmsg/binlogmsg.go:24-26 | in every reachable state with nothing closed for good, each inserted message that is secured for its queue has been handled or can be |
| Delivery.LiveIsDeliverable | binlogmsg/binlogmsg.go:82-267 | from every reachable state with nothing closed for good, a message in its table can be republished by a new iteration and handled |
| Delivery.HeldIsDeliverable | stanmsg/durconn.go:374-413 | from every reachable state of an open subscriber, connected or not, a message held for a subscription can be handled and acknowledged |
| PipeInvariant.ReplayIsInsertedNotDeleted | binlogmsg/sqls.go:71-83 | in a log where ids are not reused, replaying it yields exactly the rows inserted and not deleted |
| PipeInvariant.KeepInv | binlogmsg/binlogmsg.go:93-267 | every step of every party keeps the invariant: token count, resource life cycle, hand-over, one place for each accepted entry, explained deletions |
| PipeInvariant.ReachableInv | binlogmsg/binlogmsg.go:82-91 | the invariant holds after any interleaving and any number of restarts |
| PipeTheorems.QuotaConservation | binlogmsg/binlogmsg.go:112-145 | tokens in ctrlCh are the entries in flight, queued and held; at most maxInflight are in flight; nothing panics |
| PipeTheorems.CallbackNeverPanics | binlogmsg/binlogmsg.go:133-143 | a callback that may run finds entryCh open with room, so its entry is queued and the "Unexpected branch" is unreachable |
| PipeTheorems.DeletedOnlyAfterAck | binlogmsg/binlogmsg.go:158-161 | over all runs and restarts, a deleted row had a callback with nil for that very row |
| PipeTheorems.InsertedIsLiveOrAcked | binlogmsg/binlogmsg.go:24-26 | an inserted row is in its table until downstream has called back nil for it |
| PipeTheorems.HandoverComplete | binlogmsg/binlogmsg.go:174-251 | when the binlog dump has consumed the log up to a position, every message row live there has been accepted |
| PipeTheorems.AcceptedOnce | binlogmsg/binlogmsg.go:174-251 | no row is accepted twice in an iteration, and only inserted message rows are |
| PipeTheorems.AcceptedInOrder | binlogmsg/binlogmsg.go:174-251 | the full dump accepts its snapshot's rows in the order listed, and the binlog dump the log's insertions in the order of the log, none left out |
| PipeTheorems.OrderlyShutdown | binlogmsg/binlogmsg.go:104-115 | once entryCh is closed no callback is owed; the database closes only after all entries are settled and all tokens are back; deletions find it open |
| PipeTheorems.CancelledExactly | binlogmsg/binlogmsg.go:109-165 | before the deferred calls the context of an iteration is cancelled by the pipe if and only if a publication failed; the goroutines are waited for only once it is cancelled |
| PipeTheorems.Settlement | binlogmsg/binlogmsg.go:151-168 | after an iteration each accepted row has exactly one outcome, and is in its table if and only if it was not gone before and its publication or DELETE failed |
| PipeTheorems.InternalStepsDecreaseWork | binlogmsg/binlogmsg.go:125-168 | every step the iteration's goroutines take by themselves strictly decreases a measure, in every phase |
| PipeTheorems.DeadlockFree | binlogmsg/binlogmsg.go:125-168 | a running iteration that is not caught up can take a step without a failing dump; the lemma returns the step |
| PipeTheorems.Drains | binlogmsg/binlogmsg.go:93-267 | from every reachable state the goroutines alone get to being caught up or to the end, in a bounded number of steps |
| PipeTheorems.CaughtUpTables | binlogmsg/binlogmsg.go:158-167 | caught up, a message row is in its table if and only if it was accepted, not gone before, and failed to be published or deleted |
| PipeStaleSnapshot.FailedRowMayBeGone | binlogmsg/binlogmsg.go:172-209 | a run whose second iteration accepts a row from a stale snapshot, fails to publish it, and leaves it out of its table all the same |
| DurInvariant.KeepInv | stanmsg/durconn.go:141-445 | every step keeps ownership, stale channels, the wait-group count, reconnecting, completeness and freshness |
| DurInvariant.ReachableInv | stanmsg/durconn.go:141-445 | the invariant holds after any interleaving |
| DurTheorems.SingleLiveConnection | stanmsg/durconn.go:157-227 | at most one connection is open, no stale channel is closed twice, and only after its connection was closed |
| DurTheorems.CloseLeavesNothing | stanmsg/durconn.go:424-445 | when Close has returned, every connection ever opened is closed with its stale channel, no worker lives, nothing is installed |
| DurTheorems.ClosedForever | stanmsg/durconn.go:160-164 | once closed, no connection is ever installed again, in any continuation |
| DurTheorems.ReconnectNotForgotten | stanmsg/durconn.go:187-204 | without a connection a connect task is alive; with a lost one a connect task has not reached its reset yet |
| DurTheorems.ResubscriptionComplete | stanmsg/durconn.go:210-230 | every known key is subscribed on the installed connection or on the list of its live worker |
| DurTheorems.DroppedWorkIsNeverNeeded | stanmsg/durconn.go:327-343 | a worker may drop its list only when its connection is never installed again |
| DurTheorems.NoDuplicateSubscription | stanmsg/durconn.go:286-325 | on each connection each (subject, queue) is subscribed successfully at most once |
| DurTheorems.QuietIsHealthy | stanmsg/durconn.go:24 | at rest and open, an unlost connection is installed, is the only open one, and carries every subscription |
| DurTheorems.Settles | stanmsg/durconn.go:149-350 | connect tasks and workers come to rest in a bounded number of steps |
| DurTheorems.Heals | stanmsg/durconn.go:24 | from every reachable open state, successful library calls alone lead to a healthy state with every subscription |
| DurTheorems.SubscriptionTakesHold | stanmsg/durconn.go:277-299 | from every open state, connected or not, a new subscription the library accepts is carried by the connection once the goroutines have come to rest |
| DurTheorems.CloseCanReturn | stanmsg/durconn.go:442-443 | from every state in which Close waits for the goroutines, they can finish |
| RoutedCall.DeliveredToOwnServiceOnly | natsrpc/server.go:139-143 | a formatted subject is delivered to its own service's subscription and to no other |
| RoutedCall.CallFindsLastRegistration | natsrpc/server.go:168-250 | addressed by subject, a call reaches the handler that the last effective registration left |
| RoutedCall.RoutedTransparency | natsrpc/server.go:120-297 | through subject, NATS, registry and server, a call equals calling the handler that the last effective registration left, if and only if the formats meet |
| Rpc.MsgHandler | natsrpc/server.go:202-304 | exactly one reply if and only if there is a response, it marshals and NATS takes it; otherwise none, and never two; a task that is not taken gets the complaint with the submission's error |
| Rpc.ServerRefusals | natsrpc/server.go:246-295 | each stage that refuses has its code: no method MethodNotFound, an undecodable request or input DecodeRequestError, an output of the wrong type or that cannot be encoded EncodeResponseError |
| Rpc.RefusalsReachTheCaller | natsrpc/client.go:143-147 | the caller sees these refusals with the server's code and name |
| Rpc.OutputOnlyIfAllSucceeded | natsrpc/server.go:246-297 | an output goes back only if lookup, decoding, handler, type check and encoding succeeded, as the handler's output in the requested format |
| Rpc.SilentOnlyOnPanic | natsrpc/server.go:236-297 | no response is made if and only if the handler was reached and panicked or returned neither output nor error |
| Rpc.CallHandler | natsrpc/client.go:72-156 | the client handler, through its out-pointers, computes the specified call |
| Rpc.UnsentCalls | natsrpc/client.go:88-119 | a call that is not sent fails with EncodeRequestError, or with the deadline error if its time is over |
| Rpc.SentCalls | natsrpc/client.go:106-156 | a call that is sent gives NATS's error, DecodeResponseError for a reply, format or output it cannot use, the output, or the reply's error |
| Rpc.RequestArrives | natsrpc/server.go:252-275 | the handler runs on the caller's input with the caller's time and metadata, or the server's own metadata if the caller has none |
| Rpc.HandlerTime | natsrpc/server.go:269-273 | the handler's time is the request's, none if that is zero, and already over if it exceeds an int64 |
| Rpc.Transparency | natsrpc/client.go:121-150 | a remote call gives the same output, error code and message, or error text as calling the handler, if and only if the formats meet |
| Rpc.FormatMismatchIff | natsrpc/client.go:123-130 | the client's format check fails on such a server's output if and only if no format was named and the server's encoder chose one |
| Rpc.FormatsNeedNotMeet | natsrpc/client.go:123-130 | a client, a server and a call for which the remote call differs from the local one |
| Resubscribe.SubscribeAll | stanmsg/durconn.go:310-350 | no index is retried after success; it returns exactly when all are subscribed or at the first look that finds the stale channel closed, with one look after each success and one in each wait; every other index is tried once in each pass |
| Resubscribe.Pass | stanmsg/durconn.go:314-333 | one pass keeps the marks faithful, tries each unmarked index once as the library answers, looks at the stale channel after each success, and counts the marks |
| Resubscribe.LoopRefinesWorker | stanmsg/durconn.go:310-350 | with any other steps between the loop's attempts, the worker's list is what has not succeeded; an attempt is possible exactly for those keys, the normal end exactly if there are none, and giving up exactly if the stale channel is closed |
| Resubscribe.OthersKeepWork | stanmsg/durconn.go:301-307 | no other goroutine touches a live worker's list |
| Resubscribe.SpawnedWork | stanmsg/durconn.go:223-230 | a new worker's list is the snapshot it was given |
| AsyncPublisher.ContractCounts | msg/async_publisher.go:10-13 | a publisher that keeps the contract calls back exactly once on nil and never on error |
| AsyncPublisher.NewMsgAsyncPublisherWithMWs | msg/async_publisher.go:54-60 | the result is the head of a chain in which each publisher is the next one wrapped by the middleware between them, down to the given publisher; and the right fold |
| AsyncPublisher.ChainIsFold | msg/async_publisher.go:54-60 | every such chain is the right fold, so no middleware is left out or applied twice |
| AsyncPublisher.FoldAppend | msg/async_publisher.go:54-60 | stacking distributes over concatenation of middleware lists |
| AsyncPublisher.StackKeepsContract | msg/async_publisher.go:54-60 | any list of contract-preserving middlewares keeps the contract |
| AsyncPublisher.TracingKeepsContract | tracing/msg/msg.go:75-135 | the tracing middleware preserves the contract, whatever the tracer does |
| AsyncPublisher.TracingPassesOn | tracing/msg/msg.go:80-133 | the traced publisher gets the same subject and message with the injected metadata and the caller's callback, after which the span is finished; a failing tracer's error is returned and nothing called |
| AsyncPublisher.DurConnKeepsContract | stanmsg/durconn.go:234-275 | the DurConn publisher keeps the contract if the streaming library does |
| AsyncPublisher.DurConnForwards | stanmsg/durconn.go:234-275 | the encoded message goes to the installed connection with the caller's callback, or the error tells why not and nothing is called |
| AsyncPublisher.Publish | msg/async_publisher.go:28-46 | the channel is closed at most once; the error is the one returned at once, or the callback's, or the context's if that ended |
| AsyncPublisher.FlushCallsBackOnce | binlogmsg/binlogmsg.go:287-295 | a flushed entry gets exactly one callback: downstream's if it returns nil, or else the error it returned at once |
| Encoding.RequestedFormatHonoured | enc/rawenc/rawenc.go:52-70 | any nesting of raw encoders over a pb/json encoder returns a requested format exactly |
| Encoding.UnrequestedFormatIsNative | enc/pjenc/pjenc.go:51-99 | without a request the format is the data's own or the encoder's |
| Encoding.EncodedByItsLibrary | enc/pjenc/pjenc.go:51-99 | for any nesting, encoding succeeds with these bytes and this format if and only if there is an innermost encoder, the format is the requested one or its own, and the library of that format makes these bytes of the data |
| Encoding.DecodedByItsLibrary | enc/pjenc/pjenc.go:104-127 | for any nesting, decoding succeeds with this data if and only if there is an innermost decoder and the library of the format makes it of the bytes |
| Encoding.EncodeDecode | enc/pjenc/pjenc.go:104-127 | decoding into a target of the same type undoes encoding, for any nesting on either side; for data that is not raw, if and only if the decoder has a pb/json decoder inside |
| Encoding.RawBypass | enc/rawenc/rawenc.go:35-87 | raw data is read and written unchanged, and refused if another format is requested |
| Encoding.EncodeData | enc/rawenc/rawenc.go:52-70 | on success both targets are written, on an error neither |
| MessagePath.RepublishedUnchanged | binlogmsg/binlogmsg.go:269-292 | the pipe republishes the stored bytes if and only if the message has metadata or Run's context has none |
| MessagePath.MessageArrives | stanmsg/durconn.go:387-404 | a subscriber's handler gets the message that was stored through encoder, table, pipe, broker and decoder, with its metadata, if and only if the decoder suits the encoder |
| MessagePath.PackedMessage | stanmsg/durconn.go:236-252 | what is published is the marshalled message with the caller's metadata; it fails if and only if the type is wrong, or encoding or marshalling fails |
| MessagePath.ReceivedMessage | stanmsg/durconn.go:387-404 | a handler is called exactly for what unmarshals and decodes, with the message's metadata or else the subscriber's own |
| MessagePath.MsgHandler | stanmsg/durconn.go:370-421 | a message is acknowledged if and only if the task was taken, the message decoded, and the handler returned nil |
| MessagePath.RunMetadataLeaks | binlogmsg/binlogmsg.go:276-283 | a message stored without metadata that is republished as other bytes, because the context given to Run has some |
| Registry.ServiceKnown | natsrpc/server.go:129-161 | a service is subscribed if and only if some call for it took effect |
| Registry.LookupIsWinner | natsrpc/server.go:120-166 | after any history, lookup gives what the last effective registration of that name left |
| Registry.ServerConn.RegistHandler | natsrpc/server.go:120-166 | the registry changes as specified; which error occurs when; the two tables keep equal keys, NATS has exactly the services' subscriptions, and a method map is never replaced |
| Registry.ServerConn.SubscribeService | natsrpc/server.go:137-157 | a subscription is kept only if subscribing and flushing succeed |
| Registry.ServerConn.Close | natsrpc/server.go:99-118 | only the first Close succeeds; it ends every subscription, and what was registered stays |
| Subjects.ParserInvertsFormatter | natsrpc/utils.go:8-20 | the parser accepts exactly the formatter's subjects and returns the method name |
| Subjects.OneServicePerSubject | natsrpc/utils.go:12-20 | with dot-free names a subject belongs to at most one prefix, service and method |
| Subjects.DeliveredIsParsed | natsrpc/server.go:174-178 | what NATS delivers on a service's wildcard subscription is accepted by its parser, so the panic is unreachable |
| MetaData.Keys | pb/md/md.go:26-36 | every key is handed out once |
| MetaData.KeysAndValues | tracing/md.go:29-60 | tracing adds its key, in place of one of that name, and leaves all other keys and values as they are |
| MetaData.NewMetaData | pb/md/md.go:11-23 | the converted metadata has the same keys and value lists, for every implementation of the interface |
| MsgEntry.EntryCarriesRowAndResult | binlogmsg/entry.go:21-64 | an entry carries its table's name and its columns unchanged past the bookkeeping fields, and its result is read back as recorded if and only if it is not the placeholder |
| MsgPipeCode.MsgPipe.SendResult | binlogmsg/binlogmsg.go:133-141 | the callback appends exactly its entry to entryCh and never reaches the panic |
| MsgPipeCode.MsgPipe.ProcessEntry | binlogmsg/binlogmsg.go:159-165 | a published row's DELETE is issued and removes the row if it succeeds, its error is dropped; a failed publication deletes nothing and cancels the context |
| MsgPipeCode.MsgPipe.Flush | binlogmsg/binlogmsg.go:125-145 | a refused flush changes nothing of the producer's and happens only when the caller is done or a publication failed; otherwise exactly this row is accepted, and called back for as downstream answers |
| MsgPipeCode.MsgPipe.AwaitQuota | binlogmsg/binlogmsg.go:126-130 | waiting for quota ends, because the other goroutines move while it lasts |
| MsgPipeCode.MsgPipe.FlushMsgEntry | binlogmsg/binlogmsg.go:269-301 | with everybody else moving meanwhile, the pipe makes exactly these callbacks: a synchronous downstream's result, the error an asynchronous one returns at once, and none if it returns nil |
| MsgPipeCode.MsgPipe.FullDumpRows | binlogmsg/binlogmsg.go:180-208 | the listing is flushed in order, as far as the queries succeed, the caller is not done and no publication fails, and else to its end |
| MsgPipeCode.MsgPipe.Snapshot | binlogmsg/binlogmsg.go:174-184 | the listing has every message row of the snapshot exactly once |
| MsgPipeCode.MsgPipe.HandleEvent | binlogmsg/binlogmsg.go:226-251 | an event is passed by one position, and its row accepted if it inserts a message |
| MsgPipeCode.MsgPipe.IncrDumpEvents | binlogmsg/binlogmsg.go:226-251 | the message rows of the log are accepted in order from the snapshot's position, as far as the dump delivers, the log goes, the caller is not done and no publication fails |
| MsgPipeCode.MsgPipe.AwaitCallbacks | binlogmsg/binlogmsg.go:211-219 | waiting for callbacks ends; after a good full dump the binlog dump starts at the snapshot's position, otherwise the deferred calls run |
| MsgPipeCode.MsgPipe.RunDeferred | binlogmsg/binlogmsg.go:104-115 | the deferred calls, in their order, end the iteration |
| MsgPipeCode.MsgPipe.RunOnce | binlogmsg/binlogmsg.go:93-267 | without a database nothing happens; otherwise one iteration accepts the snapshot's rows and then the log's, stops early only for a reason, and ends with everything settled, all tokens back and exactly the rows in the tables that the settlement theorem says |
| MsgPipeCode.MsgPipe.Run | binlogmsg/binlogmsg.go:82-91 | over any number of rounds it runs one iteration in each that can open the database, returns only when the caller's context is done, and every deletion was preceded by a nil callback |
| MsgPipeCode.MsgPipe.CallBack | binlogmsg/binlogmsg.go:133-143 | a callback, preempted between its send and its Done, is made once for this row and result, and leaves the producer alone |
| DurConnCode.DurConn.SubscribeOne | stanmsg/durconn.go:277-299 | exactly which error occurs when; without a connection the subscription is stored, with one the library is asked first; on success exactly this key is added and, if connected, subscribed; on an error nothing changes |
| DurConnCode.DurConn.PublishAsync | stanmsg/durconn.go:234-275 | a message is forwarded if and only if it was encoded and a connection is installed, and then to the one open connection; otherwise which error |
| DurConnCode.DurConn.Connect | stanmsg/durconn.go:149-232 | a connect task from lock to unlock under interference: unless closed, the old connection is gone for good; if the library connects, the new connection's worker has every subscription on its list, or it is gone too because the DurConn was closed; if not, another connect task waits |
| DurConnCode.DurConn.InstallRegion | stanmsg/durconn.go:209-227 | the new connection is installed together with a snapshot of all subscriptions, or nothing is if closed |
| DurConnCode.DurConn.CloseRegion | stanmsg/durconn.go:425-435 | only the first caller takes the connection out; later callers change nothing |
| DurConnCode.DurConn.Close | stanmsg/durconn.go:424-445 | after the first Close no worker is left and every connection and stale channel ever opened is closed |

## Left out

- MsgPipeCode.MsgPipe.Run: the loop is followed for a given number of rounds, because the retry timer never forces it to end.
- MsgPipeCode.MsgPipe.FullDumpRows: the loop over tables and the loop over a table's rows are one loop over the listing.
- Resubscribe.SubscribeAll: the loop is watched for a given number of passes, because a failing library lets it go on forever.
- DurConnCode.DurConn.Close: waiting for the goroutines ends in the way CloseCanReturn finds, after arbitrary interference before it.
- Rpc.Transparency: time spent between reading the deadline and sending is not modelled; the reply arrives before the deadline.
- GTID sets and the transaction variables of `run`, which only go into log lines.
- MySQL itself, replication, and the SQL text; a table is a set of rows, the binlog an append-only sequence; only the pipe deletes rows.
- Rows with an invalid subject or malformed data, on which `flushMsgEntry` panics.
- Protobuf and JSON byte encodings; marshalling is a partial function that unmarshalling undoes.
- The streaming client library, beyond connecting, loss reports, subscribing and publish acknowledgements.
- Go's rules on reusing a wait group while it is waited on, data races, and callbacks that call Subscribe or Close again.
- Clocks, loggers, options, and the spans' own life cycle.
- The value printed by `%+v` and the quoting by `%q` in error texts.
- Wrapping a nil handler in middlewares (`rpc/server.go`), spec construction and name expressions, the stub generator and the examples.
