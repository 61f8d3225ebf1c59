# Rockets, verified

Rockets serves HTTP, WebSocket and JSON-RPC 2.0 on top of libwebsockets. This project models its state
machines and algorithms in Dafny and proves what they keep over whole runs. Each component has a
specification on values (functions and a step relation), theorems about it, and, where the C++,
TypeScript or Python code changes state in place, classes whose methods are proved to have exactly the
effect of the specification.

| file | component | main results |
|---|---|---|
| `CancellableProtocol.dfy`, `CancellableReceiver.dfy` | the pending-request table of a cancellable receiver, all interleavings | the right to reply exists exactly once; exact conditions for its two assumptions |
| `BroadcastWakeUp.dfy`, `ServiceThreadPool.dfy` | broadcast flags, service threads, connections mutex | no wake-up is lost; delivery stays possible from every reachable state |
| `JsonRpcMessages.dfy`, `RequestProcessor.dfy`, `BatchRefinement.dfy`, `JsonRpcStandard.dfy`, `ReceiverLayers.dfy`, `Requester.dfy`, `EndToEnd.dfy` | JSON-RPC 2.0, server and client | round trip of responses and of whole calls; a batch is a map-filter; when answers are those of the standard; exactly-once callbacks; dispatch to the most derived layer |
| `HttpRegistry.dfy`, `HttpRouting.dfy`, `HttpConnection.dfy` | endpoint registry, routing, response machine | first match is longest match; 405/404 soundness; no `logic_error` in any disciplined run |
| `WsStreams.dfy`, `WsServer.dfy`, `MessageHandler.dfy` | WebSocket queues, fan-out, reassembly | every client's stream is its inbox; fragments are reassembled, and exactly when not |
| `PollDescriptors.dfy` | poll descriptors and the Qt listener | the mirror never throws; when it is exact |
| `ProgressAggregate.dfy` | batch progress in the two client libraries | array and dictionary compute one mean |
| `Wrappers.dfy`, `Json.dfy` | Option; JSON values and the text codec | |

## Assumptions

- The JSON text parser and printer are a pair of functions of which three things are assumed
  (`Codec.Lawful`): parsing undoes printing of every value the library can hold (64-bit integers, doubles
  and what is built of them), it yields no other values, and the empty text is no JSON.
- Cancellable receiver: the application calls each done closure it was given at most once. That a new
  request does not have the id of a live one, and that a cancel function is installed while there is an
  entry under its id, is assumed step by step (`Disciplined`), and both are proved to be exactly what is
  needed (`ArrivalIsSafeIffNoLiveRequest`, `InstallIsSafeIffPending`). A request is alive while its action
  may still call the response callback or its entry is in the table, not about to be cancelled: an action that replies once lets go
  of the callback then (`Retire`), one that keeps it has its request alive for ever. A request without an
  id has the null id, so of these too only one may be alive.
- Broadcast: a connection is opened, closed, written and read only by the service thread that owns it, and
  libwebsockets calls that thread for a connection that is marked writable. Synchronous message callbacks
  enqueue responses while the connections mutex is held; the replies of asynchronous ones are enqueued
  without it, at any time, and ask for a write in a second step.
- Requester and processor: callbacks do not re-enter, and a handler answers before it returns.
- HTTP: the branches for libwebsockets 3.1 and later; the method is not `ALL`; the returned future is
  valid; the completion of a body comes at most once, and a writable callback only when one was requested.
  Body data may come at any time and for any request.
- Progress amounts are real numbers.

## What the code does differently from what it says

- `cancellableReceiverImpl.h:100-117` explains the `try_lock` by a cancel at the same time. It fails for
  every holder of the mutex: a reply that comes while another request registers, or is replied to, is
  dropped, and only another reply or a cancel can answer the request then (`ReplyIsHeardIffMutexIsFree`,
  `DroppedReplyIsNeverSent`, `RegistrationOfAnotherDropsReply`).
- `cancellableReceiverImpl.h:150` creates the entry again when the action replied, or a cancel erased the
  temporary entry, before the action returned its cancel function (`LateInstallIsReachable`). The entry
  has an empty respond function, which a cancel calls, and the action's next reply passes
  (`InstallIsSafeIffPending`).
- The same line overwrites the entry of another request that has taken over the id meanwhile: a cancel
  of that one then calls this one's cancel function (`StepKeepsOwnCancels`, `InstallsForAnother`).
- The table is keyed by the request id alone, so two clients with live requests of the same id share an
  entry (`ArrivalIsSafeIffNoLiveRequest`); and every `Requester` counts its ids from 0
  (`TwoClientsClash`).
- A handler error whose data is no JSON makes `makeErrorResponse` throw (`utils.h:49`). `process` turns
  this into a Parse error with null id, which no requester accepts: the call stays pending
  (`ServerAnswers`). In a batch the responses of all other entries are lost with it, and the entries
  after it are not run (`BatchStopsAtFirstFailure`).
- A `jsonrpc` member that is no string makes `get<std::string>` throw a type error, which leaves
  `process` (`requestProcessor.cpp:47,80`; `EntryReply`); the same on the client (`requester.cpp:65`;
  `ForeignTextChangesNothing`).
- The processor departs from sections 4 to 6 of the JSON-RPC 2.0 specification, and `AnswerIsStandardIff`
  says exactly when: an empty array (answered with nothing) and a scalar (Invalid params) should be Invalid
  Request; a request with a null id is not answered, valid or not, and neither is an invalid one without
  an id; an invalid request whose id is an object, array or boolean gets it back instead of null; a
  version that is no string throws; a cancel with an id is not answered; error data that is no JSON loses
  the answer.
- `Requester::request` documents the id of the request as its result; when the params are no JSON it is the
  id of the request before it, or `SIZE_MAX` (`MakeRequest`).
- The comment at `registry.cpp:90` wants "/" to get all unhandled requests. It gets those no other endpoint
  is a prefix of: a registered "a" takes "ab" away from it, and from a shorter directory, and the
  request is refused (`HandlerIsCalledIff`, `RootIsPassedOver`).
- A POST, PUT or PATCH without a length is handled at once, with an empty body; what is sent after that is
  stored but reaches no handler (`HandlerSawBodyIff`, `BodyWithoutLengthIsMissed`).
- One reassembly buffer serves all connections: messages come out right exactly when no client finishes
  one while another client's unfinished message holds data (`ReassemblyIsPerClientIff`,
  `ReassemblyIsPerClientForAllIff`).
- Responses of the open and close callbacks keep an unspecified format, and are then not sent
  (`messageHandler.cpp:80-107`; only `handleMessage` fills the format in; `ResponseIsEnqueuedIff`).
- A listener that is attached again keeps watching the sockets it did not see removed, and connects the
  signals of the others twice (`MirrorIsExactIff`, `AttachIsExactIff`).
- A batch whose requests share an id never reaches full progress (`MeanIsOneIff`).

## Model

| member | source | states |
|---|---|---|
| CancellableProtocol.ReplyRightIsConserved | rockets/jsonrpc/cancellableReceiverImpl.h:90-180 | in every interleaving of registration, reply, installation and cancel, each request's right to reply exists exactly once, so it is answered at most once, and no empty function is called |
| CancellableProtocol.RunKeepsInv | rockets/jsonrpc/cancellableReceiverImpl.h:90-180 | the same from any state of the invariant: table, mutex and rights stay sound over every run |
| CancellableProtocol.StepKeepsInv | rockets/jsonrpc/cancellableReceiverImpl.h:90-180 | every atomic step of every thread keeps the invariant |
| CancellableProtocol.StepMovesRights | rockets/jsonrpc/cancellableReceiverImpl.h:90-180 | a step neither adds nor removes a right; only an arrival creates one |
| CancellableProtocol.StepKeepsTable | rockets/jsonrpc/cancellableReceiverImpl.h:92-98 | live requests have distinct ids, the mutex's holder is where it says it is, and entries are those of started requests under their own id |
| CancellableProtocol.StepKeepsLive | rockets/jsonrpc/cancellableReceiverImpl.h:90-180 | no step but an arrival brings a request to life |
| CancellableProtocol.CancellationMovesRights | rockets/jsonrpc/cancellableReceiverImpl.h:163-179 | the steps of a cancel keep the number of rights |
| CancellableProtocol.CancelTakesRight | rockets/jsonrpc/cancellableReceiverImpl.h:172-177 | a cancel that finds an entry takes its owner's right out of the table, into a done closure or, through the temporary entry, into an answer sent at once |
| CancellableProtocol.ReplyMovesRights | rockets/jsonrpc/cancellableReceiverImpl.h:102-117 | the steps of a reply keep the number of rights |
| CancellableProtocol.ReplyTakesRight | rockets/jsonrpc/cancellableReceiverImpl.h:111-116 | a reply that erases an entry erases its own and has the answer under way; one that finds none changes nothing |
| CancellableProtocol.InstallIsSafeIffPending | rockets/jsonrpc/cancellableReceiverImpl.h:147-151 | installing a cancel function keeps all rights in every continuation if and only if there is still an entry under the id; for an action that kept its callback, at most one answer if and only if |
| CancellableProtocol.LateInstallIsReachable | rockets/jsonrpc/cancellableReceiverImpl.h:147-151 | the failing case is reached from the start: the action replies, or is cancelled, before it returns |
| CancellableProtocol.InstallingLateBreaks | rockets/jsonrpc/cancellableReceiverImpl.h:147-151 | after a late installation a continuation breaks conservation |
| CancellableProtocol.InstallingLateCallsNothing | rockets/jsonrpc/cancellableReceiverImpl.h:147-151 | a cancel of the entry created by operator[] hands out a closure that calls an empty function |
| CancellableProtocol.InstallingLateAnswersTwice | rockets/jsonrpc/cancellableReceiverImpl.h:147-151 | after a late installation there is a continuation that answers the request twice |
| CancellableProtocol.SpendAll | rockets/jsonrpc/cancellableReceiverImpl.h:134-144 | all answers under way can be sent, each counting once |
| CancellableProtocol.ArrivalIsSafeIffNoLiveRequest | rockets/jsonrpc/cancellableReceiverImpl.h:93-98 | whoever holds the mutex, a new request keeps all rights in every continuation if and only if no live request has its id, or a late installation has stopped the receiver already |
| CancellableProtocol.ArrivalIsSafeIffIdIsNew | rockets/jsonrpc/cancellableReceiverImpl.h:93-98 | while all actions keep their callbacks: if and only if its id was not used before |
| CancellableProtocol.TwoClientsClash | rockets/jsonrpc/requester.cpp:90 | the failing case from the start: two clients that both count from 0 |
| CancellableProtocol.ReusedIdBreaks | rockets/jsonrpc/cancellableReceiverImpl.h:93-98 | registering under the id of a live request breaks conservation in a continuation |
| CancellableProtocol.OverwritingLosesRight | rockets/jsonrpc/cancellableReceiverImpl.h:93-98 | the earlier request's entry, and with it its right, is gone |
| CancellableProtocol.SharedIdLetsReplyPass | rockets/jsonrpc/cancellableReceiverImpl.h:102-117 | a reply of the earlier request passes in the new one's place |
| CancellableProtocol.DroppedReplyIsNeverSent | rockets/jsonrpc/cancellableReceiverImpl.h:106-109 | a reply that meets a locked mutex is gone: without another reply or a cancel of this id no run answers the request, which stays in the table |
| CancellableProtocol.ReplyIsHeardIffMutexIsFree | rockets/jsonrpc/cancellableReceiverImpl.h:106-116 | a reply can be answered without another reply or a cancel of this id if and only if it finds the mutex free |
| CancellableProtocol.RegistrationOfAnotherDropsReply | rockets/jsonrpc/cancellableReceiverImpl.h:92-117 | the registration of any other request is enough for that |
| CancellableProtocol.DroppedReplyIsReachable | rockets/jsonrpc/cancellableReceiverImpl.h:92-117 | two requests of different ids reach such a state from the start |
| CancellableProtocol.StepKeepsOwnCancels | rockets/jsonrpc/cancellableReceiverImpl.h:147-151 | a cancel calls the cancel function of the request it answers, as long as, and exactly as long as, every function is installed while its own request's entry is in the table |
| CancellableProtocol.InstallsForAnother | rockets/jsonrpc/cancellableReceiverImpl.h:147-151 | the failing case from the start: the id was taken over before the cancel function is installed |
| CancellableProtocol.SentByStep | rockets/jsonrpc/cancellableReceiverImpl.h:133-145 | a reply that passed sends the result, a done closure and the temporary cancel function send Request aborted, and no other step sends anything |
| CancellableProtocol.AnswersHaveTheirCause | rockets/jsonrpc/cancellableReceiverImpl.h:90-180 | over every run a request is answered with its result only if its action replied, and with Request aborted only if a cancel named its id |
| CancellableProtocol.ReturnedInstallsNothing | rockets/jsonrpc/cancellableReceiverImpl.h:147-151 | an action that has returned installs no cancel function any more |
| CancellableReceiver.PendingRequests.Register | rockets/jsonrpc/cancellableReceiverImpl.h:90-98 | the temporary entry: the protocol's arrival and registration steps |
| CancellableReceiver.PendingRequests.SkipResponse | rockets/jsonrpc/cancellableReceiverImpl.h:102-117 | true exactly when the mutex is taken or the entry is gone; otherwise the entry is erased |
| CancellableReceiver.PendingRequests.ReplyCallback | rockets/jsonrpc/cancellableReceiverImpl.h:133-145 | a result is sent exactly when the reply was not skipped |
| CancellableReceiver.PendingRequests.InstallCancel | rockets/jsonrpc/cancellableReceiverImpl.h:147-151 | the protocol's installation step, with the entry that operator[] creates |
| CancellableReceiver.PendingRequests.CallCancelFunction | rockets/jsonrpc/cancellableReceiverImpl.h:174-177 | the temporary entry answers Request aborted at once, the application's function gets a done closure |
| CancellableReceiver.CancelNowCancels | rockets/jsonrpc/cancellableReceiverImpl.h:165-179 | a cancel takes the named entry out of the table, and either answers Request aborted at once or gives the installed function a done closure with the right; an unknown id changes nothing |
| CancellableReceiver.CancelNowKeepsRights | rockets/jsonrpc/cancellableReceiverImpl.h:163-179 | a cancel keeps the invariant and every request's rights |
| CancellableReceiver.PendingRequests.CancelRequest | rockets/jsonrpc/cancellableReceiverImpl.h:163-179 | both of these, of the locked part of a cancel |
| CancellableReceiver.PendingRequests.ProcessCancel | rockets/jsonrpc/cancellableReceiverImpl.h:154-180 | a call with an id, with params that are no JSON, or that name no id changes nothing; every other call cancels the named request |
| CancellableReceiver.PendingRequests.ReleaseCallback | rockets/jsonrpc/cancellableReceiverImpl.h:134-145 | the action lets go of its response callback: the protocol's retirement |
| BroadcastWakeUp.WakeUpIsNeverLost | rockets/serviceThreadPool.cpp:59-82 | in every reachable state of any number of threads, a connection with queued messages has its owner's flag set, is marked, is being written, or the mutex holder or an asynchronous sender still has to flag or mark it |
| BroadcastWakeUp.QuietMeansDelivered | rockets/server.cpp:202-241 | when nothing is flagged, marked or running, every queue is empty |
| BroadcastWakeUp.DeliveryIsAlwaysPossible | rockets/server.cpp:100-104 | from every reachable state the queue can be written to the end by steps of the mutex holder, the connection's own thread and its own senders alone: what they write is the queue, and what was enqueued meanwhile, in order |
| BroadcastWakeUp.StepMovesQueue | rockets/ws/connection.cpp:45-79 | each step enqueues its message behind the others, or writes the oldest, or leaves the queue as it is |
| BroadcastWakeUp.RunMovesQueue | rockets/ws/connection.cpp:45-79 | over every run, what was written followed by the queue is the first queue followed by what was enqueued, in order |
| BroadcastWakeUp.BroadcastRound | rockets/server.cpp:202-208 | an uninterrupted broadcast gives every target the message, and the flags come next |
| BroadcastWakeUp.ReceiveRound | rockets/ws/connection.cpp:33-37 | the answer of a synchronous callback is enqueued and its connection marked |
| BroadcastWakeUp.AsyncRound | rockets/ws/messageHandler.cpp:60-67 | so is that of an asynchronous one, whoever holds the mutex |
| BroadcastWakeUp.WriteRound | rockets/ws/connection.cpp:45-52 | an uninterrupted handleWrite writes some messages, keeps the rest and asks again for it |
| BroadcastWakeUp.CloseForgets | rockets/server.cpp:87-92 | a closed connection is forgotten, the others stay |
| BroadcastWakeUp.QueueFills | rockets/server.cpp:202-208 | from a start, a connection that opens can have a message in its queue |
| BroadcastWakeUp.NextServes | rockets/server.cpp:100-104 | each of these steps is one of theirs |
| BroadcastWakeUp.StepKeepsInv | rockets/serviceThreadPool.cpp:65-72 | clearing the flag after acting on it strands no message; no other step does either |
| BroadcastWakeUp.FlagCycleKeepsCover | rockets/serviceThreadPool.cpp:65-72 | the steps of handleBroadcastRequest leave every non-empty queue covered |
| BroadcastWakeUp.WriteCycleKeepsCover | rockets/ws/connection.cpp:45-52 | so do those of writeMessages, which asks again when a message is left |
| BroadcastWakeUp.OthersKeepCover | rockets/ws/messageHandler.cpp:58-67 | so do broadcasting, receiving, asynchronous replies, opening and closing |
| BroadcastWakeUp.CheckRound | rockets/serviceThreadPool.cpp:65-72 | handleBroadcastRequest as a whole marks every connection and clears the flag, or does nothing |
| BroadcastWakeUp.FlagRound | rockets/serviceThreadPool.cpp:59-63 | requestBroadcast as a whole sets every flag |
| ServiceThreadPool.ServiceThreadPool.RequestBroadcast | rockets/serviceThreadPool.cpp:59-63 | all flags set: the flagging steps of every state of BroadcastWakeUp that the pool shows |
| ServiceThreadPool.ServiceThreadPool.HandleBroadcastRequest | rockets/serviceThreadPool.cpp:65-72 | marks all connections if flagged and leaves the flag clear: the checking steps of this thread, from every state the pool shows |
| JsonRpcMessages.ResponseRoundTrip | rockets/jsonrpc/utils.h:39-83 | every handler response can be encoded exactly when its error data is empty or JSON, and then is accepted and decoded under its id with the same meaning; a result that is no JSON arrives as Internal error |
| JsonRpcMessages.ErrorRoundTrip | rockets/jsonrpc/requester.cpp:50-83 | same code, message and data for an error |
| JsonRpcMessages.ResultRoundTrip | rockets/jsonrpc/requester.cpp:62-83 | same JSON for a result |
| JsonRpcMessages.ResponseIsValidIff | rockets/jsonrpc/requester.cpp:50-70 | exactly which JSON a requester accepts as a response |
| JsonRpcMessages.LowBitsAreKept | rockets/jsonrpc/requester.cpp:79 | an error code keeps its low 32 bits |
| JsonRpcMessages.ResponseIsRepresentable | rockets/jsonrpc/utils.h:79-83 | what is sent is a value the library can print and read back |
| EndToEnd.CallReturnsToItsCallback | rockets/jsonrpc/requester.cpp:117-154 | a whole exchange fires exactly the caller's callback with what the handler (or the processor) said, or leaves the request pending exactly when nothing is told |
| EndToEnd.ServerAnswers | rockets/jsonrpc/requestProcessor.cpp:62-84 | the text a request is answered with decodes to what the caller is to be told, or is one that every requester ignores |
| EndToEnd.RequestIsUnderstood | rockets/jsonrpc/requester.cpp:37-48 | the processor reads the method, id and params the requester wrote; it finds the request well-formed exactly for absent, object or array params |
| EndToEnd.NullIdIsForeign | rockets/jsonrpc/requester.cpp:143-145 | the answer to a parse error changes no requester |
| RequestProcessor.Processor.ProcessCommand | rockets/jsonrpc/requestProcessor.cpp:130-159 | response, handler call and thrown error of one command |
| RequestProcessor.Processor.ProcessValidBatch | rockets/jsonrpc/requestProcessor.cpp:100-116 | the loop computes the recursive batch, null for no response |
| RequestProcessor.Processor.Process | rockets/jsonrpc/requestProcessor.cpp:62-98 | the text interface, with what its try block catches |
| BatchRefinement.BatchIsMapFilter | rockets/jsonrpc/requestProcessor.cpp:100-116 | a batch succeeds exactly when every entry does on its own; its output is their map-filter in order, and the handlers ran once each, in order |
| BatchRefinement.BatchStopsAtFirstFailure | rockets/jsonrpc/requestProcessor.cpp:80-83 | an entry that throws ends the batch, with no response left and no later handler run |
| BatchRefinement.EntryReply | rockets/jsonrpc/requestProcessor.cpp:130-159 | when an entry throws, when it is answered at all, and with which id, version and error code |
| BatchRefinement.MapFilterIds | rockets/jsonrpc/requestProcessor.cpp:103-115 | one response per entry that asks for one, with its id; null for an entry that is no object |
| BatchRefinement.BatchText | rockets/jsonrpc/requestProcessor.cpp:92-98 | the text is the printed map-filter, one response per entry that asks, with its id; it is empty exactly when no entry asks |
| JsonRpcStandard.AnswerIsStandardIff | rockets/jsonrpc/requestProcessor.cpp:44-159 | for every text and handler, the answer is the one sections 4 to 6 of the JSON-RPC 2.0 specification ask for if and only if the text is no JSON, or no scalar, no empty array and every request in it passes the guards that keep to the standard |
| JsonRpcStandard.ObjectAnswerIff | rockets/jsonrpc/requestProcessor.cpp:130-159 | the same for a single request |
| JsonRpcStandard.BatchAnswerIff | rockets/jsonrpc/requestProcessor.cpp:92-116 | the same for a batch, whose responses the standard allows in any order |
| JsonRpcStandard.ScalarAnswerIsNot | rockets/jsonrpc/requestProcessor.cpp:77-78 | a scalar is answered with -32602 under null id, where the standard asks for -32600 |
| JsonRpcStandard.ServedReplyIsProper | rockets/jsonrpc/requestProcessor.cpp:130-159 | a request that passes the guards gets a proper reply, a notification none |
| JsonRpcStandard.UnservedReplyIsNot | rockets/jsonrpc/requestProcessor.cpp:134-143 | any other gets nothing though it asks, or a reply under an id that is none |
| ReceiverLayers.DispatchReachesMostDerived | rockets/jsonrpc/cancellableReceiverImpl.h:50-88 | after every registration history a registered method runs the action last registered in the most derived layer, never an empty one; only `cancel` of a cancellable receiver is intercepted, and hides no handler |
| ReceiverLayers.MapsHoldLatest | rockets/jsonrpc/receiverImpl.h:32-41 | each layer's map holds the latest registration of every valid name, and no reserved one |
| ReceiverLayers.ReservedNamesAreRefused | rockets/jsonrpc/requestProcessor.cpp:86-90 | names beginning with rpc., and in a cancellable receiver with cancel or progress, are never stored; every other name is |
| ReceiverLayers.Receiver.RegisterMethod | rockets/jsonrpc/asyncReceiverImpl.h:32-37 | refused exactly for reserved names; otherwise the layer's map gets the action |
| ReceiverLayers.Receiver.Process | rockets/jsonrpc/receiverImpl.h:43-51 | the layer that runs; operator[] inserts an empty callback exactly for a method nobody registered |
| Requester.EveryCallbackFiresOnce | rockets/jsonrpc/requester.cpp:98-154 | over every sequence of requests and incoming texts, then destruction, the fired callbacks are the issued ones, each as often as issued |
| Requester.RunPartitionsCallbacks | rockets/jsonrpc/requester.cpp:117-154 | at every point fired and pending callbacks partition the issued ones, and pending ids are distinct and below lastId |
| Requester.ResponseFiresItsCallback | rockets/jsonrpc/requester.cpp:147-153 | a response fires the callback of its own request with its own content; the same response again fires nothing |
| Requester.ForeignTextChangesNothing | rockets/jsonrpc/requester.cpp:62-70 | a text throws if and only if it is an object whose version is no string; a text that throws or answers no pending request changes nothing |
| Requester.Requester.MakeRequest | rockets/jsonrpc/requester.cpp:117-135 | the new state, and which id is returned when the params are no JSON |
| Requester.Requester.ProcessResponse | rockets/jsonrpc/requester.cpp:137-154 | result, fired callback and remaining requests |
| Requester.DestroyTellsAborted | rockets/jsonrpc/requester.cpp:33-35 | after destruction every pending callback has fired with code -31002 and its message, in id order, and nothing is pending |
| Requester.Requester.Destruct | rockets/jsonrpc/requester.cpp:98-102 | the same of the destructor's loop |
| HttpRegistry.FirstMatchIsLongest | rockets/http/registry.cpp:96-104 | in a map ordered from the greatest endpoint down the first match is the longest registered endpoint that matches |
| HttpRegistry.LongestMatchIsUnique | rockets/http/registry.h:60-63 | there is only one longest match |
| HttpRegistry.TableHoldsCurrent | rockets/http/registry.cpp:32-49 | after every history of adds and removes the maps are ordered and hold, per method and path, the first add since the last remove |
| HttpRegistry.StepIsOrdered | rockets/http/registry.cpp:32-49 | one add or remove: the order is kept, and only the named method and path change |
| HttpRegistry.SplitUndoesJoin | rockets/http/registry.cpp:64-80 | a comma-joined list of words splits back into the words |
| HttpRegistry.AllowedNames | rockets/http/registry.cpp:64-80 | a method is named exactly when it is registered for the path |
| HttpRegistry.AllMethodsAreAllowed | rockets/http/registry.cpp:64-80 | the six names, in their order, of a path that has all methods |
| HttpRegistry.ListsOneMore | rockets/http/registry.cpp:114-128 | one of the loops of toJson adds one method to exactly the paths it is registered for |
| HttpRegistry.ListsAll | rockets/http/registry.cpp:114-130 | after six of them every registered path is listed with its Allow methods, in that order |
| HttpRegistry.ListsTheRegistry | rockets/http/registry.cpp:114-130 | the result is determined by the table alone |
| HttpRegistry.Registry.AddEndpoint | rockets/http/registry.cpp:32-40 | a taken method and path is refused; else it is inserted in order |
| HttpRegistry.Registry.RemoveEndpoint | rockets/http/registry.cpp:42-49 | erased from all six maps; true exactly if it was in one |
| HttpRegistry.Registry.Find | rockets/http/registry.cpp:96-104 | the longest match |
| HttpRegistry.Registry.GetAllowedMethods | rockets/http/registry.cpp:64-80 | the joined names of the methods registered for exactly this path |
| HttpRegistry.Registry.ToJsonBody | rockets/http/registry.cpp:114-130 | an object with every registered path and its methods, null when there is none |
| HttpRouting.RegisteredIsReached | rockets/http/connectionHandler.cpp:105-127 | an unfiltered request for a registered method and path reaches that handler, except GET registry |
| HttpRouting.HandledIsReached | rockets/server.cpp:163-175 | after every history the server accepts there is no exception: what was added first since the last removal is reached |
| HttpRouting.ChosenHandlerGetsTheRest | rockets/http/connectionHandler.cpp:33-43 | endpoint and the path given to the handler make up the request's path, the root is given all of it, and only a directory gets a rest |
| HttpRouting.RefusalsAreSound | rockets/http/connectionHandler.cpp:129-138 | a 405 names exactly the methods registered for this path, in their fixed order, not the request's own; a 404 means none is |
| HttpRouting.HandlerIsCalledIff | rockets/http/registry.cpp:82-94 | a handler is called exactly when the longest match takes the path or is a directory, or nothing matches and the root is registered |
| HttpRouting.DirectoryIsCalled | rockets/http/connectionHandler.cpp:117-127 | a registered directory that is the longest registered prefix is called with the rest of the path |
| HttpRouting.DecideDecides | rockets/http/connectionHandler.cpp:105-138 | every decision case by case: filtered, GET registry, the registered handler, another endpoint's, 405, 404 |
| HttpRouting.RootIsPassedOver | rockets/http/registry.cpp:90-91 | with "/" and "a" registered, "ab" is not found |
| HttpRouting.FoundEndpoint | rockets/http/registry.cpp:82-94 | what is found is registered; an empty endpoint leaves an empty rest, so its last character is not read |
| HttpConnection.ConnectionIsSafe | rockets/http/connectionHandler.cpp:60-103 | over every disciplined run, with body data at any time, no logic_error is thrown, a handler is called at most once, and what went out is a prefix of headers then body, the body only if there is one; nothing was sent before a handler's own exception; a called handler saw all of the body if and only if no data came once the response was set |
| HttpConnection.HandlerSawBodyIff | rockets/http/connectionHandler.cpp:60-85 | the last of these, from every safe state: for an announced body no data after its completion, for any other request none at all |
| HttpConnection.CalledHandlerKeepsBody | rockets/http/connectionHandler.cpp:68-72 | once a handler was called, later data only lengthens the stored body |
| HttpConnection.BodyWithoutLengthIsMissed | rockets/http/channel.cpp:88-100 | the failing input: a POST without a length whose handler gets the empty body |
| HttpConnection.ExceptionSendsNothing | rockets/http/connection.cpp:117-129 | when the handler's future throws, no header flag is set and nothing is sent |
| HttpConnection.RunIsSafe | rockets/http/connection.cpp:84-146 | the same from every safe state; a set response is not set again |
| HttpConnection.StepIsSafe | rockets/http/connectionHandler.cpp:74-103 | every callback keeps the connection safe and only adds to what went out |
| HttpConnection.ThrowsIff | rockets/http/connection.cpp:84-146 | the exact situations in which a callback would throw |
| HttpConnection.OpenedIsSafe | rockets/http/connectionHandler.cpp:60-66 | a new request never throws and is safe |
| HttpConnection.ResolvedResponseIsSent | rockets/http/channel.cpp:185-203 | a resolved response goes out completely with the callbacks requested: one for the headers, one for a body |
| HttpConnection.HandlerAnswerIsSent | rockets/http/connection.cpp:117-146 | the client gets the code, length, headers and body of the value in the handler's future |
| HttpConnection.BrokenPromiseIsSent | rockets/http/connection.cpp:173-184 | a broken promise is answered with code 500 and no body |
| HttpConnection.ReadyAnswerIsSent | rockets/http/connection.cpp:117-146 | a response that was ready from the start is sent as it is |
| HttpConnection.RaisedIsRethrown | rockets/http/connection.cpp:173-184 | any other exception of the handler leaves, with nothing sent |
| HttpConnection.FailedWriteIsFinal | rockets/http/connection.cpp:127-128 | headers that could not be written count as sent and are not tried again |
| HttpConnection.UnresolvedAnswerWaits | rockets/http/connectionHandler.cpp:92-97 | while the future is not ready nothing is sent and another callback is requested |
| HttpConnection.PreflightIsAnswered | rockets/http/connectionHandler.cpp:148-168 | a preflight gets an empty 200 with the methods of its path |
| HttpConnection.OpenDecides | rockets/http/connectionHandler.cpp:60-66 | a POST, PUT or PATCH with a length waits for its body, any other request is given its answer; the origin header decides on CORS |
| HttpConnection.CompletionDecides | rockets/http/connectionHandler.cpp:74-85 | the completion of the body gives the answer then |
| HttpConnection.SecondCompletionThrows | rockets/http/connectionHandler.cpp:83 | a second completion asks the handler again before it throws; the first answer stays |
| HttpConnection.GenerateAnswers | rockets/http/connectionHandler.cpp:105-127 | the filter's response, the JSON of the registry for GET registry, or the handler of the path with the body received so far |
| HttpConnection.OtherHandlerIsAsked | rockets/http/connectionHandler.cpp:117-127 | the handler of another endpoint is the registered one and gets the rest of the path |
| HttpConnection.RefusalIsAnswered | rockets/http/connectionHandler.cpp:129-138 | code 405 with the methods of the path, or 404 if it has none |
| HttpConnection.RegisteredPathIsServed | rockets/http/connectionHandler.cpp:60-103 | from the request to the wire: a registered path gets what its handler answers |
| HttpConnection.Connection.SetResponse | rockets/http/connection.cpp:84-91 | throws exactly when a response is set |
| HttpConnection.Connection.SetCorsResponseHeaders | rockets/http/connection.cpp:93-100 | throws exactly when a response is set, else finalizes |
| HttpConnection.Connection.GenerateResponse | rockets/http/connectionHandler.cpp:105-146 | the filter's answer, the registry, a handler's future, 405 or 404 |
| HttpConnection.Connection.PrepareResponse | rockets/http/connectionHandler.cpp:74-85 | the whole new state, with the early return of libwebsockets 3.1 |
| HttpConnection.Connection.HandleNewRequest | rockets/http/connectionHandler.cpp:60-66 | preflight, immediate response, or waiting for the body |
| HttpConnection.Connection.WriteResponseHeaders | rockets/http/connection.cpp:117-129 | finalizes and sends the headers, requests a callback for a body |
| HttpConnection.Connection.WriteResponseBody | rockets/http/connection.cpp:131-146 | sends the body once, after the headers, if there is one |
| HttpConnection.Connection.WriteResponse | rockets/http/connectionHandler.cpp:87-103 | the whole effect of a writable callback |
| WsStreams.StreamIsInbox | rockets/server.cpp:202-241 | at every point of every run, what was written to a client followed by its queue is exactly what was addressed to it since it was opened, in order and with its formats |
| WsStreams.WrittenIsInboxPrefix | rockets/ws/connection.cpp:45-52 | what was written is a prefix of that |
| WsStreams.StepExtendsStream | rockets/ws/messageHandler.cpp:117-143 | a command adds to a client's stream what it addresses to it, and takes nothing back |
| WsStreams.StepReaches | rockets/server.cpp:202-241 | command by command, who gets which message in which format, what is written, and when a write is requested |
| WsStreams.InboxGrows | rockets/ws/messageHandler.cpp:117-143 | the same of the inbox |
| WsStreams.FlushDrains | rockets/ws/connection.cpp:45-52 | writing keeps the stream, makes progress, and empties the queue or asks again |
| WsStreams.ResponseIsEnqueuedIff | rockets/ws/messageHandler.cpp:80-123 | a response is enqueued for a recipient if and only if its format is set and its message is not empty |
| WsStreams.ResponsesAreMailed | rockets/ws/messageHandler.cpp:80-100 | all responses of a callback: exactly those, in order |
| WsStreams.OpenAndCloseMail | rockets/server.cpp:78-92 | what the open and close callbacks leave in everybody's queue |
| WsServer.Connection.WriteMessages | rockets/ws/connection.cpp:45-52 | terminates, however the pipe chokes, and is the flush of some number of messages |
| WsServer.Connection.WriteOneMessage | rockets/ws/connection.cpp:74-79 | the oldest message is written and leaves the queue |
| WsServer.Connection.Send | rockets/ws/connection.cpp:33-43 | enqueued, and a write requested |
| WsServer.Server.OpenWsConnection | rockets/server.cpp:78-85 | a new connection with an empty queue, then the fan-out of the open callback's responses; for a handle that has one already the new connection stays outside the table |
| WsServer.Server.SendAll | rockets/ws/messageHandler.cpp:80-100 | the responses of an open or close callback are fanned out one after the other |
| WsServer.Server.CloseWsConnection | rockets/server.cpp:87-92 | the close callback's responses, then the connection and its queue are gone; throws exactly for an unknown handle |
| WsServer.Server.BroadcastText | rockets/server.cpp:202-208 | every connection gets the message, and the flags are set |
| WsServer.Server.BroadcastTextExcept | rockets/server.cpp:210-222 | every connection but those in the filter |
| WsServer.Server.SendText | rockets/server.cpp:224-233 | only the named client |
| WsServer.Server.BroadcastBinary | rockets/server.cpp:235-241 | every connection, as binary |
| WsServer.Server.SendResponseToRecipient | rockets/ws/messageHandler.cpp:117-143 | all, the others or the sender; nothing for an empty message or an unspecified format |
| WsServer.Connection.SendResponse | rockets/ws/messageHandler.cpp:102-115 | sent in its format; an unspecified one is dropped |
| WsServer.Server.HandleWrite | rockets/server.cpp:100-104 | flushes this client's queue and leaves the others |
| MessageHandler.MessagesAreReassembled | rockets/ws/messageHandler.cpp:38-73 | however messages are cut into fragments, the callbacks receive exactly the messages in order, and the buffer is empty after each, with a synchronous, asynchronous or no callback |
| MessageHandler.MessageIsReassembled | rockets/ws/messageHandler.cpp:41-49 | one message behind whatever the buffer holds |
| MessageHandler.FinishedMessageIsHeard | rockets/ws/messageHandler.cpp:51-73 | which callback a finished message is given to, with all of the buffer |
| MessageHandler.PieceIsKept | rockets/ws/messageHandler.cpp:47-49 | a piece that more follows is appended, and nothing is called |
| MessageHandler.ReplyIsTheCallbacks | rockets/ws/messageHandler.cpp:56-77 | what a frame is answered: the synchronous callback's response with its format filled in, or nothing yet |
| MessageHandler.ReassemblyIsPerClientIff | rockets/ws/messageHandler.cpp:38-78 | for every sequence of frames of any clients whose messages are listened to: every client's own messages are delivered if and only if no client finishes a message while another one's unfinished message holds data |
| MessageHandler.ReassemblyIsPerClientForAllIff | rockets/ws/messageHandler.cpp:38-78 | with any formats: so for every set of callbacks if and only if |
| MessageHandler.UninterruptedIsPerClient | rockets/ws/messageHandler.cpp:38-78 | the sufficient half, for any callbacks |
| MessageHandler.InterruptionShows | rockets/ws/messageHandler.cpp:47-73 | the first interruption delivers a text that is too long, and nothing later repairs it |
| MessageHandler.ReceiveKeepsShared | rockets/ws/messageHandler.cpp:47-49 | the buffer is a client's own when the others are empty, and else longer than any one of them |
| MessageHandler.UnheardCanHide | rockets/ws/messageHandler.cpp:54-73 | why the callbacks matter: a message nobody listens to can hide an interruption |
| MessageHandler.InterleavedMessageIsIntactIff | rockets/ws/messageHandler.cpp:47-49 | the shortest case: the two texts that are delivered when a message comes between the fragments of another client's |
| MessageHandler.Handler.HandleMessage | rockets/ws/messageHandler.cpp:38-78 | the effect of one frame and the response, with its format filled in |
| MessageHandler.Handler.CallWithBuffer | rockets/ws/messageHandler.cpp:56-60 | the callback gets the buffer, which is empty afterwards |
| MessageHandler.Handler.HandleReceive | rockets/server.cpp:94-98 | frame and fan-out together |
| PollDescriptors.RunNeverThrows | rockets/qt/socketProcessor.h:44-61 | for every sequence of events, duplicates, unknown descriptors and re-attached listeners included, the listener has a notifier for every descriptor, enabled for its events, and `at` does not throw |
| PollDescriptors.MirrorIsExactIff | rockets/pollDescriptors.cpp:26-70 | after attaching a listener at any moment and any events since, it mirrors exactly if and only if every vanished socket it brought along was added anew |
| PollDescriptors.AttachIsExactIff | rockets/pollDescriptors.cpp:62-70 | what attaching alone needs of the listener, for the mirror and for processing each ready socket once |
| PollDescriptors.FreshListenerMirrors | rockets/pollDescriptors.cpp:62-70 | a fresh listener mirrors exactly from then on |
| PollDescriptors.MissedRemovalStays | rockets/pollDescriptors.cpp:51-70 | a listener attached again after a removal it missed watches a socket that is gone |
| PollDescriptors.RunShedsStale | rockets/qt/socketProcessor.h:44-61 | vanished sockets leave the listener only by being added again |
| PollDescriptors.RunHoldsCurrent | rockets/pollDescriptors.cpp:26-60 | after every history a descriptor is known with the events of its add or its last update, until it is removed |
| PollDescriptors.ListenerShowsHistory | rockets/qt/readWriteSocketNotifier.h:54-58 | an attached listener watches for reading exactly if bit 0 was asked for last, for writing exactly if bit 2 was |
| PollDescriptors.PollDescriptors.AddDescriptor | rockets/pollDescriptors.cpp:26-37 | the first add counts, and the listener is told |
| PollDescriptors.PollDescriptors.UpdateDescriptor | rockets/pollDescriptors.cpp:39-49 | known descriptors only; the listener's `at` does not throw |
| PollDescriptors.PollDescriptors.RemoveDescriptor | rockets/pollDescriptors.cpp:51-60 | known descriptors only, in both maps |
| PollDescriptors.PollDescriptors.ReplayTo | rockets/pollDescriptors.cpp:67-68 | the replay loop, in whatever order: every descriptor is announced once |
| PollDescriptors.PollDescriptors.SetListener | rockets/pollDescriptors.cpp:62-70 | the new listener has had the replay, no listener has not |
| PollDescriptors.SocketProcessor.OnNewSocket | rockets/qt/socketProcessor.h:44-51 | an existing notifier is kept, enabled anew and connected again |
| PollDescriptors.SocketProcessor.OnUpdateSocket | rockets/qt/socketProcessor.h:53-56 | throws exactly for an unknown socket |
| PollDescriptors.SocketProcessor.OnDeleteSocket | rockets/qt/socketProcessor.h:58-61 | the notifier is gone |
| ProgressAggregate.Aggregate.Next | js/src/client.ts:523-542 | the splice-or-push array keeps one entry per request and yields the mean of the latest amounts |
| ProgressAggregate.DictAggregate.ToProgress | python/rockets/async_client.py:345-355 | so does the dictionary |
| ProgressAggregate.MeanIsOneIff | js/src/client.ts:266-277 | with amounts in [0,1] the mean is in [0,1], and it is 1 exactly when every request's latest amount is 1 and no two requests share an id |
| ProgressAggregate.MeanMoves | js/src/client.ts:535-540 | a notification moves the mean by its request's change divided by the number of requests, and a foreign one not at all |
| ProgressAggregate.MeanNeverFallsBack | js/src/client.ts:523-542 | a run in which no request decreases never decreases the mean |
| ProgressAggregate.RepresentsSum | js/src/client.ts:535-538 | the sum of the array over the number of requests is the reference mean |
| ProgressAggregate.NewNoteIsRepresented | js/src/client.ts:529-533 | splicing over the found entry, or pushing, keeps one entry per request with its latest amount |
| ProgressAggregate.TotalMoves | python/rockets/async_client.py:353-354 | changing one of the distinct requests moves the total by the change, once |

## Left out

- libwebsockets, sockets, TLS, vhosts, libuv and the proxy: foreign calls, reduced to the order of callbacks, the writable mark, and whether a write succeeded.
- The text of JSON: an abstract codec, see Assumptions; what a parse error says is a function of the text. Strings are taken to be valid Unicode, and a number out of a double's range to be a parse error.
- Memory lifetime: `shared_ptr` and `weak_ptr` expiry; a moved-from string is taken to be empty.
- Handlers that answer later: in RequestProcessor a callback's answer is there when it returns, so the blocking of a batch on one that never answers is not modelled; the race of late answers is the subject of CancellableProtocol, for the cancellable layer.
- Re-entrant callbacks of Requester, and exceptions thrown by application callbacks other than those of a handler's HTTP future.
- EndToEnd.CallReturnsToItsCallback: ids below 2^64, as `size_t` has them; the wrap-around of `lastId` after as many requests is not modelled.
- Progress notifications of a running cancellable request: they are sent without touching the pending table.
- Stopping the service threads (`exitService`, `cancelService`); without service threads a broadcast marks the connections directly.
- BroadcastWakeUp.DeliveryIsAlwaysPossible: shows a run that delivers, not that every fair schedule does.
- The reply of an asynchronous text callback touches the queue without the connections mutex; enqueueing is one step here, so the data race on the queue itself is not modelled.
- WsServer: a connection's lws handle and the address of its object are one number.
- A client that closes in the middle of a message: its pieces stay in the shared buffer, as those of an unfinished message do.
- HttpConnection: closing or keeping the connection after the transaction, and the return codes of libwebsockets; of the response headers only Allow and Content-Type; query parameters, origin and host are not interpreted.
- The HTTP filter and the handlers are parameters; `Method::ALL` is no method of a request.
- RxJS `distinct`, RxPY and asyncio scheduling, promises and tasks of the client libraries; the rounding of floating-point amounts.
- The connection code of the HTTP and WebSocket clients, URI and host utilities, typed `bind` and `request` templates, logging, the HTML page, the applications and the Qt widgets: adapters and input/output.
