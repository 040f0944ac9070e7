# Pigeon / MessageRouter core, modelled in Dafny

This project models the core of the Pigeon message router, a C# library for
request/response and publish/subscribe messaging over NetMQ. It covers:

- the message router's NetMQ connection lifecycle, shared by its NetMQ
  senders, receivers and publishers: a set of addresses plus a connected flag,
  with bind and unbind hooks called once per address. The Pigeon subscriber's
  own connection base class is assumed to behave the same way;
- the caches that resolve transports:
  - the sender cache (lazy, one sender per routing);
  - both publisher caches (message router and Pigeon);
  - the receiver cache, as its unit tests describe it;
  - the monitor cache with its global running gate;
- the remote task: a completion slot that is settled exactly once, raced by a
  timeout timer;
- the request dispatcher and the subscription event dispatcher: both dispatch
  by exact runtime type;
- the NetMQ message factory's frame layouts, including the 32-bit request
  identifier frame;
- serialization descriptors, whose equality is by name;
- the asynchronous message server: a Start/Stop state machine plus its
  request-handling pipeline;
- the NetMQ subscriber's disposed/connected guards.

## How it is modelled

A component whose source updates fields in place is a `class`:
`NetMQConnection`, `MonitorCache`, `RemoteTask`, the caches, the dispatchers,
`AsyncMessageServer` and `NetMQSubscriber`. Its methods carry `modifies`
clauses and state the whole new state.

Calls made on collaborators are recorded in sequence fields:

- the socket hooks (`SocketAdd`, `SocketRemove`);
- `StartMonitoring` and `StopMonitoring`;
- `AddMonitor`;
- `CreateSender` and `CreateReceiver`;
- `Publish`;
- the start and stop calls on the receiver manager;
- the socket's topic filter calls.

`Toggles` gives the meaning of an On/Off call log:

- `Active`: the items it leaves switched on;
- `NoRepeat`: it never binds an item twice and never unbinds one that is not
  bound;
- `SwitchesEach`: one loop over a hash set, in which every element is
  switched exactly once, in any order.

The message factory, the serialization descriptor and the request-handling
pipeline are pure, so they are functions over values.

Some conventions hold throughout:

- `null` is `Option.None`.
- An exception is an `Err`/`Threw` value of the `Exception` datatype.
- Each constructor that null-checks its arguments is a static `Create` method
  returning a `Result`.
- Each method body runs as one atomic step. The source runs these bodies under
  a lock, or on a single thread.

Some behaviours of the code are worth stating plainly:

- `AsyncMessageServer.HandleAndRespond` does not turn a failing stage into an
  error response. A throwing extraction, dispatch or response creation ends the
  background task, and no response is sent.
- The publish fan-out loops have no per-publisher failure isolation.
- `MonitorCache.AddMonitor` starts a monitor again when the cache is running,
  even if the monitor was already cached. Its invariant therefore speaks of the
  monitors left started, not of a strict start/stop alternation.

## Model

| member | source | states |
|---|---|---|
| NetMQCommon.NetMQConnection.AddAddress | Codebase/MessageRouter/MessageRouter.NetMQ/Common/NetMQConnection.cs:58-70 | null throws ArgumentNull; a new address is added and, while connected, bound with exactly one SocketAdd; a present address changes nothing; the bound-once invariant is kept |
| NetMQCommon.NetMQConnection.RemoveAddress | Codebase/MessageRouter/MessageRouter.NetMQ/Common/NetMQConnection.cs:78-87 | null or absent address is a no-op; otherwise the address is removed and, while connected, unbound with exactly one SocketRemove |
| NetMQCommon.NetMQConnection.SwitchAll | Codebase/MessageRouter/MessageRouter.NetMQ/Common/NetMQConnection.cs:112-113 | the foreach over the address set calls the hook once for every address, in some order, and nothing else |
| NetMQCommon.NetMQConnection.RemoveAllAddresses | Codebase/MessageRouter/MessageRouter.NetMQ/Common/NetMQConnection.cs:94-101 | addresses become empty; while connected each old address is unbound exactly once; otherwise no hook is called |
| NetMQCommon.NetMQConnection.InitializeConnection | Codebase/MessageRouter/MessageRouter.NetMQ/Common/NetMQConnection.cs:107-116 | when disconnected binds every address exactly once, then connects; when already connected calls nothing |
| NetMQCommon.NetMQConnection.TerminateConnection | Codebase/MessageRouter/MessageRouter.NetMQ/Common/NetMQConnection.cs:122-131 | when connected unbinds every address exactly once, then disconnects; when not connected calls nothing |
| NetMQCommon.NetMQConnection.LogMoves | Codebase/MessageRouter/MessageRouter.NetMQ/Common/NetMQConnection.cs:107-131 | a loop that switches every address once moves the bound set from nothing to all addresses (or back) with no double bind or unbind |
| NetMQCommon.AddTwiceKeepsOne | Codebase/MessageRouter/MessageRouter.NetMQ.UnitTests/Receivers/NetMQReceiverTests.cs:187-200 | adding the same address twice leaves one address |
| NetMQCommon.ConnectedFlagLifecycle | Codebase/MessageRouter/MessageRouter.NetMQ.UnitTests/Receivers/NetMQReceiverTests.cs:89-133 | not connected before initializing, connected after, not connected after terminating |
| NetMQCommon.TerminateBeforeInitialize | Codebase/MessageRouter/MessageRouter.NetMQ.UnitTests/Receivers/NetMQReceiverTests.cs:295-306 | terminating a never-initialized connection calls no hook and does not throw |
| NetMQCommon.InitializeTwiceBindsOnce | Codebase/MessageRouter/MessageRouter.NetMQ/Common/NetMQConnection.cs:107-116 | initializing twice binds each distinct address exactly once |
| Monitors.MonitorCache.SwitchAll | Codebase/Pigeon/Pigeon/Monitors/MonitorCache.cs:28-29 | the foreach calls StartMonitoring (or StopMonitoring) once on every cached monitor |
| Monitors.MonitorCache.StartAllMonitors | Codebase/Pigeon/Pigeon/Monitors/MonitorCache.cs:21-33 | when stopped starts every monitor once and sets running; when running calls nothing |
| Monitors.MonitorCache.StopAllMonitors | Codebase/Pigeon/Pigeon/Monitors/MonitorCache.cs:39-51 | when running stops every monitor once and clears running; when stopped calls nothing |
| Monitors.MonitorCache.AddMonitor | Codebase/Pigeon/Pigeon/Monitors/MonitorCache.cs:58-67 | the monitor joins the set and is started exactly when the cache is running; the started set stays all monitors while running and empty while stopped |
| Monitors.MonitorCache.CallsMove | Codebase/Pigeon/Pigeon/Monitors/MonitorCache.cs:21-51 | a start-all (stop-all) loop moves the started set from empty to all monitors (from all to empty) |
| Monitors.StartThenStop | Codebase/Pigeon/Pigeon/Monitors/MonitorCache.cs:21-67 | after adding monitors, starting and stopping, the cache is stopped, keeps its monitors and none is left started |
| Monitors.AddWhileRunningStarts | Codebase/Pigeon/Pigeon/Monitors/MonitorCache.cs:58-67 | a monitor added while stopped is started only by StartAllMonitors; one added while running is started at once |
| Utils.TimerInterval | Codebase/Pigeon/Pigeon/Utils/RemoteTask.cs:41 | the timer interval is the timeout, but at least 5 ms |
| Utils.ConstructorError | Codebase/Pigeon/Pigeon/Utils/RemoteTask.cs:30-36 | negative timeout gives Argument, else a null callback or source gives ArgumentNull, else no error |
| Utils.OutcomeOf | Codebase/Pigeon/Pigeon/Utils/RemoteTask.cs:48-109 | a result resolves; an exception faults with it; the timer faults with the callback's exception or, when it returns null, a Timeout |
| Utils.SettledIsFinal | Codebase/Pigeon/Pigeon/Utils/RemoteTask.cs:48-109 | once settled, no later completion or timer firing changes the outcome |
| Utils.FirstEventWins | Codebase/Pigeon/Pigeon/Utils/RemoteTask.cs:48-109 | over any interleaving of completions and timer firings the task ends settled by the first event |
| Utils.RemoteTask.Create | Codebase/Pigeon/Pigeon/Utils/RemoteTask.cs:28-65 | the constructor fails exactly on the checked errors; otherwise the task is pending with the clamped interval |
| Utils.RemoteTask.CompleteWithResult | Codebase/Pigeon/Pigeon/Utils/RemoteTask.cs:72-85 | on a pending task sets the result once and settles; on a settled task does nothing |
| Utils.RemoteTask.CompleteWithException | Codebase/Pigeon/Pigeon/Utils/RemoteTask.cs:92-109 | on a pending task sets the exception once and settles; on a settled task does nothing |
| Utils.RemoteTask.OnTimerElapsed | Codebase/Pigeon/Pigeon/Utils/RemoteTask.cs:48-62 | on a pending task calls the callback once and faults with its exception or Timeout; on a settled task calls nothing |
| Utils.Drive | Codebase/Pigeon/Pigeon/Utils/RemoteTask.cs:48-109 | running the three operations in any order leaves the task in the state the first-wins semantics gives |
| Utils.TimeoutThenResult | Codebase/Pigeon/Pigeon/Utils/RemoteTask.cs:48-85 | a result or exception arriving after the timeout is ignored: the task stays faulted with Timeout, set once |
| Senders.SenderCache.SenderFor | Codebase/MessageRouter/MessageRouter/Senders/SenderCache.cs:47-64 | no routing gives KeyNotFound; a cached routing returns its sender; else a missing factory gives KeyNotFound, a null one NullReference, and otherwise one sender is created for the routing's address, cached, and its monitor added once |
| Senders.SenderCache.AddFactory | Codebase/MessageRouter/MessageRouter/Senders/SenderCache.cs:72-81 | a second factory for a sender type throws InvalidOperation and changes nothing; otherwise the factory (even a null one) is stored |
| Senders.SenderCache.Send | Codebase/MessageRouter/MessageRouter/Senders/SenderCache.cs:109-121 | null request throws ArgumentNull and changes nothing; otherwise the sender resolution's outcome and effects carry through unchanged (each of its errors, or the cached or newly created sender with its cache entry and monitor), and a resolved sender is sent the wrapped request with the given timeout |
| Senders.SenderCache.SendWithDefaultTimeout | Codebase/MessageRouter/MessageRouter/Senders/SenderCache.cs:92-97 | the same outcome and effects as Send, with a timeout of one hour |
| Senders.SendCreatesSender | Codebase/MessageRouter/MessageRouter/Senders/SenderCache.cs:92-121 | a first send through a routed, registered factory creates one sender for the routing's address, adds its monitor once and dispatches the wrapped request to it with the one-hour timeout |
| Senders.NullFactoryFails | Codebase/MessageRouter/MessageRouter/Senders/SenderCache.cs:52-60 | a null factory registered for the routing's kind makes the send fail with NullReference and caches nothing |
| Senders.SameRoutingSameSender | Codebase/MessageRouter/MessageRouter/Senders/SenderCache.cs:47-64 | two request types with the same routing get the same sender, created once |
| Senders.NoRoutingFails | Codebase/MessageRouter/MessageRouter/Senders/SenderCache.cs:109-116 | a request type with no routing fails with KeyNotFound and caches nothing |
| RouterPublishers.PublisherCache.AddFactory | Codebase/MessageRouter/MessageRouter/Publishers/PublisherCache.cs:48-58 | null throws ArgumentNull; the first factory of a kind is stored and its monitor added once; later ones are no-ops |
| RouterPublishers.PublisherCache.AddPublisher | Codebase/MessageRouter/MessageRouter/Publishers/PublisherCache.cs:66-77 | null throws ArgumentNull, a bound address InvalidOperation, a kind without factory KeyNotFound; otherwise one publisher is created for the address |
| RouterPublishers.PublisherCache.Publish | Codebase/MessageRouter/MessageRouter/Publishers/PublisherCache.cs:85-94 | null throws ArgumentNull; otherwise the event is wrapped once and every publisher receives that envelope exactly once |
| RouterPublishers.PublisherCache.PublishersDistinct | Codebase/MessageRouter/MessageRouter/Publishers/PublisherCache.cs:85-94 | the step behind Publish's one delivery per dictionary entry: under the model's (factory, address) identity of publishers, the bound addresses hold pairwise different publishers |
| RouterPublishers.MissingKindRefused | Codebase/MessageRouter/MessageRouter/Publishers/PublisherCache.cs:74 | a kind without a factory fails at the indexer with KeyNotFound |
| RouterPublishers.SameAddressTwice | Codebase/MessageRouter/MessageRouter/Publishers/PublisherCache.cs:71-72 | a second publisher on a bound address is refused and the first kept |
| RouterPublishers.FactoryTwiceOneMonitor | Codebase/MessageRouter/MessageRouter/Publishers/PublisherCache.cs:53-57 | adding a factory twice adds its monitor once |
| RouterPublishers.PublishReachesEach | Codebase/MessageRouter/MessageRouter/Publishers/PublisherCache.cs:92-93 | with publishers at two addresses one publish makes two deliveries |
| PigeonPublishers.PublisherCache.AddFactory | Codebase/Pigeon/Pigeon/Publishers/PublisherCache.cs:43-53 | null throws ArgumentNull; the first factory of a kind is stored and its monitor added once; later ones are no-ops |
| PigeonPublishers.PublisherCache.AddPublisher | Codebase/Pigeon/Pigeon/Publishers/PublisherCache.cs:61-74 | null throws ArgumentNull, a bound address InvalidOperation, a kind without factory MissingFactory for that kind; otherwise one publisher is created for the address |
| PigeonPublishers.PublisherCache.Publish | Codebase/Pigeon/Pigeon/Publishers/PublisherCache.cs:82-89 | null throws ArgumentNull; otherwise every publisher receives the event itself exactly once |
| PigeonPublishers.PublisherCache.PublishersDistinct | Codebase/Pigeon/Pigeon/Publishers/PublisherCache.cs:82-89 | the step behind Publish's one delivery per dictionary entry: under the model's (factory, address) identity of publishers, the bound addresses hold pairwise different publishers |
| PigeonPublishers.MissingKindRefused | Codebase/Pigeon/Pigeon/Publishers/PublisherCache.cs:69-70 | a kind without a factory fails with MissingFactory naming the kind |
| PigeonPublishers.SameAddressTwice | Codebase/Pigeon/Pigeon/Publishers/PublisherCache.cs:66-67 | a second publisher on a bound address is refused and the first kept |
| PigeonPublishers.FactoryTwiceOneMonitor | Codebase/Pigeon/Pigeon/Publishers/PublisherCache.cs:48-52 | adding a factory twice adds its monitor once |
| PigeonPublishers.PublishReachesEach | Codebase/Pigeon/Pigeon/Publishers/PublisherCache.cs:87-88 | with publishers at two addresses one publish makes two deliveries |
| Requests.ValidateTypes | Codebase/Pigeon/Pigeon/Requests/RequestDispatcher.cs:86-93 | no error exactly when both types are serializable; the request type is checked first |
| Requests.RequestDispatcher.Handle | Codebase/Pigeon/Pigeon/Requests/RequestDispatcher.cs:23-33 | null throws ArgumentNull; an unregistered exact runtime type throws RequestHandlerNotFound for that type; otherwise the registered handler is invoked on the request |
| Requests.RequestDispatcher.Install | Codebase/Pigeon/Pigeon/Requests/RequestDispatcher.cs:42-73 | validation errors first, then Argument on a duplicate type; on success Handle sends that type to the new handler and every other type as before |
| Requests.RequestDispatcher.Register | Codebase/Pigeon/Pigeon/Requests/RequestDispatcher.cs:42-46 | registers a handler object, with the shared checks and errors |
| Requests.RequestDispatcher.RegisterDelegate | Codebase/Pigeon/Pigeon/Requests/RequestDispatcher.cs:55-59 | registers a synchronous delegate, with the shared checks and errors |
| Requests.RequestDispatcher.RegisterAsync | Codebase/Pigeon/Pigeon/Requests/RequestDispatcher.cs:68-73 | registers an asynchronous delegate, with the shared checks and errors |
| Requests.RequestDispatcher.Create | Codebase/Pigeon/Pigeon/Requests/RequestDispatcher.cs:80-83 | a fresh dispatcher with no handlers |
| Requests.RegisterThenHandle | Codebase/Pigeon/Pigeon/Requests/RequestDispatcher.cs:23-59 | a registered type reaches its handler; another type gets RequestHandlerNotFound |
| Requests.RegisterTwiceRefused | Codebase/Pigeon/Pigeon/Requests/RequestDispatcher.cs:42-73 | a second registration for the same request type fails and the first handler stays |
| Requests.UnserializableResponseRefused | Codebase/Pigeon/Pigeon/Requests/RequestDispatcher.cs:86-93 | an unserializable response type is refused and nothing is registered |
| NetMQMessages.ConvertToInt32 | Codebase/MessageRouter/MessageRouter.NetMQ/MessageFactory.cs:86 | reading an identifier fails exactly on frames shorter than four bytes |
| NetMQMessages.Int32RoundTrip | Codebase/MessageRouter/MessageRouter.NetMQ/MessageFactory.cs:66-90 | every 32-bit identifier is read back from its frame unchanged |
| NetMQMessages.CreateTopicMessage | Codebase/MessageRouter/MessageRouter.NetMQ/MessageFactory.cs:38-45 | exactly two frames: the topic type's full name, then the serialized package |
| NetMQMessages.ExtractTopic | Codebase/MessageRouter/MessageRouter.NetMQ/MessageFactory.cs:53-57 | fewer than two frames fails; otherwise the object unpacked from frame 1 |
| NetMQMessages.CreateRequestMessage | Codebase/MessageRouter/MessageRouter.NetMQ/MessageFactory.cs:66-75 | exactly four frames: empty, identifier, empty, serialized package |
| NetMQMessages.ExtractRequest | Codebase/MessageRouter/MessageRouter.NetMQ/MessageFactory.cs:83-90 | address from frame 0, identifier from frame 2, request from frame 4, with the indexer and conversion errors in source order |
| NetMQMessages.CreateResponseMessage | Codebase/MessageRouter/MessageRouter.NetMQ/MessageFactory.cs:100-110 | exactly five frames: address, empty, identifier, empty, serialized package |
| NetMQMessages.IsValidRequestMessage | Codebase/MessageRouter/MessageRouter.NetMQ/MessageFactory.cs:130-133 | a plain definition (present, with five frames); its meaning is stated in ValidRequestIsExtractable |
| NetMQMessages.ValidRequestIsExtractable | Codebase/MessageRouter/MessageRouter.NetMQ/MessageFactory.cs:83-133 | a null message is invalid; a message passing the validity check has every frame ExtractRequest reads, so extracting it fails only, with IndexOutOfRange, on an identifier frame under four bytes |
| NetMQMessages.TopicRoundTrip | Codebase/MessageRouter/MessageRouter.NetMQ/MessageFactory.cs:38-57 | extracting a created topic message gives the event back, given a round-tripping codec |
| NetMQMessages.RoutedRequestRoundTrip | Codebase/MessageRouter/MessageRouter.NetMQ/MessageFactory.cs:66-90 | a request message behind an address frame is valid and extracts to that request, address and identifier |
| NetMQMessages.ResponseIsAddressedRequestLayout | Codebase/MessageRouter/MessageRouter.NetMQ/MessageFactory.cs:100-110 | a response message is a request layout behind the address frame |
| NetMQMessages.UnroutedRequestIsInvalid | Codebase/MessageRouter/MessageRouter.NetMQ/MessageFactory.cs:66-90 | the four-frame message a client sends is not a valid request, and extracting it fails on the empty identifier frame |
| Serialization.NewDescriptor | Codebase/Pigeon/Pigeon/Serialization/SerializationDescriptor.cs:27-31 | null name or type throws ArgumentNull; otherwise the descriptor holds both |
| Serialization.Equals | Codebase/Pigeon/Pigeon/Serialization/SerializationDescriptor.cs:39 | a plain definition (a descriptor with the same name); its meaning is stated in EqIsEquivalence and OperatorsAgree |
| Serialization.HashCode | Codebase/Pigeon/Pigeon/Serialization/SerializationDescriptor.cs:46 | a plain definition (the name's hash); its meaning is stated in EqualHashesEqual |
| Serialization.Eq | Codebase/Pigeon/Pigeon/Serialization/SerializationDescriptor.cs:49 | `==` holds exactly for equal names |
| Serialization.NotEq | Codebase/Pigeon/Pigeon/Serialization/SerializationDescriptor.cs:52 | `!=` holds exactly for different names |
| Serialization.OperatorsAgree | Codebase/Pigeon/Pigeon/Serialization/SerializationDescriptor.cs:39-52 | `==` is Equals, `!=` its negation, and the type is ignored |
| Serialization.EqIsEquivalence | Codebase/Pigeon/Pigeon/Serialization/SerializationDescriptor.cs:39-52 | Equals and `==` are reflexive, symmetric and transitive, and a descriptor never equals null or a non-descriptor |
| Serialization.EqualHashesEqual | Codebase/Pigeon/Pigeon/Serialization/SerializationDescriptor.cs:39-46 | equal descriptors have equal hash codes under any string hash |
| Serialization.PredefinedDistinct | Codebase/Pigeon/Pigeon/Serialization/SerializationDescriptor.cs:57-60 | DotNet, Json and Protobuf are pairwise unequal though DotNet and Protobuf share a type |
| Serialization.PredefinedAreConstructed | Codebase/Pigeon/Pigeon/Serialization/SerializationDescriptor.cs:57-60 | the predefined descriptors are the constructor's results for their names and types |
| Server.AsyncMessageServer.Create | Codebase/MessageRouter/MessageRouter/Server/AsyncMessageServer.cs:38-52 | a null factory, manager or dispatcher throws ArgumentNull; otherwise not running with a null time stamp |
| Server.AsyncMessageServer.Start | Codebase/MessageRouter/MessageRouter/Server/AsyncMessageServer.cs:58-70 | while running throws InvalidOperation and changes nothing; otherwise runs, stamps the time and starts the manager once |
| Server.AsyncMessageServer.Stop | Codebase/MessageRouter/MessageRouter/Server/AsyncMessageServer.cs:76-88 | while stopped throws InvalidOperation and changes nothing; otherwise stops, clears the time stamp and stops the manager once |
| Server.HandleAndRespond | Codebase/MessageRouter/MessageRouter/Server/AsyncMessageServer.cs:95-104 | the response handler is called at most once, and exactly once, with CreateResponse(Handle(ExtractRequest(request))), when every stage succeeds |
| Server.StartTwice | Codebase/MessageRouter/MessageRouter/Server/AsyncMessageServer.cs:58-70 | a second Start fails, keeps the first time stamp and starts the manager once |
| Server.StopStartStop | Codebase/MessageRouter/MessageRouter/Server/AsyncMessageServer.cs:58-88 | Stop before Start fails; start/stop cycles alternate the manager calls |
| NetMQSubscribers.NetMQSubscriber.Create | Codebase/Pigeon/Pigeon.NetMQ/Subscribers/NetMQSubscriber.cs:31-38 | a null socket or topic dispatcher throws ArgumentNull |
| NetMQSubscribers.NetMQSubscriber.Subscribe | Codebase/Pigeon/Pigeon.NetMQ/Subscribers/NetMQSubscriber.cs:45-55 | disposed throws InvalidOperation, not connected InvalidCast; otherwise one filter for the topic's full type name |
| NetMQSubscribers.NetMQSubscriber.Unsubscribe | Codebase/Pigeon/Pigeon.NetMQ/Subscribers/NetMQSubscriber.cs:61-68 | only a disposed subscriber refuses; otherwise the topic filter is removed |
| NetMQSubscribers.NetMQSubscriber.SocketAdd | Codebase/Pigeon/Pigeon.NetMQ/Subscribers/NetMQSubscriber.cs:93-99 | disposed throws InvalidOperation; otherwise connects to the address |
| NetMQSubscribers.NetMQSubscriber.SocketRemove | Codebase/Pigeon/Pigeon.NetMQ/Subscribers/NetMQSubscriber.cs:106-112 | disposed throws InvalidOperation; otherwise disconnects from the address |
| NetMQSubscribers.NetMQSubscriber.Dispose | Codebase/Pigeon/Pigeon.NetMQ/Subscribers/NetMQSubscriber.cs:120-146 | the first call terminates the connection (unbinding each address once), releases the socket and sets disposed; later calls change nothing |
| NetMQSubscribers.OnMessageReceived | Codebase/Pigeon/Pigeon.NetMQ/Subscribers/NetMQSubscriber.cs:71-86 | an unreceived or invalid message never reaches the dispatcher; a valid one reaches it once with its extracted package |
| NetMQSubscribers.SubscribeAcrossLifecycle | Codebase/Pigeon/Pigeon.NetMQ/Subscribers/NetMQSubscriber.cs:45-146 | Subscribe fails before connecting, succeeds while connected, and fails after a double Dispose, as does Unsubscribe |
| NetMQSubscribers.UnsubscribeWhileDisconnected | Codebase/Pigeon/Pigeon.NetMQ/Subscribers/NetMQSubscriber.cs:61-68 | Unsubscribe succeeds on a subscriber that is not connected |
| Receivers.ReceiverCache.Create | Codebase/MessageRouter/MessageRouter.UnitTests/Receivers/ReceiverCacheTests.cs:80-109 | a null monitor cache, message factory or dispatcher throws ArgumentNull |
| Receivers.ReceiverCache.AddFactory | Codebase/MessageRouter/MessageRouter.UnitTests/Receivers/ReceiverCacheTests.cs:115-171 | null throws ArgumentNull; the first factory of a kind is stored and its monitor added once; a repeat is a no-op |
| Receivers.ReceiverCache.AddReceiver | Codebase/MessageRouter/MessageRouter.UnitTests/Receivers/ReceiverCacheTests.cs:177-233 | null throws ArgumentNull, a used address InvalidOperation, a kind without factory KeyNotFound; otherwise CreateReceiver is called once for the address |
| Receivers.FactoryAddedOnce | Codebase/MessageRouter/MessageRouter.UnitTests/Receivers/ReceiverCacheTests.cs:158-171 | adding a factory twice keeps one factory and one AddMonitor call |
| Receivers.ReceiverPerAddress | Codebase/MessageRouter/MessageRouter.UnitTests/Receivers/ReceiverCacheTests.cs:205-233 | the first AddReceiver creates one receiver for the address; the second is refused |
| Receivers.NoFactoryForKind | Codebase/MessageRouter/MessageRouter.UnitTests/Receivers/ReceiverCacheTests.cs:190-201 | without a matching factory AddReceiver throws KeyNotFound and creates nothing |
| Subscriptions.SubscriptionEventDispatcher.Handle | Codebase/MessageRouter/MessageRouter.UnitTests/Subscripions/SubscriptionEventDispatcherTests.cs:38-110 | at most one handler call, exactly when the event is non-null and its exact type has a handler, with that handler and event |
| Subscriptions.SubscriptionEventDispatcher.Register | Codebase/MessageRouter/MessageRouter.UnitTests/Subscripions/SubscriptionEventDispatcherTests.cs:67-94 | a duplicate type is refused; otherwise events of that type go to the new handler and other types as before |
| Subscriptions.SubscriptionEventDispatcher.Create | Codebase/MessageRouter/MessageRouter.UnitTests/Subscripions/SubscriptionEventDispatcherTests.cs:41 | a fresh dispatcher with no handlers |
| Subscriptions.HandleWithoutHandlers | Codebase/MessageRouter/MessageRouter.UnitTests/Subscripions/SubscriptionEventDispatcherTests.cs:38-63 | a null event and an unhandled event cause no call and no error |
| Subscriptions.RegisteredHandlerCalledOnce | Codebase/MessageRouter/MessageRouter.UnitTests/Subscripions/SubscriptionEventDispatcherTests.cs:67-94 | a registered handler (object or delegate) is called exactly once with the event |
| Subscriptions.BaseHandlerIgnoresSubtype | Codebase/MessageRouter/MessageRouter.UnitTests/Subscripions/SubscriptionEventDispatcherTests.cs:98-110 | a handler for a base type is never called for a subtype instance |

## Left out

- Threads, timers and locks: `Task.Run`, the `System.Timers.Timer` and the `lock` blocks are not modelled. Each locked body is one atomic method, and the timer firing is the `OnTimerElapsed` call.
- Utils.RemoteTask: the timeout handler in the source guards on a copy of the struct (`var at = this`). The model uses one shared object, and relies on the completion source's first-wins `TrySet*` behaviour in the same way.
- Utils.RemoteTask: fractional milliseconds are left out; timeouts are whole milliseconds.
- Utils.RemoteTask.CompleteWithException: a null exception is not modelled.
- Utils.RemoteTask.OnTimerElapsed: a callback that itself throws is not modelled.
- Utils.RemoteTask: the stack-trace preservation done by reflection is not modelled.
- Collaborators cannot fail in the model: the receiver manager, the sender, publisher and receiver factories, the monitors and the sockets always return. In the source, Server.AsyncMessageServer.Start and Stop set the running flag and the time stamp before calling the receiver manager, so a throwing manager leaves the flag flipped; that path is not modelled.
- Senders.SenderCache.SenderFor: a created sender is identified by its factory and address, so a factory returning null is not modelled; the source caches the null and each send through that routing throws NullReference. A null sender monitor is covered by the Monitors.MonitorCache.AddMonitor line below.
- Socket I/O is not modelled: bind, connect, send and receive. Calls on sockets are recorded in logs instead, and a failed receive is the `None` input of `OnMessageReceived`.
- Reflection:
  - `CreateResponse` chooses the message factory's generic method at run time. It is the `createResponse` function parameter of `Server.HandleAndRespond`.
  - The serializable-attribute lookup is the `serializable` field of a type.
- NetMQMessages: the serializer, the package factory and the text encoding of frames are a `Codec` of function values. The round-trip facts are assumed of that codec and not proved; deserialization failures are not modelled.
- NetMQMessages: `ExtractResponse` is not modelled. How the requesting socket strips envelope frames is not visible, so no response round trip is stated.
- NetMQMessages.CreateTopicMessage: a null topic event is not modelled.
- Publish fan-out takes no account of a publisher that throws part-way through the loop. Publishers cannot fail in the model.
- NetMQSubscribers.NetMQSubscriber: its base class, Pigeon's own NetMQConnection, is not among the sources. It is assumed to behave like the message router's NetMQConnection (NetMQConnection.cs:58-131): an address set, an IsConnected flag, and InitializeConnection/TerminateConnection calling the overridden SocketAdd/SocketRemove once per address. The model reuses that class as the subscriber's `conn`. The base class's own `disposedValue` and virtual Dispose are modelled by the subscriber's `disposed` flag and Dispose; its message-factory argument and null checks are not modelled.
- The NetMQConnection constructor's null checks are not modelled; it is assumed to check its socket and serializer arguments.
- NetMQSubscribers.NetMQSubscriber: the inherited lifecycle methods are not guarded after Dispose. A caller that initializes the connection again after disposing falls outside the model's invariant.
- NetMQSubscribers.NetMQSubscriber.SocketAdd: the lifecycle's own hook calls are the connection's log. The subscriber's `socketCalls` records only the calls made through the subscriber's own methods.
- Serialization: the default value of the descriptor struct has a null name and is not modelled. Hashing such a value would throw.
- Serialization.HashCode: .NET string hashing is the `hash` parameter.
- Receivers.ReceiverCache and Subscriptions.SubscriptionEventDispatcher are modelled from their unit tests, since their implementations are not part of this model. Three behaviours the tests do not show are chosen to match the sibling caches and dispatchers:
  - the order of the AddReceiver checks;
  - a second registration for a topic type that already has a handler is refused with `Argument`; the tests do not show whether the implementation throws, overrides or ignores it;
  - Receivers.ReceiverCache.AddFactory ignoring a second, different factory for a kind already registered, as the publisher caches do. The tests only add the same factory twice.
- Monitors.MonitorCache.AddMonitor: a monitor is a plain identity, so a null monitor is not modelled. The source stores a null monitor in its set. It then throws NullReference when starting it while running, and in every later start or stop loop.
- RouterPublishers.PublisherCache.AddPublisher and PigeonPublishers.PublisherCache.AddPublisher: a created publisher is identified by its factory and address. So a factory returning null is not modelled; in the source that makes the Publish loop throw NullReference. A factory returning one instance for two addresses is not modelled either.
- Requests.RequestDispatcher.Register, RegisterDelegate and RegisterAsync: a handler is a plain value, so a null handler is not modelled. The source stores a null handler without a check and throws only when a request of that type is handled.
- Examples, the sandbox, the user interface, dependency-injection wiring and the routers are not modelled; they lie outside this core.
