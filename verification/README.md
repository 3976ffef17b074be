# MOSAIC-core: connection lifecycle, channels, signaling, recording

MOSAIC-core is the robot's side of a WebRTC connection. These Dafny modules model its stateful parts and prove what they
keep over every run. WebRTC, the websocket library and OpenCV are an environment that calls back.

| files | what they hold |
|---|---|
| `ConnectorStates.dfy` | the seven states, their wire codes, the lifecycle graph |
| `Lifecycle.dfy` | the lifecycle as a machine that runs one statement at a time, with a call stack, so that callbacks can nest |
| `LifecycleInvariant.dfy` | its inductive invariants: `Always`, kept by every step whatsoever; `Safe`, kept by every step but an exception out of a handler; `Good`, kept exactly while failures are harmless |
| `LifecycleAtomic.dfy` | operations as single steps, and the reduction of every unfailing run to them |
| `LifecycleTheorems.dfy` | the safety theorems |
| `LifecycleEffects.dfy` | what single operations do, field by field |
| `LifecycleNegotiation.dfy` | the answers of a run, read from its callbacks alone |
| `LifecycleFailures.dfy` | what failing announcements and throwing handlers lead to, and which steps break a promise |
| `LifecycleRuns.dfy` | runs that show where an assumption is needed |
| `LifecycleOutcomes.dfy` | every run, with all its failures, as a sequence of operations in single steps, and the other way round |
| `LifecycleObservers.dfy` | the lifetime of data channel observers |
| `LifecycleRecordings.dfy` | what teardowns and shutdowns do to recordings under way |
| `Connector.dfy`, `DataChannels.dfy` | the objects, updated in place, each method proved to do in one step what the machine does |
| `SendQueue.dfy`, `Echo.dfy` | the asynchronous send queue and the echo connector on top of it |
| `Json.dfy` | the converters between JSON values and Python objects |
| `Signaling.dfy`, `SignalingTheorems.dfy`, `SignalingObjects.dfy` | the signaling client and its websocket: events, theorems, objects |
| `Recorder.dfy`, `RecorderObjects.dfy` | the media track handler with its live and recording sinks: calls, theorems, objects |
| `AutoConfigurer.dfy` | resolving and configuring connectors |

Each part has a specification on values (a step function over events and `Run`, `Exec` or `AtomicExec` over sequences of
them), classes whose methods are tied to it by `View`, `Queue`, `Held` or `Filed`, and theorems over all runs. Wherever
possible a theorem compares the run with a reading of the events alone (`Answered`, `Accepted`, `SentDirectly`,
`HeardWhileOpen`, `Prepared`, `Wanted`, `FramesOf`, `LiveFrames`, `ChannelAt`) that knows nothing of the machine.

## Assumptions about the environment

The environment follows the connection states of section 4.3.3 of W3C WebRTC 1.0 and the answering side of section 3.2 of
RFC 8829.

- `InitializeWebRTC` runs once, before anything else. The factory function does that (`Connector.Create`).
- A live connection delivers "connected" and the outcomes of its offer/answer exchange; a closed one does not. Any
  connection ever made may deliver failed, disconnected and closed, also in the middle of a teardown or a shutdown.
- Operations run one at a time, except for those closing callbacks, which may nest to any depth between any two statements
  of a teardown or a shutdown. The queue operations run under their mutex, so there every interleaving is covered.
- An exception may leave any handler being closed, or the closing of the connection (`HandlerThrows`). The theorems that
  exclude it say so (`NoThrow`), and for each of them a run in `LifecycleRuns` shows that it does not hold otherwise:
  `LooseLifecyclePath`, `NegotiationConserved`, `TeardownBeforeCreation` and the last clause of `LifetimeOrdering`.
  `Reduction` and `TeardownIsReentrant` describe teardowns that get to their end; `RunFollows` and `CutTeardownEffect`
  are about all of them. Everything else holds with such exceptions.
- The status frame of an announcement may fail; the state is set all the same and the exception unwinds the operation
  (`AnnounceFails`). In an operation started by a message or the user it is caught further out, and the process goes on.
  In one that a callback of WebRTC started nothing catches it, and the process ends: the machine has no step for a
  failing first announcement of a callback, while one that fails at the end of such a teardown leaves the same state as
  one that goes out. The theorems hold with such failures, except that `Reduction` is about runs without them
  (`AllAnnounced`) and `LifecyclePath` about runs in which every failure is harmless (`TameRun`), as no exception out of
  a handler is; which failures are is proved exactly (`GoodIffTame`).
- Each buffer handed to a channel is completed exactly once, and not before `SendAsync` has returned. The state of a channel
  changes by events of its own, also after `Close`.
- The backlog being empty at every close is a hypothesis where it is used (`CleanCloses`), with the exact condition proved.
- The signaling client is started once. A socket reports its end at most once. An exception on a thread where nothing
  catches it ends the run (`escaped`); a run that has not escaped may contain any failures.
- The order in which a map is iterated is arbitrary: a closing loop takes the handlers in any order.

## Where the code does something else than expected

- A shutdown announces DISCONNECTED before it closes the connection, so nothing is closed (`ShutdownEffect`).
- READY_TO_CONNECT is announced even when the factory could not be created (`MissingFactoryFaults`).
- A status frame that fails ends the operation that announces: an offer is lost with RTC_CONNECTING and no connection
  (`HollowUntilCleared`), a close leaves the client wedged in RTC_DISCONNECTING (`WedgedUntilFreed`), a shutdown releases
  nothing (`HoldingUntilShutdown`). A wedged client is freed by a shutdown, or when its connection comes up after all.
- A data channel that is displaced or closed before its handler takes another one keeps the pointer to a destroyed observer
  (`ChannelReportsToLiveObserver`).
- An exception while closing leaves a live connection held in READY_TO_CONNECT (`TeardownEndsCleanIffNoThrow`). When a
  superseding offer called the teardown, it goes on and replaces that connection by a new one without ever closing it
  (`ThrowingHandlerSkipsClose`).
- A shutdown leaves recordings running (`ShutdownKeepsRecordings`).
- Between two statements of a shutdown a live connection has no signaling client for its candidates (`CandidateWindow`).
- An answer that is ready only after the next session was prepared goes out under the id of that session
  (`LateAnswerUnderNextSession`).
- Closing a channel with a backlog makes the pending completion call through a null channel (`CloseThenCompletion`).
- An error clears the client's connection flag only; it stays mute, and `Stop` no longer closes the socket (`FlagsDiffer`,
  `MuteAfterError`, `StopCloses`). A stopped client may connect again (`StopDoesNotLast`).
- A status replay that fails is swallowed and leaves the connection without a status until the next one
  (`StatusAgreement`).
- The recording setters log an error while recording and go on; without recording support they fail on a null recorder
  (`PathSetAtAnyTime`, `EndingExactly`).
- The registry and the index of the auto-configurer can be equal although two handlers share a label, when one of them is
  filed twice (`SharedNameUnnoticed`).
- A recording opened in the same directory and second as an earlier one overwrites it (`RecordingSurvives`).
- A string key and a byte-string key of a Python dictionary can end up as one JSON member (`AmbiguousHasTwoResults`).
- A connector handed out twice by its factory carries the entry it was given last (`ResolveConnectors`).

## Model

| member | source | states |
|---|---|---|
| `LifecycleTheorems.LifecyclePath` | src/core/peer_connection_manager.cpp:101-294 | over every run in which no exception leaves a handler being closed and announcements fail only where that is harmless, the announced states form a path of the lifecycle graph that ends in the current state; between operations a peer connection exists exactly in RTC_CONNECTING and RTC_CONNECTED |
| `LifecycleTheorems.UnfailingRunIsTame` | src/core/peer_connection_manager.cpp:101-294 | every run without exceptions, whether out of a handler or out of an announcement, is such a run |
| `LifecycleInvariant.GoodIffTame` | src/core/connector_state_manager.cpp:37-42 | a step keeps the graph and the agreement of state and connection if and only if it is no exception out of a handler and no harmful failing announcement; a failed announcement breaks that a connection is held exactly in the active states if and only if what fails is RTC_CONNECTING, RTC_DISCONNECTING, or DISCONNECTED while a connection is held |
| `LifecycleTheorems.LooseLifecyclePath` | src/core/peer_connection_manager.cpp:101-294 | whatever announcements fail, as long as no exception leaves a handler being closed, the states leave the graph only where a connection that was not closed after all comes up, and between operations a connection is held only in RTC_CONNECTING, RTC_CONNECTED, RTC_DISCONNECTING or DISCONNECTED |
| `LifecycleInvariant.StepKeepsSafe` | src/core/peer_connection_manager.cpp:101-318 | every step but an exception out of a handler being closed also keeps the loose path, that connections are held only in states no offer starts from, the observer of the held connection, and the negotiation accounts |
| `LifecycleTheorems.RunKeepsSafe` | src/core/peer_connection_manager.cpp:101-318 | these hold after every run without such an exception, failing announcements included, stopped at any statement |
| `LifecycleInvariant.StepKeepsGood` | src/core/peer_connection_manager.cpp:101-318 | every step whose announcement goes out or fails harmlessly also keeps the intended graph and the agreement of state and connection |
| `LifecycleInvariant.StepKeepsAlways` | src/core/peer_connection_manager.cpp:101-318 | every step whatsoever, exceptions out of handlers and failing announcements included, keeps the call stack, what each statement can rely on, the services, the live connections, the bindings and the routing |
| `LifecycleTheorems.RunKeepsAlways` | src/core/peer_connection_manager.cpp:101-318 | these hold after every run, stopped at any statement |
| `LifecycleInvariant.StepAnnounces` | src/core/connector_state_manager.cpp:37-42 | every step announces exactly the state its statement announces, whether or not the frame goes out, and the state is always the one announced last |
| `LifecycleTheorems.LifetimeOrdering` | src/core/peer_connection_manager.cpp:143-190 | at every statement of every run, shutdown included, a connection the library still runs is the one the program holds, and the factory and the three threads are alive; a live factory has its threads; its own observer is alive too unless an exception left a handler being closed |
| `LifecycleTheorems.NoLeakedBindings` | src/core/mosaic_connector.cpp:74-125 | at every statement of every run before shutdown, exceptions included, when there is no peer connection no registered handler holds a data channel or a track source, however many handlers there are and wherever their track creation failed |
| `LifecycleTheorems.NegotiationConserved` | src/core/peer_connection_manager.cpp:32-88 | without an exception out of a handler being closed: accepted offers = answers passed to signaling + failed exchanges + exchanges cut off by a close or shutdown + at most one in progress; each answer was made by, and goes out for, the connection created for its own offer, and none answers twice |
| `LifecycleEffects.OfferIsAnswered` | src/core/peer_connection_manager.cpp:32-88 | from every reachable state between operations in which a connection is live and about to have its offer set: the three callbacks of its exchange can come, send exactly one answer, the one that connection made, for its own offer, and make the sources of all track handlers that return one; without a description they send nothing and count one failure |
| `LifecycleEffects.FailedStageEffect` | src/core/peer_connection_manager.cpp:32-88 | a failure callback of any of the three steps counts one failure and sends nothing |
| `LifecycleNegotiation.AnswersOfRun` | src/core/peer_connection_manager.cpp:55-61 | over every run, exceptions included, the answers sent are, in order, one for each local description set whose connection made a description last, each for the offer of that connection; the failures are all other ends of an exchange: a reading of the callbacks alone |
| `LifecycleTheorems.ConnectionsConserved` | src/core/peer_connection_manager.cpp:270-318 | at every statement of every run, exceptions included: connections created = closed + dropped + the held one if it is live, which between operations it is; a closed connection was closed exactly once and no other ever |
| `LifecycleTheorems.TeardownBeforeCreation` | src/core/peer_connection_manager.cpp:167-190 | without an exception out of a handler being closed, at the statement that creates a connection no other one is live, nothing is bound, and RTC_CONNECTING has been announced |
| `LifecycleTheorems.TeardownEffect` | src/core/peer_connection_manager.cpp:270-294 | a teardown whose announcements go out announces RTC_DISCONNECTING then READY_TO_CONNECT, closes the connection, if there is one, and every handler once, frees every binding, and touches no other connection, no answer and no key |
| `LifecycleTheorems.TeardownIsReentrant` | src/core/peer_connection_observer.cpp:55-63 | with closing callbacks nested any number of times at any statement of a teardown, started by a message, a callback or a superseding offer, it ends in exactly the state of one undisturbed teardown, whether or not its end can be announced |
| `LifecycleAtomic.NestedCallbackIsNoOp` | src/core/peer_connection_manager.cpp:270-274 | a closing callback that arrives while a teardown or a shutdown runs changes nothing |
| `LifecycleAtomic.Reduction` | src/core/peer_connection_manager.cpp:101-318 | every interleaved run without failures leads, once its last operation is completed, to the state reached by its top-level operations alone, each taken as one step |
| `LifecycleOutcomes.RunFollows` | src/core/peer_connection_manager.cpp:101-318 | every legal run whatsoever, with nested callbacks, throwing handlers and failing announcements, leads, once its last operation is completed, to a state reached by its operations one after the other, each in one step that goes in one of the ways in which that operation can go |
| `LifecycleOutcomes.FollowedByRun` | src/core/peer_connection_manager.cpp:101-318 | the other half: every sequence of operations, each of which goes in any of its ways, is what some legal run amounts to |
| `LifecycleOutcomes.OutcomeReached` | src/core/peer_connection_manager.cpp:101-318 | the machine can take every operation in every way in which it can go: whichever of its announcements fail, and at whichever handler an exception cuts its teardown short |
| `LifecycleAtomic.OperationEnds` | src/core/peer_connection_manager.cpp:101-318 | from every reachable statement the running operation can finish by its own statements, and does so in the state the one-step form gives |
| `LifecycleTheorems.OfferIsAtomic` | src/core/peer_connection_manager.cpp:167-198 | handling an offer is a complete teardown of the connection in its way, if any, followed by the offer itself |
| `LifecycleTheorems.OfferAccepted` | src/core/peer_connection_manager.cpp:167-198 | an offer gets a new connection, which the program then holds, if and only if the state is READY_TO_CONNECT, or RTC_CONNECTING or RTC_CONNECTED with a connection held, and the factory exists and creates one; in every other state, those left by failed announcements included, it changes nothing |
| `LifecycleEffects.OfferEffect` | src/core/peer_connection_manager.cpp:167-198 | field by field, an offer in READY_TO_CONNECT makes a new observer, announces RTC_CONNECTING, and holds a new connection for that offer, or announces RTC_FAILED when none is created, or fails on a missing factory |
| `LifecycleEffects.SupersedingOfferEffect` | src/core/peer_connection_manager.cpp:167-198 | one that finds a connection closes it once, and announces RTC_DISCONNECTING, READY_TO_CONNECT and RTC_CONNECTING before it holds the new one |
| `LifecycleEffects.CallbackEffect` | src/core/peer_connection_observer.cpp:43-65 | between operations each of failed, disconnected and closed completes, in RTC_CONNECTING and RTC_CONNECTED, to READY_TO_CONNECT without a connection, with the connection closed once and every handler free, and does nothing in any other state; connected announces exactly RTC_CONNECTED; new and connecting change nothing |
| `LifecycleEffects.CallbacksNestAnywhere` | src/core/peer_connection_observer.cpp:55-63 | each of those three can come at every statement of a teardown or a shutdown, from any connection ever made, and then changes nothing |
| `LifecycleEffects.CloseMessageEffect` | src/core/peer_connection_manager.cpp:270-294 | a close message does the same as these three |
| `LifecycleEffects.InitializeEffect` | src/core/peer_connection_manager.cpp:101-141 | field by field, the initialisation starts the three threads, has the factory or not, and announces READY_TO_CONNECT alone |
| `LifecycleTheorems.FailedAndDisconnectedRejectOffers` | src/core/peer_connection_manager.cpp:171-190 | after RTC_FAILED or DISCONNECTED without a connection no run ever creates a connection again or announces anything but DISCONNECTED, exceptions included |
| `LifecycleTheorems.ShutdownEffect` | src/core/mosaic_connector.cpp:65-72 | a shutdown whose announcement goes out announces DISCONNECTED first, so the guard of ClosePeerConnection skips the teardown: the connection is dropped without being closed and every handler keeps exactly what it held; handlers are free afterwards iff they were before |
| `LifecycleInvariant.StoppedUnlessShutdownFails` | src/core/mosaic_connector.cpp:65-72 | that DISCONNECTED between operations means everything is released is kept by every step but the failing announcement of a shutdown while something is still there, which always breaks it |
| `LifecycleTheorems.DisconnectedMeansReleased` | src/core/mosaic_connector.cpp:65-72 | so over every run without such a failure connection, observer, factory and threads are gone in DISCONNECTED |
| `LifecycleTheorems.FaultExactly` | src/core/peer_connection_manager.cpp:143-165 | in every reachable state a step reaches a null pointer if and only if it asks a missing factory for a connection |
| `LifecycleTheorems.NoFault` | src/core/peer_connection_manager.cpp:135-165 | unless the factory could not be created no run reaches a null pointer, exceptions included |
| `LifecycleTheorems.CandidateWindow` | src/core/mosaic_connector.cpp:65-72 | over every run a connection the library still runs has the signaling client to send its candidates through, except exactly between the statement of a shutdown that drops the client and the one that drops the connection |
| `LifecycleRuns.MissingFactoryFaults` | src/core/peer_connection_manager.cpp:135-157 | the condition of NoFault is needed: READY_TO_CONNECT is announced without a factory and the first offer then fails on it |
| `LifecycleTheorems.Routing` | src/handlers/data_channel/data_channel_handler.cpp:56-100 | in every reachable state, exceptions included, a bound channel has the label of its handler and the observer its handler holds now, and no channel is bound to two handlers |
| `LifecycleTheorems.OpenNeverDisplaced` | src/core/mosaic_connector.cpp:74-92 | a handler whose channel is in state Open loses it only when it is closed, by its owner or by a teardown |
| `LifecycleEffects.ArrivalEffect` | src/core/mosaic_connector.cpp:74-92 | an arriving channel is left alone, with no binding changed, when its label is unknown or the handler holds a channel in state Open; otherwise it is the one the handler holds afterwards, with a new observer |
| `LifecycleEffects.UserCloseEffect` | src/handlers/data_channel/data_channel_handler.cpp:102-109 | the owner of a handler gives up its channel and nothing else |
| `LifecycleEffects.RegistrationEffect` | src/core/mosaic_connector.cpp:33-51 | a handler is registered under a new name, holding nothing, and not at all under a name that is taken |
| `LifecycleTheorems.FirstHandlerKept` | src/core/mosaic_connector.cpp:33-51 | the first handler registered for a label or a track name keeps it over every run, exceptions included |
| `LifecycleFailures.TeardownEndsCleanIffNoThrow` | src/core/peer_connection_manager.cpp:277-293 | any teardown that has announced RTC_DISCONNECTING, one that an offer waits for included, ends in READY_TO_CONNECT whatever happens, its last announcement failing included, and without a connection if and only if it had none or no exception left a handler being closed |
| `LifecycleOutcomes.CutTeardownEffect` | src/core/peer_connection_manager.cpp:277-293 | a teardown cut short by an exception has closed exactly the handlers before it, and keeps the connection live and held as it was |
| `LifecycleFailures.AccountedUnlessOfferedAgain` | src/core/peer_connection_manager.cpp:185-198 | in every reachable state the negotiation accounts are put out by a step if and only if it gives an offer that created no connection to one still held whose exchange is over |
| `LifecycleFailures.ObservedUnlessReplaced` | src/core/peer_connection_manager.cpp:151-156 | in every reachable state the held connection loses its own observer by a step if and only if a new observer is made while it is held |
| `LifecycleFailures.WedgedUntilFreed` | src/core/peer_connection_manager.cpp:270-276 | a close whose RTC_DISCONNECTING is not announced leaves a client that does nothing on any close or offer, announces nothing and keeps its connection, until a shutdown is called or the connection it failed to close comes up |
| `LifecycleFailures.WedgedStep` | src/core/peer_connection_manager.cpp:247-276 | a single step of a wedged client ends this state if and only if it is a shutdown, announced or not, or a connected callback |
| `LifecycleFailures.HollowUntilCleared` | src/core/peer_connection_manager.cpp:175-183 | an offer whose RTC_CONNECTING is not announced leaves a client without a connection that rejects every offer until it is closed, an earlier connection calls back to close it, or a shutdown is called |
| `LifecycleFailures.HollowStep` | src/core/peer_connection_manager.cpp:175-183 | a single step of a client in RTC_CONNECTING without a connection ends this state if and only if it is a close, a closing callback or a shutdown, announced or not |
| `LifecycleFailures.HoldingUntilShutdown` | src/core/mosaic_connector.cpp:65-72 | only a shutdown whose DISCONNECTED is announced releases the factory, the threads or the signaling client, however often one has failed before |
| `LifecycleRuns.FailedConnectingRun` | src/core/peer_connection_manager.cpp:180-183 | a run from the start into RTC_CONNECTING without a connection |
| `LifecycleRuns.FailedDisconnectingRun` | src/core/peer_connection_manager.cpp:276-276 | a run from the start into a wedged client with a live connection |
| `LifecycleRuns.FailedDisconnectingLeavesGraph` | src/core/peer_connection_manager.cpp:247-251 | a run from there out of the lifecycle graph, so the hypothesis of the path theorem is needed |
| `LifecycleRuns.FailedShutdownRun` | src/core/mosaic_connector.cpp:65-70 | a run in which a failed shutdown leaves everything held and a live connection in DISCONNECTED |
| `LifecycleObservers.ChannelReportsToLiveObserver` | src/handlers/data_channel/data_channel_handler.cpp:64-81 | over every run, exceptions and failed announcements included, a channel that was given an observer still reports to one that exists if and only if no later channel of its label was given one |
| `LifecycleObservers.DisplacedChannelDangles` | src/core/mosaic_connector.cpp:74-92 | a run in which a channel that is not open yet is displaced and left with a destroyed observer |
| `LifecycleRuns.ThrowingHandlerKeepsConnection` | src/core/peer_connection_manager.cpp:277-293 | a run in which one throwing handler leaves a live connection behind in READY_TO_CONNECT |
| `LifecycleRuns.ThrowingHandlerLosesObserver` | src/core/peer_connection_manager.cpp:151-156 | in that run the next offer replaces the observer which the old connection still calls, and reaches the creating statement while that one is live, so LifetimeOrdering and TeardownBeforeCreation need their assumption |
| `LifecycleRuns.ThrowingHandlerLeavesGraph` | src/core/peer_connection_manager.cpp:247-251 | in that run the connection comes up in READY_TO_CONNECT, so LooseLifecyclePath needs its assumption |
| `LifecycleRuns.ThrowingHandlerLosesCount` | src/core/peer_connection_manager.cpp:185-198 | in that run the exchange fails and the next offer, which creates no connection, begins it again, so NegotiationConserved needs its assumption |
| `LifecycleRuns.ThrowingHandlerSkipsClose` | src/core/peer_connection_manager.cpp:167-190 | a run in which a single superseding offer ends in RTC_CONNECTING with a new connection, and the old one was never closed |
| `Connector.PeerConnectionManager.ClosePeerConnection` | src/core/peer_connection_manager.cpp:270-294 | in place, with really nested recursive calls from the library between any two handlers and statements, it does exactly one teardown, cut short where a handler or the connection throws; nothing outside the two active states; and it stops in RTC_DISCONNECTING with an exception when that is not announced |
| `Connector.PeerConnectionManager.TearDown` | src/core/peer_connection_manager.cpp:277-293 | from the try block on it closes handlers and connection up to the first exception, which is caught, and stores READY_TO_CONNECT, whether or not that is announced |
| `Connector.PeerConnectionManager.CloseConnection` | src/core/peer_connection_manager.cpp:284-287 | closes the connection, which is still held while Close calls back, and releases it, unless Close throws |
| `Connector.PeerConnectionManager.CloseHandlers` | src/core/peer_connection_manager.cpp:279-280 | closes every track handler and then every channel handler once, with callbacks between any two, up to the first that throws |
| `Connector.PeerConnectionManager.HandleSdpOffer` | src/core/peer_connection_manager.cpp:167-198 | teardown first, rejection outside READY_TO_CONNECT, RTC_FAILED without a connection; each announcement that fails ends it there with an exception |
| `Connector.PeerConnectionManager.CreatePeerConnection` | src/core/peer_connection_manager.cpp:143-165 | a new observer is made first, also when the creation then fails; a missing factory is dereferenced |
| `Connector.PeerConnectionManager.AfterSetSessionDescription` | src/core/peer_connection_manager.cpp:200-212 | makes the sources of all track handlers and asks the connection held now for an answer |
| `Connector.PeerConnectionManager.AfterCreateSdpAnswer` | src/core/peer_connection_manager.cpp:214-223 | sets the description that came in on the connection held now |
| `Connector.PeerConnectionManager.LocalDescriptionSet` | src/core/peer_connection_manager.cpp:55-61 | passes the answer on, as one more answer for the offer of its connection, or counts a failure when there is no description |
| `Connector.PeerConnectionManager.InitializeWebRTC` | src/core/peer_connection_manager.cpp:101-141 | starts the threads, makes the factory or not, and stores READY_TO_CONNECT either way |
| `Connector.PeerConnectionManager.DestroyPeerConnectionManager` | src/core/peer_connection_manager.cpp:296-318 | drops the connection without closing it, then the observer, the factory and the threads |
| `Connector.PeerConnectionManager.OnConnectionConnected` | src/core/peer_connection_manager.cpp:247-251 | stores RTC_CONNECTED in any state and throws when it is not announced |
| `Connector.PeerConnectionObserver.OnConnectionChange` | src/core/peer_connection_observer.cpp:43-65 | connected is announced; failed, disconnected and closed each tear down and leave READY_TO_CONNECT, or RTC_DISCONNECTING when that is not announced; new and connecting do nothing |
| `LifecycleOutcomes.ChangeIsAtomic` | src/core/peer_connection_observer.cpp:43-65 | that is the atomic step of the lifecycle machine for the same callback |
| `LifecycleOutcomes.CloseIsAtomic` | src/core/peer_connection_manager.cpp:270-294 | a teardown as the objects do it is the atomic step of the machine for a close message |
| `LifecycleOutcomes.ShutdownIsAtomic` | src/core/mosaic_connector.cpp:65-72 | a shutdown as the objects do it is the atomic step of the machine |
| `LifecycleOutcomes.OfferOutcomeIsAtomic` | src/core/peer_connection_manager.cpp:167-198 | an offer as the objects do it, when nothing fails, is the atomic step of the machine |
| `Connector.MosaicConnector.OnDataChannel` | src/core/mosaic_connector.cpp:74-92 | an unknown label and an open channel in place are left alone; otherwise the channel replaces what the handler held and gets a new observer |
| `Connector.MosaicConnector.AddDataChannelHandler` | src/core/mosaic_connector.cpp:33-41 | a taken label stays with its first handler |
| `Connector.MosaicConnector.AddMediaTrackHandler` | src/core/mosaic_connector.cpp:43-51 | a taken track name stays with its first handler |
| `Connector.MosaicConnector.CreateAllMediaTracks` | src/core/mosaic_connector.cpp:94-113 | every track handler that returns a source holds it, whatever becomes of its track |
| `Connector.MosaicConnector.CloseAllMediaTracks` | src/core/mosaic_connector.cpp:115-119 | every track handler, and nothing else, is closed once, with callbacks after each, up to the first that throws, and it throws exactly when one of them does |
| `Connector.MosaicConnector.CloseAllDataChannels` | src/core/mosaic_connector.cpp:121-125 | the same of the data channel handlers |
| `Connector.MosaicConnector.ShuttingDown` | src/core/mosaic_connector.cpp:65-72 | stores DISCONNECTED; when that is announced drops everything without closing it, otherwise throws and touches nothing more |
| `Connector.Create` | src/core/mosaic_connector_factory.cpp:11-39 | null without an authenticator; otherwise the machine's client after one initialisation, unless the first announcement throws |
| `Connector.ConnectorStateManager.SetState` | src/core/connector_state_manager.cpp:37-42 | the state is stored before the frame is sent, so an exception leaves it set |
| `LifecycleRecordings.RecordingStopsIffClosed` | src/handlers/media_track/media_track_handler.cpp:190-194 | over every run of the lifecycle, with frames and settings arriving at any point, a recording that its owner leaves alone is stopped with all files released if its handler was closed in the run, and otherwise goes on exactly as before |
| `LifecycleRecordings.TeardownStopsRecordings` | src/core/peer_connection_manager.cpp:279-279 | a teardown in which nothing throws stops the recording of every track handler and gives up its source |
| `LifecycleRecordings.ShutdownKeepsRecordings` | src/core/mosaic_connector.cpp:65-72 | a shutdown stops no recording: one under way goes on, its file unreleased |
| `LifecycleRecordings.LinkedRun` | src/handlers/media_track/media_track_handler.cpp:68-76 | over every run the lifecycle and the handlers agree about which handlers there are and which of them hold a source |
| `ConnectorStates.CodesRoundTrip` | src/core/connector_state_manager.cpp:92-111 | the status codes are READY_TO_CONNECT 0, RTC_CONNECTING 1, RTC_CONNECTED 2, RTC_DISCONNECTING 3, RTC_FAILED 4, DISCONNECTED 5, INITIALIZING 6, none of them -1, and each decodes to its state, so the encoding is injective |
| `SendQueue.Fifo` | src/handlers/data_channel/data_channel_handler.cpp:123-150 | over every interleaving of asynchronous sends, synchronous sends, completions with success or error and channel changes that does not end the process: buffers handed over + buffers waiting = buffers sent asynchronously while open, in order; at most one in flight; not sending implies an empty queue |
| `SendQueue.DirectSends` | src/handlers/data_channel/data_channel_handler.cpp:119-121 | synchronous sends go out, in order, each on the channel bound when it is made: a reading of the events alone |
| `SendQueue.FifoFrom` | src/handlers/data_channel/data_channel_handler.cpp:123-150 | the same from any state in which the queue is consistent |
| `SendQueue.StepInOrder` | src/handlers/data_channel/data_channel_handler.cpp:123-150 | one event appends exactly what it sent to the handed-over and waiting buffers, and ends the process exactly when a completion finds a backlog and no channel |
| `SendQueue.Drains` | src/handlers/data_channel/data_channel_handler.cpp:129-149 | k completions with any mix of errors take the backlog down by exactly k in order, and the queue is idle exactly after as many completions as there were buffers outstanding |
| `SendQueue.CleanClosesNeverCrash` | src/handlers/data_channel/data_channel_handler.cpp:102-105 | when every close finds nothing waiting no run calls through a null channel |
| `SendQueue.CloseThenCompletion` | src/handlers/data_channel/data_channel_handler.cpp:140-149 | a close followed by the completion of the buffer in flight calls through a null channel if and only if something was waiting |
| `SendQueue.BacklogMovesToNextChannel` | src/handlers/data_channel/data_channel_handler.cpp:102-150 | a backlog left by a close goes out on the next channel bound: k completions, with any results, hand it the first k waiting buffers in order, and the rest still waits |
| `DataChannels.DataChannelHandler.SetDataChannelInterface` | src/handlers/data_channel/data_channel_handler.cpp:56-62 | a null channel is refused with an exception and changes nothing; another one is bound and the queue left alone |
| `DataChannels.DataChannelHandler.RegisterDataChannelObserver` | src/handlers/data_channel/data_channel_handler.cpp:64-81 | the new observer is both the handler's and the channel's; without a channel it throws and changes nothing |
| `DataChannels.DataChannelHandler.CloseDataChannel` | src/handlers/data_channel/data_channel_handler.cpp:102-109 | gives the channel up and leaves queue and flag alone |
| `DataChannels.DataChannelHandler.ProcessQueue` | src/handlers/data_channel/data_channel_handler.cpp:129-150 | pops and hands over the first buffer unless one is in flight or none waits |
| `DataChannels.DataChannelHandler.SendAsync` | src/handlers/data_channel/data_channel_handler.cpp:123-127 | enqueues at the end and processes |
| `DataChannels.DataChannelHandler.OnSendComplete` | src/handlers/data_channel/data_channel_handler.cpp:140-149 | clears the flag whatever the result and processes |
| `DataChannels.DataChannelHandler.Send` | src/handlers/data_channel/data_channel_sendable.cpp:18-28 | nothing happens unless the channel bound is in state Open; a synchronous buffer then goes out on that channel, an asynchronous one to the end of the queue, whose first goes out when none is in flight |
| `DataChannels.DataChannelHandler.SendString` | src/handlers/data_channel/data_channel_sendable.cpp:30-37 | as a text buffer |
| `DataChannels.DataChannelHandler.SendStringAsByte` | src/handlers/data_channel/data_channel_sendable.cpp:39-46 | as a binary buffer |
| `Echo.EchoEndToEnd` | include/mosaic/auto_configurer/impl/connection_check_dc_handler.hpp:36-38 | texts handed over + texts waiting = texts received while the sender's channel was open, in order and content; so the transmitted ones are a prefix of them, all sent as text and none directly |
| `Echo.AcceptedIsHeard` | src/handlers/data_channel/data_channel_receivable.cpp:12-14 | what the echo enqueues is what it hears while open, and never binary |
| `Echo.ConnectionCheckReceiver.OnMessage` | include/mosaic/handlers/data_channel/data_channel_receivable.hpp:32-39 | one message received is one text sent through the sender's queue |
| `Json.PyRoundTrip` | python/bindings/bind_data_channel.cpp:21-76 | Python to JSON and back, whatever the order of the dictionaries, is the identity if and only if the object is made of None, bool, int, float, str, list and dict with string keys only (whenever it can be converted at all) |
| `Json.JsonRoundTrip` | python/bindings/bind_data_channel.cpp:21-76 | JSON to Python and back is possible if and only if every unsigned number fits in 64 signed bits, and then gives the same tree with those numbers signed and nothing else |
| `Json.OneResult` | python/bindings/bind_data_channel.cpp:52-76 | the converted value is unique when no two keys of a dictionary cast to the same string |
| `Json.AmbiguousHasTwoResults` | python/bindings/bind_data_channel.cpp:71-72 | otherwise it may depend on the order of the dictionary: a string key and a byte-string key can name one member |
| `Json.BoolBeforeInt` | python/bindings/bind_data_channel.cpp:55-58 | for such objects, testing for int before bool gives a different result if and only if a bool occurs somewhere in the object |
| `Json.ConvertsEachKind` | python/bindings/bind_data_channel.cpp:21-43 | a value of each kind becomes the Python value of that kind, in a list that keeps its order |
| `Json.ConvertsEachKindBack` | python/bindings/bind_data_channel.cpp:52-63 | and the other way; an object of no known kind becomes null |
| `Json.ConvertsMembers` | python/bindings/bind_data_channel.cpp:44-46 | members keep their names |
| `Json.ArrayKeepsLast` | python/bindings/bind_data_channel.cpp:94-99 | of an array that goes through the caster and back nothing but the last element is left, under the empty name |
| `Json.PyobjToJson` | python/bindings/bind_data_channel.cpp:52-76 | throws if and only if some integer does not fit or some key does not cast to a string, at any depth; otherwise the result matches the object, a later key winning |
| `Json.LoadedRoundTrip` | python/bindings/bind_data_channel.cpp:83-99 | a Python dictionary survives the type caster if and only if it is of known kinds with string keys |
| `Json.JsonToPyobj` | python/bindings/bind_data_channel.cpp:21-50 | the loops build exactly the converted list or dictionary |
| `Json.CasterRoundTrip` | python/bindings/bind_data_channel.cpp:83-99 | through the type caster a JSON tree survives, with signed numbers, if and only if it is an object |
| `Json.Load` | python/bindings/bind_data_channel.cpp:84-91 | anything but a dictionary is refused without an exception, a dictionary throws exactly when it cannot be converted |
| `Json.Cast` | python/bindings/bind_data_channel.cpp:94-99 | array elements all land under the empty name, the last one wins, and scalars become an empty dictionary |
| `SignalingTheorems.StatusAgreement` | src/signaling/signaling_client.cpp:76-116 | after every run the recorded status is -1 or the manager's code; a client that takes itself for connected has a socket up; and once a state is recorded the last status frame on this connection encodes the manager's state, unless the replay of this connection was lost and nothing was sent since, exactly when there is none on it |
| `SignalingTheorems.StateIsRecorded` | src/signaling/signaling_client.cpp:76-77 | the recorded code is that of the manager's state as soon as one was set or broadcast, and -1 before |
| `SignalingTheorems.StepKeepsGood` | src/signaling/websocket_client_impl.cpp:47-101 | every event keeps the invariant of flags, sockets, wire and status |
| `SignalingTheorems.EveryStatusGoesOut` | src/signaling/signaling_client.cpp:76-89 | as long as the client takes itself for connected, the status frames on the connection grow by exactly the states set or broadcast, in order |
| `SignalingTheorems.OneConnection` | src/signaling/websocket_client_impl.cpp:178-214 | at most one reconnection waits, and only the newest socket can still report its end |
| `SignalingTheorems.FlagsDiffer` | src/signaling/signaling_client.cpp:106-121 | while the socket is up, the client takes itself for connected if and only if no error was reported since the last attempt to connect |
| `SignalingTheorems.MuteAfterError` | src/signaling/signaling_client.cpp:118-121 | after an error nothing but answers to pings goes out until a new connection is attempted |
| `SignalingTheorems.StopCloses` | src/signaling/signaling_client.cpp:29-34 | Stop leaves the socket up if and only if it was up and an error had cleared the client's flag; it throws if and only if the flag is set and closing throws, and otherwise the flag is clear afterwards |
| `SignalingTheorems.StopDoesNotLast` | src/signaling/websocket_client_impl.cpp:178-214 | a stopped client connects again after the library reports the socket closed |
| `SignalingTheorems.Correlation` | src/signaling/signaling_client.cpp:36-74 | every answer and candidate frame ever sent left at an answer or candidate event of its own, under the non-empty id of the latest prepare_connection message handled before that very event |
| `SignalingTheorems.AnswerInSessionOfItsOffer` | src/signaling/signaling_client.cpp:36-51 | the offer an answer was made for was handled at an earlier event, and the answer goes out under the id of that offer's session if and only if no prepare_connection was handled in between, or the last one named the same id |
| `SignalingTheorems.LateAnswerUnderNextSession` | src/signaling/signaling_client.cpp:187-189 | a run in which an answer goes out under the id of the next session |
| `SignalingTheorems.SentUnderPrepared` | src/signaling/signaling_client.cpp:36-74 | one event puts at most one frame on the wire; one with an id comes from an answer or a candidate, under the prepared id |
| `SignalingTheorems.CommandsInOrder` | src/signaling/signaling_client.cpp:153-228 | the calls made into the connector and the authenticator are those that the type and the members of the messages received ask for, each once, in the order of the messages, and no other |
| `SignalingTheorems.ReactionsExactly` | src/signaling/signaling_client.cpp:140-228 | the reaction to everything that can come in, told from its type and members: an offer, a candidate, a close, an authentication call, a reply to a ping, a new id, or an exception follows if and only if it is a text message of the one type for it whose members needed can, or for the exception cannot, be read; anything else is ignored, an unknown type included |
| `SignalingTheorems.FailedAnnouncement` | src/signaling/websocket_client_impl.cpp:103-117 | an announcement throws if and only if the client takes itself for connected and the send fails; inside a message handler the state is then set, the client mute and the socket still up |
| `SignalingTheorems.AnswerGoesOut` | src/signaling/signaling_client.cpp:36-51 | an answer goes out if and only if the client takes itself for connected, an id is prepared and the send succeeds |
| `SignalingTheorems.CandidateGoesOut` | src/signaling/signaling_client.cpp:53-74 | and so does a candidate |
| `SignalingTheorems.PingIsAnswered` | src/signaling/signaling_client.cpp:181-185 | a ping is answered if and only if the socket is up and the send succeeds, even when the client takes itself for disconnected |
| `SignalingObjects.WebSocketClientImpl.ConnectInternal` | src/signaling/websocket_client_impl.cpp:47-80 | a new socket; on success both flags are set before the replay, whose failure is swallowed |
| `SignalingObjects.WebSocketClientImpl.Disconnect` | src/signaling/websocket_client_impl.cpp:82-101 | the flag goes first; the client is told exactly when the closing completes |
| `SignalingObjects.WebSocketClientImpl.Send` | src/signaling/websocket_client_impl.cpp:103-117 | nothing when not connected; otherwise a frame or an exception |
| `SignalingObjects.WebSocketClientImpl.HandleMessage` | src/signaling/websocket_client_impl.cpp:140-176 | a transport ping or close is answered, a pong ignored, a text handled; an exception out of any of these ends in onError |
| `SignalingObjects.WebSocketClientImpl.HandleClose` | src/signaling/websocket_client_impl.cpp:178-214 | clears both flags and starts one reconnection |
| `SignalingObjects.SignalingClient.Stop` | src/signaling/signaling_client.cpp:29-34 | disconnects only when the client's own flag is set |
| `SignalingObjects.SignalingClient.SendState` | src/signaling/signaling_client.cpp:76-89 | records the code before it looks at the flag |
| `SignalingObjects.SignalingClient.OnConnected` | src/signaling/signaling_client.cpp:106-111 | sets the flag and replays a recorded code |
| `SignalingObjects.SignalingClient.SendSdpAnswer` | src/signaling/signaling_client.cpp:36-51 | needs the flag and an id |
| `SignalingObjects.SignalingClient.SendIceCandidate` | src/signaling/signaling_client.cpp:53-74 | needs the flag and an id |
| `SignalingObjects.SignalingClient.OnMessage` | src/signaling/signaling_client.cpp:153-173 | one reaction for each message type, in the order of the tests |
| `SignalingObjects.SignalingClient.HandleAuthorizationMessage` | src/signaling/signaling_client.cpp:218-228 | a request and any other authorization message are passed on; a response only with code 100, and one that cannot be read as a number throws |
| `SignalingObjects.SignalingClient.HandlePrepareConnection` | src/signaling/signaling_client.cpp:187-189 | the id is replaced, by the empty one when it is missing, unless it cannot be read |
| `SignalingObjects.StatusSender.SetState` | src/core/connector_state_manager.cpp:37-42 | stores the state, then sends it |
| `SignalingObjects.StatusSender.StateBroadcastWorker` | src/core/connector_state_manager.cpp:27-35 | sends the state found at each wake-up until the first exception |
| `SignalingObjects.BroadcastsSendState` | src/core/connector_state_manager.cpp:27-35 | every wake-up of a connected client sends the state it finds, once, up to the first send that fails, which ends the thread |
| `Recorder.FilesHoldWhatWasRecorded` | src/handlers/media_track/recordable.cpp:44-74 | over every sequence of calls and failed openings: the writer is open exactly when the recording is not stopped; there is one file for each opening, with the settings in force at that moment, holding in order exactly the frames sent, or passed to RecordFrame directly, while recording since then, released unless still recorded to |
| `Recorder.EndingExactly` | src/handlers/media_track/recordable.cpp:28-74 | how any call ends after any history: a frame never meets a closed writer; StartRecording throws exactly on a failed opening while stopped; the path setter throws exactly when the check of the path does; the two setters fail on a null recorder exactly when recording is not supported and the path, if any, is usable |
| `Recorder.FailedOpeningLeavesNoTrace` | src/handlers/media_track/video_recorder.cpp:30-39 | a failed opening, wherever it occurs in a sequence of calls, can be taken out of it without changing where the handler ends |
| `Recorder.RecordingSurvives` | src/handlers/media_track/video_recorder.cpp:67-78 | a recording is still on the disk if and only if no later one was opened in the same directory and second |
| `Recorder.NothingRecorded` | src/handlers/media_track/recordable.cpp:16-26 | without recording support, or without a usable default directory, there is never a file |
| `Recorder.PathSetAtAnyTime` | src/handlers/media_track/recordable.cpp:28-42 | the logged error of the setter has no effect: a path set in the middle of a recording leaves the open file alone and is the path of the next one |
| `Recorder.LiveTrackGetsItsFrames` | src/handlers/media_track/media_track_handler.cpp:38-62 | the live track gets exactly the frames sent while a source had been made since the last close, the last call since then had set it running, and none had asked it to stop without taking that back; read from the calls alone |
| `Recorder.RecordingIgnoresLive` | src/handlers/media_track/media_track_handler.cpp:170-178 | every file is the same when the live track is never set up |
| `RecorderObjects.VideoRecorder.Start` | src/handlers/media_track/video_recorder.cpp:30-39 | opens only a closed writer and throws when that fails |
| `RecorderObjects.VideoRecorder.SaveFrame` | src/handlers/media_track/video_recorder.cpp:47-53 | throws on a closed writer |
| `RecorderObjects.Recordable.StartRecording` | src/handlers/media_track/recordable.cpp:44-49 | the state changes only after the writer has started, from a pause as well |
| `RecorderObjects.Recordable.RecordFrame` | src/handlers/media_track/recordable.cpp:70-74 | only while recording |
| `RecorderObjects.Recordable.SetRecordFilePath` | src/handlers/media_track/recordable.cpp:28-35 | sets any usable path in any state; an exception out of the check leaves everything as it was |
| `RecorderObjects.AMediaTrackHandler.SendFrame` | src/handlers/media_track/media_track_handler.cpp:170-178 | the live source, if there is one that runs and is not stopped, and then the recording |
| `RecorderObjects.AMediaTrackHandler.CreateVideoTrackSource` | src/handlers/media_track/media_track_handler.cpp:68-76 | a source still held is used again |
| `RecorderObjects.AMediaTrackHandler.Close` | src/handlers/media_track/media_track_handler.cpp:190-194 | stops the recording and gives the source up |
| `AutoConfigurer.KeptExactly` | src/auto_configurer/auto_configurer.cpp:40-62 | the accepted entries are exactly those whose type is supported, whose factory gave a connector and whose validation passed, each once, in the order of the configuration |
| `AutoConfigurer.AutoConfigurer.ResolveConnectors` | src/auto_configurer/auto_configurer.cpp:38-63 | appends the connectors of exactly these entries; a connector not handed out again later carries its own entry |
| `AutoConfigurer.AutoConfigurer.ConfigureConnectors` | src/auto_configurer/auto_configurer.cpp:65-99 | every handler of every connector that the loop comes to, in a list up to the first null member, has its name in the registry and in the index, and no name is there for another reason; the registry keeps what it had and holds the first handler of a new name, the index the last handler of every name, told from the connectors themselves; the loop ends with the first connector whose Configure throws or whose null track handler or list member is called |
| `AutoConfigurer.ChannelsAreFiled` | src/auto_configurer/auto_configurer.cpp:73-87 | filing the listed data channel handlers one after the other does exactly that |
| `AutoConfigurer.TracksAreFiled` | src/auto_configurer/auto_configurer.cpp:88-91 | and so does filing the track handlers |
| `AutoConfigurer.RegistryHoldsFirst` | src/core/mosaic_connector.cpp:33-51 | under a name it did not know, the registry holds the first handler of that name |
| `AutoConfigurer.IndexHoldsLast` | src/auto_configurer/auto_configurer.cpp:80-91 | under every name used, the index holds the last handler of that name |
| `AutoConfigurer.IndexesAgree` | src/auto_configurer/auto_configurer.cpp:65-99 | started empty, both indexes have the same names, and they are equal if and only if under every name the first handler is the last one too |
| `AutoConfigurer.IndexesAgreeOnDistinct` | src/auto_configurer/auto_configurer.cpp:65-99 | when no handler is filed twice they are equal if and only if no name is used by two handlers |
| `AutoConfigurer.SharedNameUnnoticed` | src/auto_configurer/auto_configurer.cpp:65-99 | without that, two handlers can share a name and the indexes still be equal |
| `AutoConfigurer.CheckNamesDistinct` | src/auto_configurer/impl/connection_check_dc_handler.cpp:10-11 | a receiver's label is never a sender's, and either comes from one configured label only |
| `AutoConfigurer.ChecksNeverCollide` | src/auto_configurer/impl/connection_check_dc_handler.cpp:9-16 | connection checks are filed alike in both indexes if and only if their configured labels are distinct |
| `AutoConfigurer.ConnectionCheckConfigurer.Configure` | src/auto_configurer/impl/connection_check_dc_handler.cpp:9-16 | makes and links two fresh handlers and files the receiver before the sender |

## Left out

- Lifecycle.Step: a handler whose closing throws counts as not closed at all, however far it got
- LifecycleTheorems.FaultExactly: the outbound ICE candidate of a connection is no step; it would call a null signaling client (`src/core/peer_connection_manager.cpp:259-261`) in the window that `LifecycleTheorems.CandidateWindow` gives
- SignalingTheorems.StatusAgreement: says nothing after an exception that no thread catches, because that ends the process
- Echo.EchoEndToEnd: covers runs that do not call through a null channel; `SendQueue.CleanClosesNeverCrash` says when that is guaranteed
- Json.PyobjToJson: strings that are not valid UTF-8 are not modelled; which of two competing keys wins is left to the order of the dictionary, which is not modelled either
- Data races on unguarded fields, and check-then-set windows between threads: lifecycle operations are single steps
- The `AfterCreate` hook of a data channel handler, and the `Start` and `Stop` hooks of a track handler as calls: what they call appears as separate events
- Messages that arrive before the connector has been given to the signaling client
- ICE candidates on their way into the peer connection: no state of the program depends on them
- JSON and byte receivers, and `SendJson`: parsing and printing JSON text is foreign code
- Authenticators, configuration reading, camera capture, logging, Python trampolines and image conversion
