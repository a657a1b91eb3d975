# The DoIP connection engine, modelled and proved in Dafny

The library speaks Diagnostics over IP (ISO 13400-2:2019) on the side of the vehicle: it accepts a tester's connection,
activates a route for the tester, acknowledges its diagnostic messages, hands them to a subnet, and closes connections
that fall silent. This project models that engine and proves what it keeps over every sequence of events.

It has four layers, each a set of classes whose methods are proved against functions on values, and lemmas about
those functions:

| layer | files | what it is |
|---|---|---|
| bytes and messages | `Bytes`, `Message`, `Identifiers`, `Transport`, `PayloadTypes`, `WireFormat` | the codec, the identifiers, and framing over a socket that chops the stream as it likes |
| timers | `Timers`, `TimerService`, `SingleTimer` | the timer table with its sleeping worker, and every interleaving of the two |
| connection | `ConnectionSpec`, `Connection`, `Runs`, `RoutingGate`, `RouteOpening`, `StateTimers`, `NullHandler`, `TimerSettings`, `DownstreamWait`, `Silence`, `SilentRuns`, `SilenceEnds`, `OutstandingExpiry`, `SharedManager`, `AckLedger`, `Server` | the seven-state machine, its runs, and the thread that drives it |
| downstream | `Queues`, `Downstream`, `Uds`, `Subsequences`, `Gateway`, `GatewayExamples`, `StaleCallback`, `LateReset` | the queued path to the subnet, the UDS responder, and the composition of all of it |

`Tester` holds the messages of the example runs.

A *run* of a connection (`Runs.IsRun`) starts with the constructor and interleaves received messages with any
application answers, a lost link, passes of the timer worker, the callbacks of timers it collected earlier, downstream
responses, close requests and changes of the settings. Writes may start to fail at any point. A *gateway run*
(`Gateway.GatewayRun`) adds the two queues, the callback slot and the worker thread, step by step: it pops a request, has
it answered, pops a response, calls the callback if the slot is set, and resets the slot; anything can happen between
two of these steps. The ghost
log of a connection records all it sends and all it tells or asks the application. `Connection` ties every handler to
the function the runs are made of, so the theorems about runs are theorems about the handlers.

The main results, hardest first: `Gateway.EndToEnd` and `Gateway.EndToEndUds`, `Gateway.OneOutstandingRequest`,
`Gateway.AnswersStayInOrder`, `TimerSettings.TimersAlwaysAgree`, `SilentRuns.NeverTooEarly` and
`SilenceEnds.SilenceEndsTheConnection`, `OutstandingExpiry.EarlyExactlyIfOutstanding`, `AckLedger.LedgerIsSettled`,
`NullHandler.NullHandlerUnreachable`, `DownstreamWait.OnlyTheOutsideEndsTheWait`, `TimerService.NoLostWakeupRun` and
`TimerService.ExpiryDiscipline`, `Transport.FramingRoundTrip` with `Transport.TcpConnectionTransport.ReceiveMessage`,
`RoutingGate.NothingBeforeActivation`, `RouteOpening.RouteWasAskedFor`, `Runs.CloseHappensOnce`, `Server.WhyClosed`,
`SingleTimer.TableIsWhatWasSaid`.

## What the proofs brought up

Where the code and its comments or the standard differ, the model follows the code.

- **Zero timeouts.** A zero general-inactivity or alive-check timeout makes `transitionTo` fall through to Closed with
  the transport still active; the next message is dispatched through a null handler. `NullHandlerUnreachable`: this is
  impossible exactly when neither is zero.
- **Retries.** With two or more alive-check retries configured, the retry is a self-transition, which re-arms nothing:
  the connection stays open without any timer. `AliveCheckExpired`, `SilentAfterActivation`: a silent client is
  disconnected exactly when at most one retry is configured (the build default). `TimersAlwaysAgree`: state and timer
  agree on all runs exactly for nonzero timeouts and at most one retry.
- **Two races on the downstream path.** The timer worker runs callbacks outside its lock: one collected just before a
  request arrived takes the connection out of WaitDownstreamResponse with the request still on its way (a stale
  callback). The downstream worker calls the callback and resets the slot in two statements: a request accepted between
  them has its callback forgotten. `OneOutstandingRequest`: these two, and nothing else, break the coupling of state,
  slot and path. `EndToEnd` gives the exact condition for the client to be served: no request accepted while another is
  on the path, no response dropped for want of a callback while the transport is up. `TwoRequestsOutstanding` and
  `AnswerLost` are runs in which it fails, for every provider; in the second no timer is involved, and the connection is
  left waiting for a response that will not come. A stale callback alone loses no answer (`StaleButServed`), and whatever
  happens the answers the client does get are right and in order (`AnswersStayInOrder`).
- **A third race, inside a handler.** Handlers are atomic steps here. If they were not, a response that comes in between
  the downstream request and the change to WaitDownstreamResponse would be sent, and the connection would then begin to
  wait for it (`ResponseInsideHandler`).
- **Early alive checks.** A message cannot call back a timer that was collected: with nonzero timeouts and at most one
  retry, a client can be asked whether it is there before its time is over exactly if a callback of the general inactivity or alive check timer is outstanding when its
  message comes in (`EarlyExactlyIfOutstanding`; `RequestAfterExpiry` is such a run).
- **One manager for all connections.** Closing a connection disarms the others, and a silent client of theirs is then
  never disconnected (`ClosingDisarmsTheOther`, `OpeningTakesTheTimer`).
- **Replaced response codes.** `UdsMock` applies the response length limits to negative answers, so a handler's own
  response code is replaced by GeneralProgrammingFailure (`HandlerAnswerSurvives`, `HiddenCodes`). The comment at
  inc/uds/UdsMock.h:70-72 announces ServiceNotSupported for the default services; no client sees it.
- **Downstream timeout.** The DownstreamResponse timer is never armed, whatever the settings
  (`DownstreamTimerIsNeverArmed`); the state's own two-second timer only logs when it expires. A waiting connection with
  no earlier expiry outstanding waits exactly until a response or a close request (`OnlyTheOutsideEndsTheWait`), through
  any number of messages of its client, which it neither answers nor acknowledges (`WaitsForEver` gives the runs).
- **Integers in identifiers.** An EID built from a 32-bit integer has it in its first four bytes, so it denotes the
  integer times 65536. `IntegralIsExact` gives the exact condition for an identifier to denote its integer.
- **Protocol version.** A received message is rebuilt with version 3, whichever of 1 to 4 arrived.
- **Large payloads.** The length field is the payload size cast to 32 bits. `ParseOfBuilt`: a built message can be
  parsed exactly when its payload is shorter than 2^32 bytes.
- **Settings.** The constructor arms the initial timer with the default; a setter takes effect when the next state is
  entered. The model records the settings a timer was armed with.
- **Short identification responses.** `getFurtherActionRequest` guards for 31 bytes and reads the 32nd. A response of
  exactly 31 bytes is a valid message and the only one for which the result is undefined (`FurtherActionUndefined`);
  every response the library makes has 33.

## Model

| member | source | states |
|---|---|---|
| Gateway.EndToEnd | src/DoIPDefaultConnection.cpp:260-287 | over every gateway run and up to every moment: the client is served all the time, that is, its diagnostic messages are a prefix of the provider's answers to the accepted requests, in order, server to client, at most one request is on the path, and while the transport is up only that one lacks its answer, exactly if no request was accepted while another was on the path and no response was dropped for want of a callback while the transport was up |
| Gateway.AnswersStayInOrder | inc/DoIPDownstreamServerModel.h:112-136 | over every gateway run, overtaking or not: the diagnostic messages the client gets are those answers with some left out, never a wrong or reordered one |
| Gateway.EndToEndUds | src/uds/UdsMock.cpp:6-41 | with the UDS responder behind it, over every gateway run: each diagnostic message to the client carries the reply, of the shape UDS prescribes and with the right code if the request was refused, to an accepted request of its own, later ones to later requests; the i-th to the i-th while the condition of EndToEnd holds |
| Gateway.ForwardedAreRequests | src/DoIPDefaultConnection.cpp:253-273 | over every gateway run, the forwarded messages are exactly the diagnostic messages from the routed client that the application acknowledged, in order |
| Gateway.OneOutstandingRequest | inc/DoIPDownstreamServerModel.h:48-64 | over every gateway run and up to every moment: at most one request on the path, callback slot set exactly if there is one or the worker is about to reset it, and an open connection in WaitDownstreamResponse exactly if there is one, all the time, exactly if no timer callback has taken the open connection out of the wait and the worker has reset no slot set for a later request |
| Gateway.SpoilingNeedsARace | src/DoIPDefaultConnection.cpp:331-360 | a gateway run without these two races serves its client all the time |
| Gateway.FlowRun | inc/DoIPDownstreamServerModel.h:112-136 | the invariant of every gateway run: the path holds the answers to the latest requests in order, what the client was sent answers earlier ones in order |
| Gateway.AnswerEffect | src/DoIPDefaultConnection.cpp:260-287 | an accepted message is forwarded, and the wait begins, exactly if the verdict is positive |
| Gateway.DeliveryEffect | src/DoIPDefaultConnection.cpp:447-457 | a delivered response is one diagnostic message from server to client and ends the wait |
| Gateway.DownstreamThread | inc/DoIPDownstreamServerModel.h:112-136 | an uninterrupted turn of the worker is the composition of its steps, in order, each only if there is something to do |
| Gateway.InvokeCallback | inc/DoIPDownstreamServerModel.h:130-131 | the response goes to the connection if the slot is set, and nowhere otherwise; the slot stays as it is |
| Downstream.DoIPDownstreamServerModel.PopRequest | inc/DoIPDownstreamServerModel.h:113-116 | the oldest request leaves the transmit queue for the worker, if there is one |
| Downstream.DoIPDownstreamServerModel.PopResponse | inc/DoIPDownstreamServerModel.h:126-128 | the oldest response leaves the receive queue for the worker, if there is one |
| Downstream.DoIPDownstreamServerModel.ResetCallback | inc/DoIPDownstreamServerModel.h:132 | the slot is empty, whoever set it last |
| StaleCallback.TwoRequestsOutstanding | inc/TimerManager.h:286-298 | for every provider a gateway run with a stale callback that has two requests on the path of an open connection |
| StaleCallback.StaleButServed | inc/TimerManager.h:286-298 | for every provider a gateway run with a stale callback whose client is served all the time |
| LateReset.AnswerLost | inc/DoIPDownstreamServerModel.h:130-132 | for every provider a gateway run without any timer event in which a request accepted between call and reset loses its answer and the connection waits with an empty path |
| LateReset.ResponseInsideHandler | src/DoIPDefaultConnection.cpp:272-277 | for every accepted request: a response between the downstream request and the change of state is sent, and leaves the connection waiting |
| Downstream.DoIPDownstreamServerModel.OnDownstreamRequest | inc/DoIPDownstreamServerModel.h:48-64 | with a callback: the message's user data joins the transmit queue, the slot is set, Pending; without: the slot is cleared, Error |
| Downstream.DoIPDownstreamServerModel.HandleDownstreamResponse | inc/DoIPDownstreamServerModel.h:80-83 | the response joins the receive queue, nothing else changes |
| StateTimers.ExactlyOneTimer | src/DoIPDefaultConnection.cpp:110-189 | over every run with nonzero timeouts and at most one retry, between timer callbacks: an open connection waiting for the client has exactly the timer of its state, one-shot, with the interval configured on entry; waiting downstream it has at most its own; restarting from RoutingActivated finds the timer; the retry counter is 1 in an alive check and 0 in RoutingActivated |
| TimerSettings.TimersAlwaysAgree | src/DoIPDefaultConnection.cpp:338-348 | this holds on all runs with given settings exactly if both timeouts are nonzero and at most one retry is configured |
| TimerSettings.UntimedRun | src/DoIPDefaultConnection.cpp:110-113 | for all other settings, a run on which it fails |
| DownstreamWait.DownstreamTimerIsNeverArmed | src/DoIPDefaultConnection.cpp:35-42 | over every run, whatever the settings: the table holds at most the timer of the present state, and the DownstreamResponse timer is neither armed nor collected |
| DownstreamWait.WaitLasts | src/DoIPDefaultConnection.cpp:315-321 | over every run: a connection waiting downstream goes on waiting exactly until a response, a close request or the callback of a timer collected in an earlier state; meanwhile it sends, asks and notifies nothing |
| DownstreamWait.OnlyTheOutsideEndsTheWait | src/DoIPDefaultConnection.cpp:353-355 | with no expiry outstanding, exactly until a response or a close request |
| DownstreamWait.WaitsForEver | src/DoIPDefaultConnection.cpp:353-355 | for every number of further client messages, however late, a run with default settings on which the connection still waits without any timer |
| StateTimers.AgreementRun | src/DoIPDefaultConnection.cpp:331-360 | the invariant with callbacks outstanding: a missing timer is one whose expiry was collected and whose callback is about to be called |
| ConnectionSpec.SettleIsFirst | src/DoIPDefaultConnection.cpp:151-165 | for every assignment of timeouts a transition settles in the first state with a nonzero duration along the stateAfterTimeout chain, or in Closed |
| Connection.DoIPConnection.TransitionTo | src/DoIPDefaultConnection.cpp:110-131 | the mutual recursion with startStateTimer terminates for all settings and ends resting where SettleIsFirst says, with exactly that state's timer and entry action |
| Connection.DoIPConnection.StartStateTimer | src/DoIPDefaultConnection.cpp:151-182 | clears the table, then arms the state's one-shot timer or moves on when the duration is zero |
| Connection.DoIPConnection.constructor | src/DoIPDefaultConnection.cpp:9-57 | opens in WaitRoutingActivation with the initial timer armed by the default setting |
| Connection.DoIPConnection.Configure | inc/DoIPDefaultConnection.h:187-211 | a setter changes the settings and no armed timer |
| Connection.DoIPConnection.RestartStateTimer | src/DoIPDefaultConnection.cpp:184-189 | restarts the state's timer, if it is in the table |
| Connection.DoIPConnection.SendProtocolMessage | src/DoIPDefaultConnection.cpp:59-62 | one send attempt; the transport goes inactive if it fails |
| Connection.DoIPConnection.SendDiagnosticMessageResponse | src/DoIPDefaultConnection.cpp:383-405 | sends the acknowledgement with the given and the server address, and notifies the application of the same code |
| Connection.DoIPConnection.CloseConnection | src/DoIPConnection.cpp:42-54 | nothing if already closing; else Closed, reason recorded, timers cleared, transport inactive, one notice, not open |
| Connection.DoIPConnection.HandleWaitRoutingActivation | src/DoIPDefaultConnection.cpp:198-224 | activates the route for the source of a routing activation request and answers it; anything else closes with InvalidMessage |
| Connection.DoIPConnection.HandleRoutingActivated | src/DoIPDefaultConnection.cpp:226-258 | alive check responses restart the timer, other types and foreign sources get a negative acknowledgement, no source closes |
| Connection.DoIPConnection.AnswerDiagnostic | src/DoIPDefaultConnection.cpp:260-287 | verdict acknowledged, timer restarted, positive verdicts handed downstream with its three outcomes |
| Connection.DoIPConnection.HandleWaitAliveCheckResponse | src/DoIPDefaultConnection.cpp:289-313 | alive check responses and diagnostic messages return to RoutingActivated, the latter unanswered |
| Connection.DoIPConnection.HandleMessage | src/DoIPDefaultConnection.cpp:106-108 | dispatch by state; fails exactly in Closed and then changes nothing; with a gateway attached, the queue gets exactly what was forwarded |
| Connection.DoIPConnection.HandleTimeout | src/DoIPDefaultConnection.cpp:331-360 | the effect of each expired timer |
| Connection.DoIPConnection.ReceiveDownstreamResponse | src/DoIPDefaultConnection.cpp:447-457 | sends the response or TargetUnreachable and returns to RoutingActivated, closed or not |
| Runs.CloseHappensOnce | src/DoIPConnection.cpp:42-54 | over every run, late callbacks and responses included: at most one close notice, with the first reason, which stays recorded; never open again; nothing more reaches the client |
| Runs.CloseEvolves | src/DoIPDefaultConnection.cpp:69-92 | the first close leaves Closed, no timers and the given reason; a later one changes nothing |
| RoutingGate.NothingBeforeActivation | src/DoIPDefaultConnection.cpp:198-224 | over every run: client address assigned at most once, first message to the client is the one routing activation response for it, everything given to the application or downstream is a diagnostic message from that address |
| RouteOpening.ActivatesExactly | src/DoIPDefaultConnection.cpp:208-223 | a message to an open connection that waits for activation binds its source and is answered positively exactly if it is a routing activation request with a source address; any other closes the connection with InvalidMessage, unanswered |
| RouteOpening.RouteWasAskedFor | src/DoIPDefaultConnection.cpp:198-224 | over every run: a bound address sent a routing activation request while the connection waited for one |
| RouteOpening.ServedAfterActivation | src/DoIPDefaultConnection.cpp:198-224 | over every run: whoever was sent anything, or asked or forwarded anything, had sent such a request |
| NullHandler.NullHandlerUnreachable | src/DoIPDefaultConnection.cpp:47-50 | no run dispatches into the null handler exactly when the configured general-inactivity and alive-check timeouts are nonzero |
| NullHandler.CrashWithZeroTimeout | src/DoIPDefaultConnection.cpp:161-165 | for every setting with one of them zero, a run that does |
| NullHandler.LiveRun | src/DoIPServer.cpp:66-76 | with both nonzero, an open connection is always in a state with a message handler |
| Silence.SilentBeforeActivation | src/DoIPDefaultConnection.cpp:335-337 | never activated: closed with InitialInactivityTimeout by the first pass at or after creation plus the initial time and by no earlier one, nothing sent |
| Silence.FreshSettings | inc/DoIPDefaultConnection.h:300-308 | the default times and retries of a fresh connection, and its first deadline |
| Silence.SilentAfterActivation | src/DoIPDefaultConnection.cpp:338-348 | silent in RoutingActivated: one alive check request by the first pass at or after the deadline, AliveCheckTimeout by the first pass an alive-check time later, exactly if at most one retry is configured; otherwise open for ever |
| Silence.AliveCheckExpired | src/DoIPDefaultConnection.cpp:342-348 | the pass that finds the alive check expired closes exactly if at most one retry is configured, else leaves no timer at all |
| Silence.AliveCheckSent | src/DoIPDefaultConnection.cpp:338-341 | the pass that finds the general timer expired sends one alive check request and sets the next deadline |
| Silence.BackToRoutingActivated | src/DoIPDefaultConnection.cpp:151-182 | activation, an answered alive check and a delivered response set the deadline to now plus the general inactivity time |
| Silence.WhatMovesTheDeadline | src/DoIPDefaultConnection.cpp:226-287 | in RoutingActivated exactly alive check responses and diagnostic messages from the client move the deadline |
| Silence.QuietUntil | inc/TimerManager.h:249-284 | no pass before the deadline of the only timer changes anything |
| Silence.PassIsCollectAndCallback | inc/TimerManager.h:266-298 | the passes of these lemmas are the collect and callback steps of runs |
| SilentRuns.NeverTooEarly | src/DoIPDefaultConnection.cpp:331-360 | over every run with a clock that never goes back, from the moment the deadline is set with no callback about silence outstanding until the client stirs, whatever is refused, lost, answered late or configured meanwhile: no alive check request before the deadline, at most one after it, no AliveCheckTimeout before another alive-check time |
| SilentRuns.NeverTooEarlyAfterMessage | src/DoIPDefaultConnection.cpp:239-264 | the same, counted from the last accepted message or alive check response plus the general inactivity time |
| SilenceEnds.SilenceIsNoticed | src/DoIPDefaultConnection.cpp:338-341 | over every silent stretch of a run, refused messages included: after a collection at or after the deadline and a callback, an alive check request has been put out, unless something else closed the connection |
| SilenceEnds.SilenceEndsTheConnection | src/DoIPDefaultConnection.cpp:342-348 | after another collection, an alive-check time later, and a callback, the connection is closed if at most one retry is configured; with more it is never closed for silence and stays without a timer |
| SilenceEnds.NeverHeardOfAgain | src/DoIPDefaultConnection.cpp:338-348 | such a run with the default settings: activated, then silent, checked and closed |
| OutstandingExpiry.EarlyExactlyIfOutstanding | src/DoIPDefaultConnection.cpp:263-264 | over every run with good settings: a client just heard from can be challenged before its deadline, by some continuation, exactly if a callback of the general inactivity or alive check timer is outstanding |
| OutstandingExpiry.RequestAfterExpiry | src/DoIPDefaultConnection.cpp:184-189 | such a run: a request just after its idle timer was collected |
| SharedManager.ClosingDisarmsTheOther | src/DoIPServer.cpp:239-240 | with a common manager, closing one connection leaves the other without timer, and no pass ever disconnects its silent client |
| SharedManager.OpeningTakesTheTimer | src/DoIPDefaultConnection.cpp:157-175 | a connection opened on a common manager takes over the timer of one that waits for its activation |
| AckLedger.LedgerIsSettled | src/DoIPDefaultConnection.cpp:236-287 | over every run: acknowledgements put out are exactly those the rules in Owed call for, in order; notifications are exactly their codes; the application is asked about exactly the accepted messages |
| AckLedger.ClientGetsAPrefix | src/DoIPDefaultConnection.cpp:383-405 | the client gets a prefix of the acknowledgements owed, all of them while the transport is up |
| Server.ConnectionHandlerThread | src/DoIPServer.cpp:62-80 | the thread on the objects does what Drive says of the messages in the byte stream, then closes with the loop's reason |
| Server.ReceiveLoop | src/DoIPServer.cpp:66-76 | the receive and dispatch loop, how it ends and when |
| Server.ReceiveAndDispatch | src/DoIPServer.cpp:67-75 | one iteration: end of stream, exception from the null handler, or the remaining messages still to be driven |
| Server.DriveEndsClosed | src/DoIPServer.cpp:66-77 | with nonzero timeouts the thread never throws and leaves a closed connection and an inactive transport |
| Server.WhyClosed | src/DoIPServer.cpp:64-77 | if a handler closed the connection its reason stays, else it is ApplicationRequest if the server stopped first and SocketError if the stream ended or the transport went down first; the application is told once, and told that |
| Server.TesterIsHeard | src/DoIPServer.cpp:66-76 | from a tester's bytes, however chopped: the thread deals with the tester's messages as they were sent |
| Server.SessionIsServed | src/DoIPServer.cpp:66-76 | activation request and diagnostic request on a fresh connection: the route is opened for the tester and the application is asked about the request |
| Server.FragmentationIsInvisible | src/DoIPServer.cpp:66-77 | the outcome of the thread does not depend on how the client's bytes were chopped: any frames, any tail, anything the socket has in store after them |
| Server.BadTailIsInvisible | src/DoIPServer.cpp:66-77 | a truncated or invalid tail is as good as none |
| Timers.TimerManager.AddTimer | inc/TimerManager.h:50-73 | enabled, one interval from now, replacing an entry of the same id; refused without callback |
| Timers.TimerManager.RemoveTimer | inc/TimerManager.h:82-90 | erases the entry and reports whether there was one |
| Timers.TimerManager.RestartTimer | inc/TimerManager.h:93-104 | new expiry, same interval; false if unknown |
| Timers.TimerManager.UpdateTimer | inc/TimerManager.h:116-128 | new interval and expiry; false if unknown |
| Timers.TimerManager.DisableTimer | inc/TimerManager.h:137-145 | clears enabled without signalling the worker |
| Timers.TimerManager.EnableTimer | inc/TimerManager.h:156-169 | re-arms a disabled timer, leaves an enabled one alone |
| Timers.TimerManager.ResetTimer | inc/TimerManager.h:179-181 | enabled or not, the timer ends armed for a full interval and the worker is told |
| Timers.TimerManager.StopAll | inc/TimerManager.h:186-191 | empties the table and signals |
| Timers.TimerManager.NextExpiry | inc/TimerManager.h:249-256 | the exact minimum over the enabled timers, whatever the iteration order |
| Timers.TimerManager.Collect | inc/TimerManager.h:266-284 | collects each due timer once with its callback; due one-shots leave, due periodics are re-armed, the rest is untouched |
| Timers.TimerManager.Turn | inc/TimerManager.h:237-284 | a turn of the worker: wait for an entry, sleep until the minimum with nothing due, or fire exactly the due timers |
| Timers.PassEffect | inc/TimerManager.h:270-284 | a timer is gone exactly if due and one-shot, unchanged if not due, strictly past now if due, periodic and of positive interval |
| TimerService.NoLostWakeupRun | inc/TimerManager.h:237-264 | over every interleaving: a sleeping worker that was not signalled has no enabled timer before its deadline |
| TimerService.OverdueIsCollected | inc/TimerManager.h:258-284 | a worker woken with an overdue timer collects it in its next turn |
| TimerService.ExpiryDiscipline | inc/TimerManager.h:266-284 | over every interleaving: no expiry before its interval is over, expiries of one id at least an interval apart, a one-shot at most once per addTimer call |
| SingleTimer.TableIsWhatWasSaid | inc/TimerManager.h:50-191 | over every interleaving: callback, interval, periodicity, status and expiry of each timer are what the operations on it have said, by an automaton that knows no other timer |
| SingleTimer.RecordedIfSaid | inc/TimerManager.h:270-279 | over every interleaving: only timers that were added and are enabled expire, no earlier than said and with the interval and kind said last |
| SingleTimer.EnablingTwiceIsOnce | inc/TimerManager.h:156-169 | over every interleaving: enabling changes nothing exactly if the timer is unknown or already enabled, else it is due one interval from now, the worker is told, and other timers are left alone |
| SingleTimer.SilencedTimersAreQuiet | inc/TimerManager.h:82-145 | over every interleaving: a timer removed, disabled or swept away by stopAll does not expire before it is added or enabled again |
| Transport.TcpConnectionTransport.ReceiveExactly | src/tp/TcpConnectionTransport.cpp:113-139 | whatever the chunking and the retries, fills the buffer with the next bytes of the stream: as many as asked for, or all there are |
| Transport.TcpConnectionTransport.ReceiveMessage | src/tp/TcpConnectionTransport.cpp:53-111 | returns what Receive says of the stream and leaves its rest, or goes inactive for good; nothing from an inactive transport |
| Transport.TcpConnectionTransport.SendMessage | src/tp/TcpConnectionTransport.cpp:37-51 | writes the message and returns its size, or -1 and inactive |
| Transport.TcpConnectionTransport.Close | src/tp/TcpConnectionTransport.cpp:141-148 | inactive afterwards |
| Transport.FramingRoundTrip | src/tp/TcpConnectionTransport.cpp:53-111 | any sequence of acceptable frames followed by any tail is received as exactly those types and payloads in order with version 3, then what the tail yields |
| Transport.AvailableIsConcatenation | src/tp/TcpConnectionTransport.cpp:117-136 | any chunking with any number of retries delivers the concatenation |
| Transport.ReceiveExact | src/tp/TcpConnectionTransport.cpp:76-105 | a message is received exactly from streams that begin with an acceptable frame |
| Transport.TruncatedTail | src/tp/TcpConnectionTransport.cpp:99-104 | a proper prefix of a frame yields nothing |
| PayloadTypes.ValidTypesAreTheCodes | inc/DoIPPayloadType.h:136-159 | the types that pass are exactly the codes of the seventeen enumerators |
| PayloadTypes.ReceivedExactly | src/tp/TcpConnectionTransport.cpp:76-105 | whatever header and bytes behind it: received exactly if version 1 to 4, complement, one of those codes, length at most 4095 and that many bytes |
| PayloadTypes.ParsedExactly | inc/DoIPMessage.h:411-453 | the same for the parser, which has no limit on the length |
| PayloadTypes.TypeDecides | inc/DoIPPayloadType.h:166-175 | for every version 1 to 4, every payload up to 4095 bytes and every tail the type alone decides, for receiver and parser |
| PayloadTypes.TesterMessageIsReceived | inc/DoIPMessage.h:286-319 | activation requests, diagnostic messages and alive check responses are received as sent, whatever follows, and show type, addresses and data |
| PayloadTypes.TesterIsReceived | src/tp/TcpConnectionTransport.cpp:53-111 | any number of them, in order |
| PayloadTypes.SourceOfBuilt | inc/DoIPMessage.h:270-293 | exactly four types carry a source address |
| PayloadTypes.ShortPayloads | inc/DoIPMessage.h:313-319 | fewer than two bytes hold no source, and only diagnostic messages of at least four a target address |
| PayloadTypes.ShortMessages | inc/DoIPMessage.h:164-194 | bytes that are no complete header have no payload, no addresses and the type of a negative acknowledgement |
| Message.BuildMessage | inc/DoIPMessage.h:464-481 | the buffer filled field by field is the wire form of version 3 |
| Message.DiagnosticMessage | inc/DoIPMessage.h:579-592 | the buffer filled step by step is MakeDiagnosticMessage, whose fields DiagnosticRoundTrip reads back |
| Message.DiagnosticPositiveResponse | inc/DoIPMessage.h:602-616 | the buffer is that of a positive acknowledgement, with the quoted message behind it |
| Message.DiagnosticNegativeResponse | inc/DoIPMessage.h:627-642 | the buffer is that of a negative acknowledgement with its code, with the quoted message behind it |
| Message.RoutingActivationResponse | src/DoIPDefaultConnection.cpp:362-376 | the buffer is that of the response RoutingActivationRoundTrip reads back |
| Message.BuiltFields | inc/DoIPMessage.h:164-194 | type and payload are read back from a built message; it is valid exactly if the payload size fits the length field |
| Message.ParseOfBuilt | inc/DoIPMessage.h:437-453 | parsing a built message with anything behind it returns it, exactly for payloads under 2^32 bytes |
| Message.ParseExact | inc/DoIPMessage.h:411-453 | parsing returns m exactly if m is valid, of a known type, and a prefix of the input |
| Message.PrefixFree | inc/DoIPMessage.h:378-382 | no valid message is a proper prefix of another |
| Message.DiagnosticRoundTrip | inc/DoIPMessage.h:286-319 | addresses and user data of a diagnostic message are read back, for all values |
| Message.RoutingActivationRoundTrip | src/DoIPDefaultConnection.cpp:362-376 | client, server and result are read back from the response |
| Message.DiagnosticResponseInjective | inc/DoIPMessage.h:602-642 | two acknowledgements are the same bytes only if addresses and verdict agree |
| WireFormat.ActivationResponseBytes | src/DoIPDefaultConnection.cpp:362-376 | the response byte by byte |
| WireFormat.AckBytes | inc/DoIPMessage.h:602-642 | acknowledgements byte by byte, with the code of each refusal |
| WireFormat.DiagnosticBytes | inc/DoIPMessage.h:579-592 | diagnostic messages byte by byte |
| WireFormat.RefusedOnTheWire | src/DoIPDefaultConnection.cpp:236-258 | what the active route refuses: the bytes of the one answer, and an unchanged state |
| Bytes.ReadBackU32 | inc/ByteArray.h:42-47 | an appended 32-bit value is read back at its position |
| Bytes.ByteArray.WriteU16BE | inc/ByteArray.h:110-113 | appends two bytes in network order |
| Bytes.ByteArray.WriteU32BE | inc/ByteArray.h:143-148 | appends four bytes in network order |
| Identifiers.GenericFixedId.FromBytes | inc/DoIPIdentifiers.h:48-94 | bytes cut or padded to the length of the identifier |
| Identifiers.GenericFixedId.FromIntegral | inc/DoIPIdentifiers.h:102-113 | the low bytes of the integer, highest first, left-aligned |
| Identifiers.GenericFixedId.Pad | inc/DoIPIdentifiers.h:334-338 | the padding character, if the kind has one, from the given position on; else nothing changes |
| Identifiers.GenericFixedId.ToString | inc/DoIPIdentifiers.h:145-155 | the bytes before the first NUL |
| Identifiers.IntegralValue | inc/DoIPIdentifiers.h:104-113 | the number an identifier denotes: reduced modulo the bytes that fit, shifted left if the integer is narrower |
| Identifiers.IntegralIsExact | inc/DoIPIdentifiers.h:104-113 | it is the integer itself exactly if the type is wide enough and the value fits, or it is zero |
| Identifiers.EidOfInteger | inc/DoIPIdentifiers.h:104-113 | EIDs: 64-bit integers modulo 2^48; 32-bit integers times 2^16 |
| Identifiers.RebuildFromText | inc/DoIPIdentifiers.h:48-52 | printing and rebuilding gives the identifier back exactly if filler follows its text |
| Identifiers.VinSurvivesPrinting | inc/DoIPIdentifiers.h:374-409 | a VIN survives printing and rebuilding exactly if the characters it took from its string hold no NUL |
| Identifiers.VinOfCStringSurvivesPrinting | inc/DoIPIdentifiers.h:418-419 | so every VIN from a C string does, null pointer included |
| Identifiers.MakeVehicleIdentificationResponse | inc/DoIPMessage.h:540-559 | the payload filled step by step has the 33-byte layout |
| Identifiers.IdentificationRoundTrip | inc/DoIPMessage.h:300-371 | VIN, logical address, EID, GID and further action read from the received response are those it was made from, for all values |
| Identifiers.FurtherActionUndefined | inc/DoIPMessage.h:365-371 | the further action of an identification response is undefined exactly for 31 bytes, and such a response is accepted by the parser |
| Identifiers.FieldsOfPayload | inc/DoIPMessage.h:300-371 | for every payload of every type: each field is there exactly in identification responses that are long enough, and comes from its place |
| Identifiers.FixedBytes | inc/DoIPIdentifiers.h:48-94 | as many bytes as fit, then the padding character, or zeros for kinds without padding |
| Identifiers.VinOfStringBytes | inc/DoIPIdentifiers.h:374-409 | a VIN has 17 bytes, none a lower-case letter; it takes the string's bytes, letters in upper case, all else as it is, and '0' behind them |
| Identifiers.VinIgnoresCase | inc/DoIPIdentifiers.h:374-378 | strings that differ only in the case of letters are the same VIN, up to 17 bytes only those |
| Identifiers.MakeVin | inc/DoIPIdentifiers.h:376-409 | the loop over the string and the constructor make that VIN |
| Identifiers.AnnouncedVinIsPrinted | inc/DoIPMessage.h:326-332 | the tester prints 17 bytes without lower-case letters that agree with the application's string up to case |
| Uds.ReplyShape | src/uds/UdsMock.cpp:6-41 | empty reply exactly for an empty request, else negative or positive within the service's bounds, told apart by the first byte, for every handler table |
| Uds.RefusalCodes | src/uds/UdsMock.cpp:12-30 | what no handler gets to see is answered 7F, service, and 13 exactly if the service is listed and the length out of its bounds, else 11 |
| Uds.AnsweredBytes | src/uds/UdsMock.cpp:32-40 | what a handler's answer becomes, byte by byte |
| Uds.SearchServiceDescriptor | inc/uds/UdsServices.h:48-88 | the search through the table finds the first entry of the service, none exactly for services that are not listed |
| Uds.HandlerAnswerSurvives | src/uds/UdsMock.cpp:32-40 | the exact condition for a handler's own answer to reach the client |
| Uds.BareNegativeIsReplaced | src/uds/UdsMock.cpp:32-38 | a negative code without data becomes GeneralProgrammingFailure |
| Uds.HiddenCodes | inc/uds/UdsMock.h:96-101 | so do the codes of the default services and of a short download request |
| Uds.TypedRequestsAreDecoded | src/uds/UdsMock.cpp:57-104 | the typed wrappers read back identifiers, addresses, lengths, counters and data |
| Uds.UdsMock.HandleDiagnosticRequest | src/uds/UdsMock.cpp:6-41 | returns Reply, which ReplyShape and HandlerAnswerSurvives are about |
| Uds.UdsMock.RegisterDefaultServices | inc/uds/UdsMock.h:73-102 | the nineteen services get the default handler, all others keep theirs |
| Uds.UdsMock.UnregisterService | inc/uds/UdsMock.h:36-38 | the service has no handler, all others keep theirs |
| Uds.UdsMock.RegisterDiagnosticSessionControlHandler | src/uds/UdsMock.cpp:43-48 | registered, and its indexing is safe for every request the table admits |
| Uds.UdsMock.RegisterEcuResetHandler | src/uds/UdsMock.cpp:50-55 | likewise |
| Uds.UdsMock.RegisterReadDataByIdentifierHandler | src/uds/UdsMock.cpp:57-62 | likewise |
| Uds.UdsMock.RegisterWriteDataByIdentifierHandler | src/uds/UdsMock.cpp:64-69 | likewise |
| Uds.UdsMock.RegisterTesterPresentHandler | src/uds/UdsMock.cpp:71-76 | likewise |
| Uds.UdsMock.RegisterRequestDownloadHandler | src/uds/UdsMock.cpp:79-96 | likewise |
| Uds.UdsMock.RegisterTransferDataHandler | src/uds/UdsMock.cpp:99-104 | likewise |
| Uds.UdsMock.RegisterRequestTransferExitHandler | src/uds/UdsMock.cpp:107-112 | likewise |
| Queues.ThreadSafeQueue.Push | inc/ThreadSafeQueue.h:53-61 | appends, unless stopped |
| Queues.ThreadSafeQueue.Pop | inc/ThreadSafeQueue.h:63-79 | the oldest item, also from a stopped queue; none from an empty one |
| Queues.ThreadSafeQueue.WaitAndPop | inc/ThreadSafeQueue.h:110-124 | the oldest item; none exactly at the end of a stopped queue |
| Queues.ThreadSafeQueue.TryPop | inc/ThreadSafeQueue.h:132-142 | the oldest item, none if empty or stopped |
| Queues.ThreadSafeQueue.Clear | inc/ThreadSafeQueue.h:147-154 | empties the queue |
| Queues.ThreadSafeQueue.Stop | inc/ThreadSafeQueue.h:81-87 | marks the queue stopped |
| Queues.ThreadSafeQueue.Moved | inc/ThreadSafeQueue.h:28-33 | takes over items and status, the source is stopped |
| Queues.FifoRun | inc/ThreadSafeQueue.h:52-154 | over every sequence of operations: accepted items are those that left followed by those still there, neither shrinks, nothing is accepted by a stopped queue |
| Queues.StoppedByStop | inc/ThreadSafeQueue.h:81-87 | the queue is stopped exactly if stop was called |
| Queues.EachOperation | inc/ThreadSafeQueue.h:52-154 | over every sequence: a push is accepted exactly before stop, a pop returns the oldest item not yet gone exactly if there is one, tryPop only before stop, clear discards all |
| Queues.StoppedQueueDrains | inc/ThreadSafeQueue.h:63-142 | pop and waitAndPop drain a stopped queue in order and then report its end, tryPop refuses it |

## Left out

- Gateway.DownstreamThread: as a whole a turn is uninterrupted; its steps, which runs interleave with everything else, are the methods it calls.
- Server.ConnectionHandlerThread: no timer expires inside the loop; the interleaving with timers is in the runs, where receiving and dispatching is one step.
- Downstream.DoIPDownstreamServerModel.OnDownstreamRequest: logging and the simulated latency are not modelled.
- Identifiers.GenericFixedId.FromIntegral: the shift of a negative integer is taken as arithmetic.
- Transport.TcpConnectionTransport.SendMessage: a write that takes only part of the message counts as sent, as in the source, but the model then records the whole message.
- Transport.TcpConnectionTransport.Close: releasing the file descriptor; error paths clear the active flag first, so close skips it.
- Queues.ThreadSafeQueue.Moved: the source of a move is left with unspecified contents in C++, empty here.
- TimerService.NoLostWakeupRun: no claim about TimerManager::stop and joining the thread, which change the running flag without the mutex.
- Several connections on one TimerManager: all other timer claims are for one connection with its own manager; SharedManager says why.
- Races inside one handler and application callbacks that call back into the connection: handlers are atomic steps in all runs; ResponseInsideHandler shows what that rules out.
- DoIPDefaultConnection used without DoIPConnection: the guard against closing twice is part of the model.
- Exceptions thrown by application callbacks or timer callbacks.
- src/tp/MockConnectionTransport.cpp: an in-memory transport that hands out injected messages from one queue and keeps sent ones in another, both emptied by close; its active flag is that of Transport.Link and its queues are those of Queues, and its blocking receive is not modelled.
- src/tp/TcpTransport.cpp, src/tp/MockTransport.cpp, inc/DoIPDownstreamForwarder.h: near duplicates of modelled code, or unfinished.
- Sockets, the accept loop, UDP announcements, the client, command lines, MAC lookup, SocketCAN: input and output.
- Logging, stream operators, hexadecimal printing, enum names: output only.
- ByteArray::writeU16At and writeU32At: no modelled code uses them.
- VIN character validation: a predicate on characters with nothing to prove about it here.
- Whether the addresses in an acknowledgement are the way round ISO 13400-2 asks: the model sends what the code sends.
- Starting and stopping the downstream worker thread.
