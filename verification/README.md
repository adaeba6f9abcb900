# A verified model of gpsinformer

gpsinformer is a single-threaded, callback-driven gateway. It takes a TCP feed from a GPS
tracker, relays it to an upstream server, and talks to Telegram over its own TCP, TLS and
HTTP stack. One io_service runs every completion handler, so a handler is one atomic step,
and the only points inside it where foreign code runs are its callbacks.

Every component that works by changing fields is here twice: as a pure state machine
(`…Model.dfy`), over which the theorems are stated, and as a class with the fields of the
original, each of whose methods is proved to do exactly what the state machine does and
whose events keep the component's invariant. What the environment decides (socket completions,
mbedtls results, timers, the Telegram server, random numbers, whether a field reads as a
number) is an argument of the step, and theorems about runs quantify over every list of steps.
Calls that an owner makes from inside a callback are an argument too, so re-entrance is
covered.

| file | what it holds |
|---|---|
| `Notification.dfy` | the callback protocol both clients promise, and its regular language |
| `TcpModel.dfy`, `TcpProofs.dfy`, `TcpReads.dfy`, `TcpCalls.dfy`, `TcpClient.dfy` | TcpClient: accounting and protocol, what it reports, what it makes of its owner's calls |
| `SslModel.dfy`, `SslProofs.dfy`, `SslReads.dfy`, `SslWrites.dfy`, `SslCalls.dfy`, `SslClient.dfy` | SslClient over its TcpClient, the same way |
| `HttpsModel.dfy`, `HttpsClient.dfy` | the request queue |
| `TelegramModel.dfy`, `SecondStart.dfy`, `BotCalls.dfy`, `TelegramBot.dfy` | the update offset protocol, and what the bot submits |
| `Stack.dfy`, `Responses.dfy` | HttpsClient, SslClient and TcpClient joined by their visible actions, and what responses hold |
| `PollRequest.dfy`, `BotStack.dfy` | the text of a poll, and TelegramBot on top of the joined stack |
| `DeviceModel.dfy`, `Chunking.dfy`, `RelayProofs.dfy`, `ReceiverModel.dfy`, `TrackerSession.dfy`, `GatewayRuns.dfy`, `Receiver.dfy`, `TcpSession.dfy` | the receiving side of the gateway |
| `Transmitter.dfy`, `Downlink.dfy`, `Uplink.dfy` | the upstream side of the gateway, what comes down through it, and the same joined with its TcpClient |
| `Chain.dfy` | two gateways in a row |
| `Search.dfy`, `Http.dfy`, `HttpBare.dfy`, `HttpParser.dfy`, `Multipart.dfy`, `FormEncoding.dfy`, `Url.dfy`, `Wildcard.dfy` | the text codecs |
| `Settings.dfy` | the alert settings and their table |
| `Text.dfy`, `Wrappers.dfy` | splitting, joining, options |

## What the proofs turned up

Some expected properties do not hold of the code as it stands. Each comes with a concrete run
or input for which it fails and with the exact condition under which it holds.

- A TcpClient can be left Disconnecting with nothing outstanding, so that no terminal
  callback ever comes: a write that still succeeds after the read side has failed returns
  without closing the session (`TcpProofs.StrandsExactlyWhen`, `LateWriteStrandsTheClient`,
  `StrandedForever`). If no operation succeeds after its socket was closed this cannot happen
  (`TcpProofs.EveryRunProgresses`).
- An SslClient can lose its terminal callback: when the peer closes while a write timer runs
  and the write buffer is already empty, handleWrite returns before it reaches handleAnything
  (`SslProofs.ReportedExactlyWhenBuffered`, `TerminalCallbackCanBeLost`, `SilentForever`).
- A second start() can make the bot handle an update twice (`SecondStart.SecondStartRepeatsUpdates`).
  It can do so exactly when an update is still to come and some queued getUpdates request can
  still be answered (`SecondStart.RepeatsExactlyWhen`); beside a poll that is being preempted, or
  whose session broke before any data came, a start() does no harm.
- When mbedtls_ssl_write takes only a part of the front of the write buffer, the rest is dropped
  with it (`SslWrites.PartialWriteLosesTheRest`); all that was sent arrives exactly when no write
  is partial (`SslWrites.SentWholeExactlyWhen`).
- A frame longer than 32768 characters is acted on when it comes in one delivery and closes the
  session when it is cut (`Chunking.LongPiecesDependOnChunking`). Division into chunks is
  invisible exactly for the streams in which no such frame meets a device that would then show
  anything else (`Chunking.InvisibleExactlyWhen`, `InvisibleWithoutSkips`).
- The transmitter cuts one heartbeat answer off the front of a line, so the tracker gets the
  server's commands unchanged under every division into chunks exactly when no line comes right
  behind two or more answers, none of one character behind one, and none is longer than what is
  buffered (`Downlink.CommandsArriveExactlyWhen`). A "LOAD" that is read
  together with a command is taken for a denial (`Downlink.AdmittedExactlyWhen`).
- HttpsClient takes operation_aborted for its own preemption, so if the system reports it
  uncalled for, the front request is dropped without a response
  (`HttpsModel.DroppedExactlyWhen`, `Stack.UncalledAbortDrops`).
- Url::parse inverts recomposition for well-formed components and for no others
  (`UrlModel.RoundTripExactlyWhen`); a query without a path does not come back
  as it was (`UrlModel.QueryNeedsAPath`).
- An HTTP message whose lines end in bare line feeds is read right exactly when its body holds
  no blank line with carriage returns (`HttpBare.BareExactlyWhen`).
- A multipart body can be cut back into its parts exactly when no value holds a delimiter line,
  and the boundary is kept out of file values only (`Multipart.SplitsExactlyWhen`,
  `BoundaryInValueBreaksParts`).

## Model

| member | source | states |
|---|---|---|
| `Notification.LanguageOfCallbacks` | src/TcpClient.cpp:104-192 | any history the protocol accepts shows callbacks that are finished sessions (Error, or Connect Data* Disconnect), one per accepted connect, then the running one |
| `Notification.ReasonIsTheCaller` | src/TcpClient.cpp:104-144 | a running session is in the user-closing mode exactly when disconnect() was called in it before it broke |
| `Notification.ReasonsAreTold` | src/TcpClient.cpp:104-144 | every terminal callback of a history tells its reason: ClosedByUser exactly when disconnect() was called in that session before it broke; operation_aborted if it was, and, with an honest environment, only if it was |
| `Notification.SessionsHoldTheData` | src/TcpClient.cpp:157-192 | the data of the sessions of any accepted history, the running one last, are those of its callbacks, connection by connection and in order |
| `TcpProofs.StepKeepsAccounts` | src/TcpClient.cpp:49-212 | every event keeps the accounts: the counter is the number of outstanding operations, at most one read and one write, a pending write is the queue's front, accepted sends are completed writes then the queue |
| `TcpProofs.EveryRunIsAccounted` | src/TcpClient.cpp:49-212 | the accounts hold after every run, with any calls made from inside callbacks |
| `TcpProofs.NoStaleCompletion` | src/TcpClient.cpp:104-115 | a disconnected client has no completion to come, so no completion of an old session is seen by a new one and the early return for Disconnected is not reached |
| `TcpProofs.WriteHasFront` | src/TcpClient.cpp:194-212 | a pending write is the queue's front, so pop_front never meets an empty queue |
| `TcpProofs.DeliverPhases` | src/TcpClient.cpp:104-212 | a completion comes only in a live session; Connect needs a session on its way up, Data one that is up and not closing, and the kind and reason of a terminal callback are those of the phase |
| `TcpProofs.EveryRunFollows` | src/TcpClient.cpp:104-212 | in every run the history of visible actions is one the protocol accepts and leads to the phase of the status, with no premise on what the environment reports; the stricter protocol for operation_aborted holds if resolve and connect report it only once disconnect() was called |
| `TcpProofs.RunLanguage` | src/TcpClient.cpp:104-192 | every run, with no premise, emits a prefix of (Error, or Connect Data* Disconnect)*, terminal callbacks plus one unless disconnected are the accepted connects, Disconnecting means disconnect() was called in this session, and every terminal callback of the run tells its reason |
| `TcpProofs.EveryRunRecords` | src/TcpClient.cpp:87-102 | what was accepted on the connection is what was sent in the session, in every run |
| `TcpProofs.ShutdownStep` | src/TcpClient.cpp:104-144 | while closing, a completion lowers the outstanding count by one, silently unless it is the last, which brings the terminal callback |
| `TcpProofs.ShutdownTerminates` | src/TcpClient.cpp:63-80 | from a closing client, whatever else happens, the outstanding count falls with each completion and the last one brings exactly one terminal callback |
| `TcpProofs.StrandsExactlyWhen` | src/TcpClient.cpp:194-212 | a step leaves a session with nothing outstanding if and only if it is the late successful write described above |
| `TcpProofs.EveryRunProgresses` | src/TcpClient.cpp:104-212 | if no operation succeeds after its socket was closed, every session between callbacks has an operation outstanding |
| `TcpProofs.LateWriteStrandsTheClient` | src/TcpClient.cpp:194-212 | a run that ends Disconnecting with nothing outstanding |
| `TcpProofs.StrandedForever` | src/TcpClient.cpp:63-80 | from there no continuation ever emits another callback |
| `TcpProofs.EveryRunClosesItsSocket` | src/TcpClient.cpp:63-144 | in every run the socket is open only while the client is Connecting or Connected: disconnect() and every end of a session have closed it |
| `TcpReads.OwnerGetsWhatWasRead` | src/TcpClient.cpp:104-192 | in every run the sessions the owner was served hold exactly the bytes its reads completed with since each connect, and the refused ones carry exactly the errors of the attempts that failed |
| `TcpCalls.EveryCallCounts` | src/TcpClient.cpp:49-102 | in every run the client acts on every disconnect(), on every connect() made while it was disconnected and on every send() made while it was connected, from outside and from inside callbacks, in order, and on nothing else |
| `TcpClient.Client.Connect` | src/TcpClient.cpp:49-61 | its new state, and the callback of a completion handler, are exactly those of the machine the run theorems above are about |
| `TcpClient.Client.Disconnect` | src/TcpClient.cpp:63-80 | its new state, and the callback of a completion handler, are exactly those of the machine the run theorems above are about |
| `TcpClient.Client.Send` | src/TcpClient.cpp:87-102 | its new state, and the callback of a completion handler, are exactly those of the machine the run theorems above are about |
| `TcpClient.Client.HandleAnything` | src/TcpClient.cpp:104-144 | its new state, the callback it makes and whether the handler goes on are exactly those of the machine the run theorems above are about |
| `TcpClient.Client.HandleResolve` | src/TcpClient.cpp:146-155 | its new state, and the callback of a completion handler, are exactly those of the machine the run theorems above are about |
| `TcpClient.Client.HandleConnect` | src/TcpClient.cpp:157-170 | its new state, and the callback of a completion handler, are exactly those of the machine the run theorems above are about |
| `TcpClient.Client.HandleRead` | src/TcpClient.cpp:172-192 | its new state, and the callback of a completion handler, are exactly those of the machine the run theorems above are about |
| `TcpClient.Client.HandleWrite` | src/TcpClient.cpp:194-212 | its new state, and the callback of a completion handler, are exactly those of the machine the run theorems above are about |
| `TcpClient.Client.Dispatch` | src/TcpClient.cpp:146-212 | any event of the object is the step of the state machine and keeps the accounts |
| `SslProofs.StepKeeps` | src/SslClient.cpp:167-402 | every event keeps the coupling between the two layers, also in the middle of nested callbacks |
| `SslProofs.EveryRunIsCoupled` | src/SslClient.cpp:167-402 | the coupling holds after every run |
| `SslProofs.LayersAgree` | src/SslClient.cpp:226-402 | Disconnected, Disconnecting and Error need a TCP client that is Disconnected or Disconnecting; Handshake and Connected need it Connected, and conversely; TCP Resolve or Connecting needs Connecting; the counter is the number of write timers and 0 when Disconnected |
| `SslProofs.QueriesReadThePhase` | src/HttpsClient.cpp:114-140 | what an owner can ask of the client depends on the protocol phase only |
| `SslProofs.StepMoves` | src/SslClient.cpp:226-402 | every event, whatever TCP reports, appends visible actions that the protocol accepts from the old phase to the new |
| `SslProofs.EveryRunFollows` | src/SslClient.cpp:226-402 | so does every run, and under the strict protocol if TCP reports operation_aborted only once disconnect() was called |
| `SslProofs.RunLanguage` | src/SslClient.cpp:226-300 | every run of SslClient, with no premise: the language of callbacks, the count of terminal callbacks, the meaning of Disconnecting, and the reason of every terminal callback |
| `SslProofs.LingeringTimer` | src/SslClient.cpp:329-362 | a write timer of a client whose TCP client is gone is counted off in silence, unless it is the last and something is left in the write buffer |
| `SslProofs.LastTimerReports` | src/SslClient.cpp:337-362 | the last one then brings the terminal callback |
| `SslProofs.ReportedExactlyWhenBuffered` | src/SslClient.cpp:329-362 | once the TCP client is gone, in every continuation, calls and reactions included: nothing is reported before the outstanding write timers have fired, and when they have, the end has been reported if and only if the write buffer was not empty |
| `SslProofs.SilentForever` | src/SslClient.cpp:333-337 | such a client without timers emits no callback in any continuation |
| `SslProofs.TerminalCallbackCanBeLost` | src/SslClient.cpp:333-337 | a run from the start that ends so |
| `SslWrites.EmitReaches` | src/SslClient.cpp:57-70 | a connected TcpClient accepts every non-empty string mbedtls emits, in order |
| `SslWrites.EveryRunDelivers` | src/SslClient.cpp:210-362 | in every run, from the handshake on, TCP has accepted exactly what mbedtls emitted; the accepted sends of a connected session were given to mbedtls once each and in order, or are queued |
| `SslWrites.SentWholeExactlyWhen` | src/SslClient.cpp:341-353 | in every run the peer can read all that was given to mbedtls if and only if no write was partial |
| `SslWrites.PartialWriteLosesTheRest` | src/SslClient.cpp:341-353 | a run in which the rest of a partial write is lost |
| `SslReads.OwnerGetsWhatWasRead` | src/SslClient.cpp:226-402 | in every run the data of the owner's sessions, the running one included, are exactly the results of the successful mbedtls_ssl_read calls since each handshake, nothing lost, changed or reordered; and the refused sessions carry the error of the failed handshake, of the TCP client, end of file, or operation_aborted if disconnect() was called |
| `SslCalls.CallsAndBytesCount` | src/SslClient.cpp:57-224 | in every run the client acts on exactly the calls it should, in order; and from the handshake on the TCP client has accepted exactly the bytes mbedtls has pushed out since, in whichever of its functions; and what was sent in a connected session is, in order, what the successful writes were given, each once, and then the queue |
| `SslCalls.WritesGoOn` | src/SslClient.cpp:329-362 | in every run in which setting the write timer does not fail, a connected client with something left to write has its timer running |
| `SslCalls.ActsInCallbacksOnly` | src/SslClient.cpp:271-362 | each handler gives the owner a turn exactly when it has shown a callback |
| `SslClient.Client.Connect` | src/SslClient.cpp:167-199 | its new state is exactly that of the machine the coupling and language theorems are about |
| `SslClient.Client.Disconnect` | src/SslClient.cpp:201-208 | its new state is exactly that of the machine the coupling and language theorems are about |
| `SslClient.Client.Send` | src/SslClient.cpp:210-224 | its new state is exactly that of the machine the coupling and language theorems are about |
| `SslClient.Client.Emit` | src/SslClient.cpp:57-70 | bytes reach the TCP client only in Handshake and Connected, in order, and never as an empty send |
| `SslClient.Client.HandleAnything` | src/SslClient.cpp:226-269 | its new state, whether it calls back and whether the handler goes on are exactly those of the machine the coupling and language theorems are about |
| `SslClient.Client.HandleHandshake` | src/SslClient.cpp:271-300 | its new state is exactly that of the machine the coupling and language theorems are about |
| `SslClient.Client.HandleRead` | src/SslClient.cpp:302-327 | its new state is exactly that of the machine of which SslReads proves what the owner is handed |
| `SslClient.Client.HandleWrite` | src/SslClient.cpp:329-362 | its new state is exactly that of the machine the coupling and language theorems are about |
| `SslClient.Client.HandleTcpClientConnect` | src/SslClient.cpp:364-370 | its new state is exactly that of the machine the coupling and language theorems are about |
| `SslClient.Client.HandleTcpClientDisconnect` | src/SslClient.cpp:372-376 | its new state is exactly that of the machine the coupling and language theorems are about |
| `SslClient.Client.HandleTcpClientError` | src/SslClient.cpp:378-382 | its new state is exactly that of the machine the coupling and language theorems are about |
| `SslClient.Client.HandleTcpClientReceivedData` | src/SslClient.cpp:384-402 | the read loop is the recursive reading of the state machine |
| `SslClient.Client.Dispatch` | src/SslClient.cpp:167-402 | any event of the object is the step of the state machine and keeps the coupling |
| `HttpsModel.StepKeeps` | src/HttpsClient.cpp:43-140 | every event keeps conservation, also when the response callback submits requests |
| `HttpsModel.EveryRunConserves` | src/HttpsClient.cpp:43-140 | in every run submitted requests are the retired ones followed by the queue; a live connection has a request to serve; a response is being received only while the connection is up; a close of our own is a preemption of a silent long poll |
| `HttpsModel.RetiredByOneEvent` | src/HttpsClient.cpp:83-107 | one event retires at most the front request: with its own response on a close by the peer, or without one if it is a long poll that received nothing, or if operation_aborted came uncalled for before the connection was up |
| `HttpsModel.DroppedExactlyWhen` | src/HttpsClient.cpp:94-107 | a request that is no long poll is dropped without its response if and only if operation_aborted is reported that no disconnect() asked for |
| `HttpsModel.EveryRunAnswers` | src/HttpsClient.cpp:83-107 | in every run without such a report a request that is no long poll leaves the queue only with its response |
| `HttpsModel.TimerPreempts` | src/HttpsClient.cpp:114-140 | on a live connection the timer closes it for a long poll that has received nothing and changes nothing otherwise; from then on, whatever happens, the poll receives nothing, and it is the next request to leave the queue and leaves it without a response |
| `HttpsModel.EveryRequestCounts` | src/HttpsClient.cpp:43-58 | in every run exactly the requests handed in, from outside, by the idle handler and by the response handler, are retired or queued, each once and in order |
| `HttpsClient.Client.SendRequest` | src/HttpsClient.cpp:43-58 | its new state is exactly that of the machine conservation is proved of |
| `HttpsClient.Client.HandleTcpClientConnect` | src/HttpsClient.cpp:75-81 | clears the response and hands out the data of the front request, if there is one, and nothing else to send |
| `HttpsClient.Client.HandleTcpClientDisconnect` | src/HttpsClient.cpp:83-92 | its new state is exactly that of the machine conservation is proved of |
| `HttpsClient.Client.HandleTcpClientError` | src/HttpsClient.cpp:94-107 | its new state is exactly that of the machine conservation is proved of |
| `HttpsClient.Client.HandleTcpClientReceivedData` | src/HttpsClient.cpp:109-112 | its new state is exactly that of the machine of which Responses proves what a response holds |
| `HttpsClient.Client.HandleTimerEvent` | src/HttpsClient.cpp:114-140 | its new state is exactly that of the machine conservation is proved of, preemption of a silent long poll included |
| `HttpsClient.Client.Dispatch` | src/HttpsClient.cpp:43-140 | any event of the object is the step of the state machine and keeps conservation |
| `Stack.PhasesAgree` | src/HttpsClient.cpp:75-140 | if a history of visible actions is one the protocol accepts, the HttpsClient is prepared for each of its callbacks and its phase is the protocol's |
| `Stack.EveryRunCarries` | src/HttpsClient.cpp:75-81 | what a session has sent is nothing until it is up and then the text of the request at the front of the queue, and nothing else |
| `Stack.StackHolds` | src/HttpsClient.cpp:75-140 | for every pair of runs of HttpsClient and SslClient with the same visible actions, sends included and no premise on errors: no callback is out of turn, the phase above is the status below, requests are conserved, no request means no connection down to TCP, and a connected session has been handed exactly the text of the front request; if TCP reports operation_aborted only for a disconnect(), only long polls are dropped |
| `Stack.PreemptionWhileResolving` | src/TcpClient.cpp:63-80 | a long poll preempted while resolving, with the cancelled resolve completing as operation_aborted, is such a pair of runs |
| `Stack.UncalledAbortDrops` | src/HttpsClient.cpp:94-107 | for every request that is no long poll, a pair of runs of HttpsClient and SslClient in which the resolver reports operation_aborted of its own accord and the request is dropped |
| `Responses.ResponsesAreReceived` | src/HttpsClient.cpp:75-112 | for every such pair of runs: while a connection is up the response so far is all that mbedtls gave since its handshake; the responses handed out are, in order, all that was received in each session the server closed; and each went to the request that was sent in that session |
| `TelegramModel.FromSplits` | src/TelegramBot.cpp:250-299 | what is at or above the offset is exactly what has not been handled |
| `TelegramModel.HandleUpdatesAdvances` | src/TelegramBot.cpp:250-299 | the loop over a run of updates extends the handled ones by that run and moves the offset behind it |
| `TelegramModel.StepKeepsExact` | src/TelegramBot.cpp:51-56 | every event keeps at most one queued poll, with the current offset, and handled updates that are the first of the log; start() provided no poll is queued |
| `TelegramModel.StepKeepsTidy` | src/TelegramBot.cpp:51-56 | the same up to a front poll whose session is lost, start() provided no queued poll can still be answered |
| `TelegramModel.UpdatesAreHandledExactlyOnce` | src/TelegramBot.cpp:171-299 | in every run in which start() finds no poll that can still be answered, the handled updates are the first ones of the server's log, each once and in order, through preempted, failed, resent and truncated polls |
| `TelegramModel.OnePollAtATime` | src/TelegramBot.cpp:51-56 | if start() finds no poll queued at all, at most one getUpdates request is queued at any time, and it carries the current offset |
| `TelegramModel.NothingForgottenIsLost` | src/TelegramBot.cpp:171-186 | an update below an offset that is asked for has been handled, so the server may drop it |
| `TelegramModel.SecondPollExactlyWhen` | src/TelegramBot.cpp:51-56 | start() keeps a single poll if and only if none is queued |
| `SecondStart.RepeatsExactlyWhen` | src/TelegramBot.cpp:51-56 | for every bot a clean run can lead to: after a further start() some continuation handles an update twice if and only if an update is still to come and some queued poll can still be answered, that is, is not the front poll of a session that is being preempted or broke before any data came |
| `SecondStart.Drive` | src/TelegramBot.cpp:242-314 | unless the front poll's session is lost, some continuation answers every queued poll with the same update, whatever phase the connection is in and whatever else is queued |
| `SecondStart.DryForever` | src/TelegramBot.cpp:250-299 | once the last possible update was handled nothing is handled again, whatever is started |
| `SecondStart.SecondStartRepeatsUpdates` | src/TelegramBot.cpp:51-56 | a run in which one update is handled twice |
| `BotCalls.EveryRunSubmits` | src/TelegramBot.cpp:51-248 | in every run the requests retired or queued are exactly these, in order: a long poll with the current offset for every start() and every idle callback, the application's requests, and what the handlers of a response with updates submit; all but the first kind only while started, and all only with an address and a token |
| `BotCalls.EveryRunHandles` | src/TelegramBot.cpp:250-299 | in every run the updates handled are, in order, all those of the parsed responses to a poll that came while started |
| `BotCalls.UnconfiguredIsSilent` | src/TelegramBot.cpp:188-200 | without an address or a token nothing is ever submitted |
| `BotCalls.StopSilences` | src/TelegramBot.cpp:58-61 | after stop(), until start() is called again, nothing is submitted and no update is handled, whatever comes in |
| `BotCalls.NoUpdateIsOutOfReach` | src/TelegramBot.cpp:171-299 | from every state a clean run can lead to, whatever is queued and whatever has broken, a started bot has a continuation without another start() in which every published update has been handled |
| `TelegramBot.Client.MakeRequest` | src/TelegramBot.cpp:188-200 | requests are submitted only while enabled and configured |
| `TelegramBot.Client.HandleHttpClientIdle` | src/TelegramBot.cpp:242-248 | its new state is the step of the machine exactness is proved of |
| `TelegramBot.Client.HandleHttpClientResponse` | src/TelegramBot.cpp:250-314 | the loop over the updates is the function of the state machine |
| `TelegramBot.Client.Dispatch` | src/TelegramBot.cpp:51-314 | any event of the object is the step of the state machine; it keeps conservation, exactness unless start() finds a poll queued, and tidiness unless start() finds one that can still be answered |
| `PollRequest.PollTextCarriesOffset` | src/TelegramBot.cpp:171-200 | a server that parses the rendered poll finds a POST that asks it to close the connection, and a form of the offset, a limit of 100 and a timeout of 60, without the offset if it is 0 |
| `BotStack.BotRunsHttps` | src/TelegramBot.cpp:51-314 | the HttpsClient of a bot runs as HttpsModel says |
| `BotStack.PollOnTheWire` | src/TelegramBot.cpp:171-200 | for every clean run of the bot over every run of the SslClient with the same visible actions: exactly the updates below the current offset have been handled, and a connected session that serves a poll has been handed one request, in which a server reads exactly that offset and that it is to close the connection |
| `DeviceModel.ProcessTwice` | src/Device.cpp:64-124 | two deliveries act like one delivery of both |
| `Chunking.ChunkingIsInvisible` | src/Device.cpp:64-124 | for a stream whose pieces fit the buffer, every division into chunks gives the same replies, events, relays, close and final state as one delivery |
| `Chunking.InvisibleExactlyWhen` | src/Device.cpp:64-124 | for every stream, no division into chunks shows if and only if every piece over 32768 characters finds the device closed, or about to be closed before anything else is seen of it |
| `Chunking.InvisibleWithoutSkips` | src/Device.cpp:77-124 | where no over-long frame is skipped: if and only if the device stays open after no over-long frame |
| `Chunking.LongFrameShows` | src/Device.cpp:121-123 | every stream with an over-long frame that is acted on and leaves the session open can be cut in two so that the outcome differs |
| `Chunking.DoomedExactly` | src/Device.cpp:77-124 | a run of frames ends exactly as if the session had been closed at once if and only if it is closed before its first output |
| `Chunking.CutCloses` | src/Device.cpp:121-123 | a stream can be cut inside any over-long piece, and the device that is still open is then closed as it was before that piece |
| `Chunking.LongPiecesDependOnChunking` | src/Device.cpp:121-123 | a concrete such stream |
| `RelayProofs.CommandsRunTheVectors` | src/Device.cpp:64-124 | the frames of a device are handled as their argument vectors in turn |
| `RelayProofs.RelayRoundTrip` | src/Application.cpp:214-223 | framing and splitting the concatenated relay lines gives back exactly the relayed argument vectors, empty inner fields included, with nothing left over |
| `RelayProofs.FeedIsChunkingBlind` | src/Device.cpp:64-89 | the framing by itself reads the same vectors from any division into chunks |
| `RelayProofs.RelaySurvivesChunking` | src/Application.cpp:214-223 | under any chunking the framing reads exactly the relayed vectors |
| `RelayProofs.FeedIsTheDevice` | src/Device.cpp:64-124 | for any chunks, a device that is still open holds in its buffer what the framing holds and has executed exactly the vectors the framing has read |
| `RelayProofs.RelayReachesTheDevice` | src/Application.cpp:214-223 | another device that is fed the relayed lines under any chunking ends as if it had executed exactly the relayed vectors, nothing left over, unless a line over its buffer limit is cut |
| `RelayProofs.RelayReachesExactlyWhen` | src/Device.cpp:64-124 | all chunkings do so if and only if the lines are safe in the sense of Chunking.InvisibleExactlyWhen |
| `RelayProofs.ShortRelaysReachTheDevice` | src/Device.cpp:64-124 | in particular for lines within the limit, whatever the configuration and authority of that device |
| `RelayProofs.ProcessRelaysRelayable` | src/Device.cpp:91-119 | a device relays only vectors the round trip holds for: a non-empty first field, and no separator or line break in any |
| `ReceiverModel.StepKeeps` | src/ApplicationReceiver.cpp:46-107 | every event keeps the authority invariant |
| `ReceiverModel.EveryRunHasOneAuthority` | src/ApplicationReceiver.cpp:46-107 | over all interleavings at most one session is authorized, it has a device and is active, it is the session of the latest logon without a later teardown, and every relay, GPS event and heartbeat reply came from the holder of its moment |
| `ReceiverModel.HolderPresentedTheImei` | src/Device.cpp:126-165 | the holder presented the IMEI configured at that moment, and no logon or teardown came since |
| `ReceiverModel.TeardownsAlternate` | src/Device.cpp:38-52 | between two teardown events there is a logon |
| `TrackerSession.SessionIsHeard` | src/Device.cpp:64-260 | a tracker that logs on with the configured IMEI and goes on with heartbeats and packets within the buffer limit, however its text is cut up, gets "LOAD" once and "ON" for every heartbeat, and every packet is relayed, behind its tracker event exactly if it has 6 or more than 11 fields, an IMEI and, where it gives a position, numbers; in order, and nothing else happens |
| `TrackerSession.TurnedAwayExactlyWhen` | src/Device.cpp:94-116 | a device closes its session on a malformed logon, on one with another IMEI by a session without the authority, on anything else by such a session, and on a heartbeat with another IMEI, and on nothing else; it then reports the teardown of an authority it held, and the close |
| `TrackerSession.NothingBehindARefusal` | src/Device.cpp:112-116 | nothing that comes behind such a packet is heard, however the text is cut up |
| `TrackerSession.HolderChangesItsName` | src/Device.cpp:126-165 | the holder may log on under another IMEI and keeps the authority |
| `GatewayRuns.EveryRunIsOrderly` | src/Device.cpp:91-119 | over all interleavings of sessions: a reportable packet is relayed right behind its tracker event and there is no other such event; "LOAD" answers every logon and nothing else does; a session that was shut has no device and is not active |
| `GatewayRuns.ActiveExactlyWhen` | src/TcpSession.cpp:45-99 | in every run the active sessions are those that were started and neither lost nor shut since |
| `GatewayRuns.EndedIsGone` | src/ApplicationReceiver.cpp:46-101 | a session that was shut, or lost, or there when the server failed, has no device |
| `GatewayRuns.GoneForGood` | src/ApplicationReceiver.cpp:83-107 | and is never heard of again, whatever happens |
| `GatewayRuns.NewSessionIsHeard` | src/ApplicationReceiver.cpp:68-107 | after any run a new session that logs on with the configured IMEI takes the authority, whoever held it, is heard from beginning to end, and leaves the other devices as they are |
| `Receiver.Device.CommandLogon` | src/Device.cpp:126-165 | accepts exactly a well-formed logon and then does what the machine does; a logon that is refused clears the IMEI if only the IMEI was malformed and keeps it otherwise |
| `Receiver.Device.CommandHeartbeat` | src/Device.cpp:167-177 | its new state and outputs are those of the machine chunking, relay and authority are proved of |
| `Receiver.Device.CommandGpsData` | src/Device.cpp:179-260 | reports the data unless the IMEI field or a coordinate is malformed |
| `Receiver.Device.Destroy` | src/Device.cpp:38-52 | the destructor gives up the authority, with a teardown event, only if the device holds it |
| `Receiver.Device.HandleFrame` | src/Device.cpp:78-119 | one frame is handled exactly as in the machine of which TrackerSession and GatewayRuns prove what every frame leads to, and the result tells whether the session was closed |
| `Receiver.Device.ProcessData` | src/Device.cpp:64-124 | the framing loop is the function over the split stream |
| `Receiver.Application.HandleTcpSessionConnect` | src/ApplicationReceiver.cpp:68-81 | its new state is the step of the machine, and the authority invariant is kept |
| `Receiver.Application.HandleTcpSessionDisconnect` | src/ApplicationReceiver.cpp:83-101 | its new state is the step of the machine, and the authority invariant is kept |
| `Receiver.Application.HandleTcpSessionReceivedData` | src/ApplicationReceiver.cpp:103-107 | its new state is the step of the machine, and the authority invariant is kept |
| `Receiver.Application.HandleTcpServerError` | src/ApplicationReceiver.cpp:46-66 | its new state is the step of the machine, and the authority invariant is kept |
| `TcpSessionModel.EveryRunWritesInOrder` | src/TcpSession.cpp:45-149 | in every run accepted sends are completed writes followed by the queue, at most one write is outstanding and it is the queue's front, at most one read is outstanding |
| `TcpSessionModel.ClosedForGood` | src/TcpSession.cpp:45-62 | a closed session stays closed and accepts no further send, in every continuation of every run |
| `TcpSessionModel.OpenUntilClosed` | src/TcpSession.cpp:45-83 | in every run the socket is open exactly as long as nobody called close() or disconnect() and no operation failed, and the sends accepted are exactly those made until then |
| `TcpSessionModel.ReadsUntilClosed` | src/TcpSession.cpp:85-132 | in every run a started session has a read outstanding, and is active, exactly until it is closed |
| `TcpSession.Connection.Send` | src/TcpSession.cpp:72-83 | its new state is exactly that of the machine the write order is proved of |
| `TcpSession.Connection.Cleanup` | src/TcpSession.cpp:45-54 | its new state is exactly that of the machine the write order is proved of |
| `TcpSession.Connection.Start` | src/TcpSession.cpp:85-99 | its new state is the step of the machine, and the write order is kept |
| `TcpSession.Connection.HandleRead` | src/TcpSession.cpp:113-132 | its new state is the step of the machine, and the write order is kept |
| `TcpSession.Connection.HandleWrite` | src/TcpSession.cpp:134-149 | its new state is the step of the machine, and the write order is kept |
| `TransmitterModel.ParseIsLossless` | src/ApplicationTransmitter.cpp:131-210 | the consumed tokens, written out, followed by what stays buffered are the buffer |
| `TransmitterModel.ParseIsExhaustive` | src/ApplicationTransmitter.cpp:131-210 | on normal exit the buffer holds no ';', does not start with "ON" if authorized, and is shorter than four characters if not; access is denied only before any token was consumed |
| `TransmitterModel.GrantComesFirst` | src/ApplicationTransmitter.cpp:142-169 | authorization is gained only by "LOAD", as the first token and once; without it nothing is consumed |
| `TransmitterModel.StepKeepsGuard` | src/ApplicationTransmitter.cpp:46-232 | every event keeps the guard |
| `TransmitterModel.NothingBeforeTheGrant` | src/ApplicationTransmitter.cpp:46-232 | in every run, until "LOAD" is consumed in a session nothing but the login line is sent in it and no command reaches a device |
| `Downlink.CommandsArriveExactlyWhen` | src/ApplicationTransmitter.cpp:131-210 | for every stream of heartbeat answers and complete lines: under every division into chunks the tracker gets exactly the lines of at least two characters, each once and in order, if and only if no line comes right behind two or more answers, none of one character behind one, and none is longer than the buffer limit |
| `Downlink.CommandsArrive` | src/ApplicationTransmitter.cpp:203-209 | then nothing else about the session changes, and without a tracker the lines are consumed and nothing is passed on |
| `Downlink.AdmittedExactlyWhen` | src/ApplicationTransmitter.cpp:138-187 | before the grant a session goes on if and only if what was read so far holds no command and is shorter than four characters or starts with "LOAD", which grants access |
| `Downlink.GoesOnExactlyWhen` | src/ApplicationTransmitter.cpp:212-213 | after it, if and only if what is left over is within the limit |
| `Downlink.GrantIsUnderstood` | src/ApplicationTransmitter.cpp:131-210 | "LOAD" and any number of answers grant access and are consumed, however they are cut up |
| `Chain.SessionReachesTheNext` | src/ApplicationTransmitter.cpp:46-72 | for every run of a transmitter, what it sends in a session, the login line, heartbeats and relayed commands, another gateway with the same IMEI hears, however it is cut up: it logs the session on, answers every heartbeat, and relays and reports every command |
| `Chain.RepliesAreUnderstood` | src/Device.cpp:126-177 | what that gateway sends back, the transmitter understands, however it is cut up: access is granted and nothing is passed on |
| `Transmitter.Application.ParseOne` | src/ApplicationTransmitter.cpp:131-210 | one iteration of the loop is one decision of the parser, and an iteration that goes on shortens the buffer |
| `Transmitter.Application.ParseLoop` | src/ApplicationTransmitter.cpp:131-210 | the loop terminates and is the parser |
| `Transmitter.Application.HandleTcpClientReceivedData` | src/ApplicationTransmitter.cpp:116-214 | its new state is the step of the machine the guard is proved of |
| `Transmitter.Application.HandleTcpClientConnect` | src/ApplicationTransmitter.cpp:46-72 | its new state is the step of the machine the guard is proved of |
| `Transmitter.Application.HandleTcpClientDisconnect` | src/ApplicationTransmitter.cpp:74-93 | its new state is the step of the machine the guard is proved of |
| `Transmitter.Application.HandleTransmitterTimer` | src/ApplicationTransmitter.cpp:216-232 | its new state is the step of the machine the guard is proved of |
| `Transmitter.Application.HandleDeviceCommand` | src/Application.cpp:214-223 | its new state is the step of the machine the guard is proved of, with the relay line the round trip is about |
| `Uplink.StepInTune` | src/ApplicationTransmitter.cpp:46-232 | every callback, timer and command keeps the transmitter in tune with its TcpClient; a connection is reported only while it is down and data only while it is up |
| `Uplink.UplinkHolds` | src/ApplicationTransmitter.cpp:46-232 | for every pair of runs of transmitter and TcpClient with the same visible actions: it takes itself to be up exactly while the client is Connected, what the client accepted is what it sent, and until "LOAD" that is nothing but the login line |
| `Uplink.TimerReconnectsExactlyWhen` | src/ApplicationTransmitter.cpp:74-232 | after every such pair of runs the timer connects if and only if the transmitter is enabled and its client is Disconnected, and sends a heartbeat if and only if access is granted, an IMEI is configured and the client is Connected |
| `Multipart.GenerateRandomString` | src/HttpParser.cpp:33-41 | goes on where the drawn text ended |
| `Multipart.Extend` | src/HttpParser.cpp:138-142 | terminates on value length minus boundary length; the boundary only grows, ends up outside the value, and no earlier than needed |
| `Multipart.GenerateMultipartBoundary` | src/HttpParser.cpp:134-145 | the boundary occurs in no file value, those examined before it grew included; it is empty exactly when there is no file; four characters less would occur in some file |
| `Multipart.GeneratePart` | src/HttpParser.cpp:115-127 | the text of one argument |
| `Multipart.GenerateMultipartFormData` | src/HttpParser.cpp:110-132 | the loop writes the body |
| `Multipart.SplitsExactlyWhen` | src/HttpParser.cpp:110-132 | cutting a body at CRLF "--" boundary gives back its parts if and only if no value, with the line break before it, holds that delimiter (section 5.1.1 of RFC 2046) |
| `Multipart.BoundaryInValueBreaksParts` | src/HttpParser.cpp:134-145 | for every boundary, arguments it is fresh for whose body does not fall into their parts, because a value that is no file holds it |
| `Multipart.ValueInverts` | src/HttpParser.cpp:115-127 | the value is recovered from its part, whatever blank lines it holds |
| `Multipart.NameInverts` | src/HttpParser.cpp:115-120 | so is a name without a quote |
| `Multipart.MultipartInverts` | src/HttpParser.cpp:110-145 | with a fresh boundary every part, value and name is recovered, in order |
| `Multipart.BodyIsSpelled` | src/HttpParser.cpp:110-132 | the body, spelled out: the disposition with name and file name, the type of a file, a blank line and the value, between delimiters (section 4 of RFC 7578) |
| `FormEncoding.UrlEncodeInverts` | src/HttpParser.cpp:43-59 | percent-decoding inverts the encoding of every byte string (section 2.1 of RFC 3986) |
| `FormEncoding.UnchangedExactlyWhen` | src/HttpParser.cpp:43-59 | a text goes through unchanged if and only if it has unreserved characters and colons only |
| `FormEncoding.FormEncodingInverts` | src/HttpParser.cpp:147-163 | every list of byte-string pairs is read back by splitting on '&' and '=' and decoding |
| `FormEncoding.UrlEncodeLoop` | src/HttpParser.cpp:43-59 | the loop encodes, and its result decodes to its argument |
| `FormEncoding.GenerateWwwFormUrlencoded` | src/HttpParser.cpp:147-163 | the loop writes the form, and its result is read back to its arguments |
| `Http.HeaderEnd` | src/HttpParser.cpp:180-191 | the header of a message ends at its own blank line, whatever its body holds |
| `Http.ScanFields` | src/HttpParser.cpp:193-220 | scanning the header lines of a message gives its fields in order |
| `Http.ParseMessage` | src/HttpParser.cpp:180-223 | parsing any message gives back its fields and its exact body (section 3 of RFC 7230) |
| `Http.DecimalInverts` | src/HttpParser.cpp:103-103 | the decimal text of a length denotes it and survives trimming |
| `Http.TrimIsExact` | src/HttpParser.cpp:218-218 | trimming takes all blanks off both ends of a value and nothing else |
| `HttpBare.BareExactlyWhen` | src/HttpParser.cpp:180-223 | a message with bare line feeds is read as its fields and exact body if and only if its body holds no blank line with carriage returns (section 3.5 of RFC 7230) |
| `HttpBare.NoHeaderEnd` | src/HttpParser.cpp:222-222 | a text with neither kind of blank line has no body |
| `HttpBare.ShortFirstLine` | src/HttpParser.cpp:199-208 | what is read off a first line of one or two words |
| `HttpParser.RequestRoundTrip` | src/HttpParser.cpp:67-108 | parsing a generated request gives exactly its method, target, host, connection, type, a Content-Length that is the body's length, every header that was there before, and the exact body |
| `HttpParser.RequestSays` | src/HttpParser.cpp:67-108 | what a server reads off a request: GET without arguments and POST with them, the target, the host, "keep-alive" or "close" as asked, and with arguments the kind of form, the body and its length |
| `HttpParser.RequestText` | src/HttpParser.cpp:67-108 | the request on the wire, line by line |
| `HttpParser.ResponseText` | src/HttpParser.cpp:165-178 | the response on the wire, line by line |
| `HttpParser.AddressRoundTrip` | src/Url.cpp:38-120 | the same from the text of an address on |
| `HttpParser.ResponseRoundTrip` | src/HttpParser.cpp:165-178 | parsing a generated response gives exactly its status, type and length, and the exact data |
| `HttpParser.GenerateRequest` | src/HttpParser.cpp:67-108 | writes the request of which RequestSays and RequestText prove what it says, with a fresh boundary exactly when there are files |
| `HttpParser.GenerateBody` | src/HttpParser.cpp:89-100 | chooses the kind of form |
| `HttpParser.GenerateResponse` | src/HttpParser.cpp:165-178 | writes the response the round trip is about |
| `HttpParser.NextField` | src/HttpParser.cpp:211-218 | one turn of the scanning loop peels one field off what remains, also when a position has wrapped around |
| `HttpParser.ScanHeaders` | src/HttpParser.cpp:193-220 | the scanning loop terminates and reads the headers |
| `HttpParser.ParseMessageText` | src/HttpParser.cpp:180-223 | parseHttp, on every text, malformed ones included, is the function the round trips are about |
| `HttpParser.ParseBody` | src/HttpParser.cpp:225-238 | the other parseHttp returns the same body, except that a text without a header end is all body |
| `UrlModel.ParseCompose` | src/Url.cpp:38-120 | parsing inverts the recomposition of well-formed components (section 3 of RFC 3986) |
| `UrlModel.RoundTripExactlyWhen` | src/Url.cpp:38-120 | and of no others |
| `UrlModel.QueryNeedsAPath` | src/Url.cpp:38-120 | components that do not come back: a query without a path |
| `UrlModel.ParseIsStable` | src/Url.cpp:38-120 | parsing any text, recomposing and parsing again changes nothing |
| `UrlModel.OnlyAProtocol` | src/Url.cpp:55-66 | an address without a colon is all protocol |
| `UrlModel.NothingBehind` | src/Url.cpp:55-66 | so is one with at most two characters behind its first colon, which are lost |
| `UrlModel.TwoAreSkipped` | src/Url.cpp:55-66 | the two characters behind the colon may be any |
| `UrlModel.PathIsSupplied` | src/Url.cpp:67-90 | for a query or a fragment right behind the host the path "/" is supplied |
| `UrlParser.Parser.Parse` | src/Url.cpp:38-120 | the character loop with its flags is the automaton |
| `Wildcard.MatchesExactly` | src/Utilities.cpp:55-88 | the matcher decides membership in the language of the pattern, both ways |
| `Wildcard.PlainPattern` | src/Utilities.cpp:55-88 | a pattern without wildcards matches its own text in any case and nothing else |
| `Wildcard.QuestionMarks` | src/Utilities.cpp:55-88 | question marks match exactly the texts of their number |
| `Wildcard.Stars` | src/Utilities.cpp:55-88 | a star behind or before a pattern lets it match a beginning or an end |
| `Wildcard.WildcardMatch` | src/Utilities.cpp:55-88 | for every string and NUL-free pattern the recursive loop terminates, stays within the terminator and returns true exactly for members of the language |
| `SettingsModel.SaveRepresents` | src/ApplicationDatabase.cpp:176-213 | saving distinct settings does not conflict and the table then holds exactly them |
| `SettingsModel.SaveConflictsExactlyWhen` | src/ApplicationDatabase.cpp:69-71 | saving succeeds if and only if the ids are distinct |
| `SettingsModel.ArmChangesOneEntry` | src/ApplicationCommands.cpp:315-380 | the command changes its caller's entry and no other |
| `SettingsModel.StepAgrees` | src/ApplicationCommands.cpp:315-409 | every event keeps memory and table in agreement and changes the caller's status only |
| `SettingsModel.EveryRunAgrees` | src/ApplicationCommands.cpp:315-409 | so does every run of /arm, /disarm and restart |
| `SettingsModel.EveryRunObeys` | src/ApplicationCommands.cpp:315-409 | in every run from the empty table, restarts included, each user's status is what their last effective command says: 1 for /arm, 2 with "paranoid" and 3 with "insane" in any case, 0 for /disarm of a known user |
| `SettingsModel.RestoreAfterSave` | src/ApplicationDatabase.cpp:115-174 | restoring after a save, rows in any order, gives the same mapping |
| `Settings.Application.DbSaveSettings` | src/ApplicationDatabase.cpp:176-213 | the loop saves, and reports failure exactly on a conflict |
| `Settings.Application.HandleArmCommand` | src/ApplicationCommands.cpp:315-380 | its new state is the step of the store, and memory and table stay in agreement |
| `Settings.Application.HandleDisarmCommand` | src/ApplicationCommands.cpp:382-409 | its new state is the step of the store, and memory and table stay in agreement |
| `Settings.Application.DbRestoreSettings` | src/ApplicationDatabase.cpp:115-174 | its new state is the step of the store, and memory and table stay in agreement |

## Left out

- Boost.Asio, mbedtls and SQLite: only the completions, result codes and keyed table the code depends on are here; _sslBuffer is inside the mbedtls results.
- A client without a handler: every owner in the program installs one, and the model assumes it.
- HttpsClient::stop: it has no caller and clears the queue while a disconnect may be in flight.
- Timers of HttpsClient and of the transmitter: a timer event may come at any moment, which covers every way they are set; when they are set is not modelled.
- TelegramModel.UpdatesAreHandledExactlyOnce: update ids stay below the largest 32-bit value, where the original's increment would overflow.
- JSON parsing: a response parses into updates or does not parse; TgTypeParser and the message types have no print and parse round trip to state.
- GPS coordinates: whether the fields read as numbers is an argument, and their values, rounding included, are not modelled.
- Receiver.Device.CommandGpsData: a tracker time of twelve digits that is no date makes from_iso_string throw out of the handler (src/Device.cpp:204-211), which nothing catches, so the process ends; the model has no state for an ended process and covers only times that are dates.
- Wildcard.WildcardMatch: a pattern with a NUL character would match the terminator and read past it; such patterns are excluded.
- A failing database, and dbGetGpsData over several rows, whose row object is reused.
- Settings.Application.HandleArmCommand: the chat replies and the user lookup before it are not modelled.
- HttpParser.GenerateResponse: the keep-alive argument is not used by the original and is dropped.
- Logging, configuration loading, command line, message wording and process teardown.
