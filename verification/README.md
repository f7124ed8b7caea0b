# portport

portport publishes a local TCP service on a remote server. The client keeps one framed byte stream
to the server; on the server a relay accepts external connections and every one of them becomes a
session, named by its remote address, on that stream. These Dafny modules model the multiplexing
protocol and prove what it keeps.

* **Frames.** `Wire`, `Utf8`, `Messages` and `MessageProofs` are printer and parser of the nine
  message kinds; `Framing` is incremental decoding of a growing buffer.
* **Sessions and links.** `Sessions` defines traces of NEW, MESSAGE and CLOSE and their grammar.
  `Pipes` is one direction of the link: queue, send buffer, wire, receive buffer, queue.
* **Threads as state machines.** `RelayStates`, `ManagerStates` and `ClientStates` say what each
  callback and loop does, branch by branch; `RelayProofs`, `ManagerProofs`, `Hubs` and
  `ClientProofs` prove what all their runs keep. `Wakeups` is a thread asleep in `select` against
  any number of producers.
* **Threads as objects.** `Queues`, `Relays`, `Managers` and `Clients` are the classes and closures
  with their mutable fields and loops. Each method is proved against the state machine above, and
  the method `Run` of each thread, from its start to its end, carries the thread's results.
* **The running system.** `System` composes relay, manager, link thread and local thread with four
  queues and two byte links. A step is one callback, or one queue entry or frame handled, by one
  thread; the runs are all interleavings of steps. Each queue has one producer and one consumer
  there, so the queue operations inside a step could be spread out without reaching other states.
  `SystemInvariants`, `SystemSteps`, `Meetings` and `Fidelity` carry the invariants, `Theorems`
  states the results for every reachable state, `Closings` says which causes each CLOSE has, `Reuse`
  says exactly when an address that comes back can do harm, over the runs that `Continuations` puts
  together, and `Episodes` gives runs that show where the naive claims fail.

`send` and `recv` are nondeterministic: any partial length, EOF, reset or would-block, and any set of
ready sockets. Addresses are 4 or 16 raw octets. The port a new relay gets, the answers to local
connects and the order in which a dictionary lists its keys are parameters.

Premises that appear in the statements:

* An accept does not return an address that is still in the table: `Enabled` in `RelayProofs` and
  `System`, and `FreshLoop` where the result is an equivalence.
* `log.lost == []`: nothing followed OPEN_RELAY in the handshake's receive.
  `Theorems.HandshakeConservesIffAlone` shows that it is exact, `Episodes.HandshakeLoses` that it
  can fail.
* `(k, i) !in log.hasty`: the address `k` was `Quiet` when its `i`-th session was accepted. That is, no
  data of it was on its way to the relay ahead of a CLOSE; and if no CLOSE of it was on its way, the
  local thread could neither read its connection nor come, without saying anything about it, to a
  NEW of it. `Reuse.QuietIsExact` shows that this decides, accept by accept, whether the new peer
  can be sent what is not its own.
* `(k, i) !in log.unsettled`: it was `Settled`, that is, no data of it was on its way at all, and the
  local thread could neither read its connection nor come to a NEW of it. `Reuse.SettledIsExact`
  shows that this decides whether every byte of the session is accounted for while the relay has it.
  `Reuse.FreshAddresses` shows that accepting each address once is enough for both.

Where code and comments of the repository disagree, the model follows the code. The comment at
src/portport/server/manager.py:244 speaks of three failed decodes that end the connection; a failed
decode only leaves the receive loop. The handler for unsupported message types at
src/portport/server/manager.py:265-269 is never reached, because the parser fails with the
enumeration's ValueError first. The wrong-version handler at src/portport/server/manager.py:258-264
is meant to end the thread, but does not leave the receive loop.

`dafny verify dfyconfig.toml` checks the whole project.

## Model

| member | source | states |
|---|---|---|
| Messages.Deserialize | src/portport/common.py:176-233 | A successful decode consumes at least three octets, and the ports it yields fit in 16 bits, so every drain over it makes progress. |
| MessageProofs.WireFormat | src/portport/common.py:142-170 | Every frame of this version is, octet by octet, the written-out format of its kind: header, codes, address, ports and lengths. |
| MessageProofs.RoundTrip | src/portport/common.py:142-233 | For every non-AUTH message with fields in range and every following octets, decoding the frame gives the fields its kind carries and exactly what follows. |
| MessageProofs.Canonical | src/portport/common.py:142-233 | Whenever a non-AUTH decode succeeds, the input was the frame of the decoded message followed by the remainder: one spelling per message. |
| MessageProofs.DecodeStable | src/portport/common.py:176-246 | A non-AUTH decode that succeeds is not changed by octets that arrive later; they only lengthen the remainder. |
| MessageProofs.PrefixFree | src/portport/common.py:177-233 | No strict prefix of a non-AUTH frame decodes, wherever it is cut. |
| MessageProofs.AuthRoundTrip | src/portport/common.py:148-149 | For AUTH tokens of at most 65535 characters the round trip with any remainder holds if and only if every character is ASCII, because the length field counts characters and the payload is UTF-8. |
| MessageProofs.AuthCutTokenDecodes | src/portport/common.py:190-195 | An AUTH frame cut inside an ASCII token decodes all the same, to the shortened token with nothing left. |
| MessageProofs.UnknownTypeNotReported | src/portport/common.py:181 | An unknown type octet always fails as the enumeration's own error, whatever follows, so the answer the manager has ready for unsupported types is never sent. |
| Utf8.DecodeEncode | src/portport/common.py:194 | Decoding the UTF-8 encoding of any token gives the token back. |
| Utf8.LengthKeptIffAscii | src/portport/common.py:149 | The encoding has as many octets as the token has characters if and only if all of them are ASCII. |
| Framing.DrainFrames | src/portport/common.py:240-246 | Draining frames followed by anything hands on those messages and goes on as if the rest stood alone. |
| Framing.DrainConserves | src/portport/common.py:240-246 | A drained buffer is the frames of what was handed on followed by what is left: nothing lost, nothing invented. |
| Framing.FramesInjective | src/portport/common.py:142-233 | A byte stream has at most one reading as non-AUTH frames. |
| Framing.DrainCut | src/portport/client/cli.py:349-354 | Of any cut of a valid stream the complete frames are handed on, and what is left is a strict prefix of the next frame. |
| Framing.ChunkIndependence | src/portport/client/cli.py:344-354 | Draining after every chunk hands on the same list as draining the whole, for every way of cutting a valid stream; the leftover is always inside the next frame. |
| Framing.WholeStreamDelivered | src/portport/client/cli.py:344-354 | A whole valid stream in any chunks arrives as exactly the list that was sent, with an empty buffer. |
| Sessions.GrammarIsSessionWords | src/portport/server/relay.py:126-177 | A trace obeys the inductive session grammar if and only if, for every address, its messages read (NEW MESSAGE* CLOSE)* with an open tail exactly where the address is open. |
| Sessions.OneCloseEach | src/portport/server/relay.py:136-143 | In a grammatical trace every session of an address but an open last one has exactly one CLOSE. |
| Sessions.CurrentSessionGrows | src/portport/server/relay.py:167-175 | As long as no NEW of the address follows, all its later data belongs to the current session. |
| Sessions.BacklogFalls | src/portport/server/manager.py:276-311 | Where each turn brings at most so many entries, fewer than it may take, what waits on the queue falls by the difference in each turn, down to nothing. |
| Pipes.ToWireFrameable | src/portport/server/manager.py:281-304 | Each queued message has a frame, and the queue entry made from that frame at the other end is the same message. |
| Pipes.WiresRead | src/portport/server/manager.py:280-304 | The frames of a list of queued messages read back as exactly that list, with nothing else among them. |
| Pipes.EncodeAtTail | src/portport/server/manager.py:276-304 | Queueing a frame behind a buffer of whole frames adds exactly that message to what is in flight. |
| Pipes.DecodeAtHead | src/portport/client/cli.py:349-354 | Decoding the first frame of the received part takes exactly the oldest message in flight, wherever the stream is cut between the two ends. |
| Pipes.Pipe.EncodeConserves | src/portport/server/manager.py:280-304 | Moving a queue entry into the send buffer keeps every message, once and in order, between the two ends. |
| Pipes.Pipe.DecodeConserves | src/portport/client/cli.py:349-354 | The same for moving a frame out of the receive buffer, which moreover always holds a session message. |
| Pipes.Pipe.ConsumeConserves | src/portport/client/cli.py:139 | Taking the oldest entry at the far end shortens what is under way by exactly that message. |
| RelayProofs.AcceptKeepsGrammarIffAbsent | src/portport/server/relay.py:126-134 | An accept keeps the emitted trace grammatical if and only if the address is not in the table. |
| RelayProofs.AcceptKeeps | src/portport/server/relay.py:126-134 | An accept of an absent address keeps the grammar, and table, selector and gauge in agreement. |
| RelayProofs.CleanUpKeeps | src/portport/server/relay.py:136-143 | Cleaning up a connection closes its session, removes exactly its address and keeps the books in agreement. |
| RelayProofs.WriteKeeps | src/portport/server/relay.py:151-166 | Every outcome of a send keeps grammar and books, and emits nothing or the one CLOSE of the address. |
| RelayProofs.ReadKeeps | src/portport/server/relay.py:167-177 | Every outcome of a receive keeps grammar and books. |
| RelayProofs.SocketKeeps | src/portport/server/relay.py:145-177 | The whole callback keeps grammar and books, also when a broken write ends it before the read. |
| RelayProofs.SocketDoes | src/portport/server/relay.py:145-177 | For every pair of answers of an open socket the whole callback, written out: what is sent leaves the buffer and an emptied buffer is disarmed, data is reported, EOF, a reset and a broken write of pending octets take the connection out of all books with one CLOSE, and a broken write keeps the callback from reading. |
| RelayProofs.ServeRuns | src/portport/server/relay.py:194-197 | If no accept returns an address in the table, serving the reported events is the run of them, in order, none left out that concerns a connection and that the kernel can report. |
| RelayProofs.OutboundKeeps | src/portport/server/relay.py:199-222 | An entry off the outbound queue keeps grammar and books and emits nothing or one CLOSE; the KeyError is met exactly for an address that is not open, and then no session changes. |
| RelayProofs.SessionGrammar | src/portport/server/relay.py:126-222 | After every run of callbacks and queue entries: session words per address, the open tail exactly where the table has the address, one CLOSE per finished session, and agreement of table, selector, masks and gauge. |
| RelayProofs.ClosedRelay | src/portport/server/relay.py:231-236 | After any run and a clean-up in any order: no session open, every NEW with its one CLOSE, table empty, gauge zero, selector back to the wake-up reader and the listener. |
| RelayProofs.DrainKeeps | src/portport/server/relay.py:199-225 | The outbound drain keeps grammar and books however it ends. |
| RelayProofs.DrainTakes | src/portport/server/relay.py:199-222 | The drain acts on the entries from the front: each connection that stays has all their data behind what it had, each CLOSE ends its session with one CLOSE back, and nothing is left on the queue unless the relay is told to stop or the last entry taken was for an address that was not in the table then. |
| RelayProofs.TurnTakes | src/portport/server/relay.py:192-225 | In every turn, after the callbacks, that is done with all that is on the queue by then. |
| RelayProofs.TurnDelivers | src/portport/server/relay.py:199-210 | If all of it is data for connections that are there after the callbacks, and nothing stops the relay, the queue is empty afterwards and each buffer has grown by exactly its data. |
| RelayProofs.LoopKeeps | src/portport/server/relay.py:192-228 | Over any number of turns of the loop the emitted trace is grammatical if and only if no accept returned an address still in the table. |
| RelayProofs.WholeRun | src/portport/server/relay.py:184-236 | For the whole of open: the trace is a run of whole sessions if and only if that premise held; then NEW and CLOSE match one for one and the books are back where they began. |
| Queues.MessageQueue.Put | src/portport/server/relay.py:107 | An entry goes to the back of the queue and nothing else moves. |
| Queues.MessageQueue.GetNowait | src/portport/server/manager.py:281 | The oldest entry is taken; an empty queue answers Empty and stays empty. |
| Queues.WakeupPair.Wakeup | src/portport/common.py:63-67 | After a wake-up the pipe holds something, also when it was full and the octet was dropped. |
| Queues.WakeupPair.HandleWakeup | src/portport/common.py:51-61 | A readable wake-up socket is read until it is empty. |
| Relays.Relay.constructor | src/portport/server/relay.py:30-66 | A new relay has an empty table, a zero gauge and only the wake-up reader registered. |
| Relays.Relay.EnqueueInbound | src/portport/server/relay.py:110-112 | The message goes to the back of the queue to the manager, and the manager's pipe is nudged once. |
| Relays.Relay.EnqueueOutbound | src/portport/server/relay.py:106-108 | The message goes to the back of the outbound queue and the pipe is nudged. |
| Relays.Relay.AcceptInboundConnection | src/portport/server/relay.py:126-134 | The object ends in the specified state, with one NEW put on the queue, one wake-up of the manager, and nothing else. |
| Relays.Relay.CleanUpConnection | src/portport/server/relay.py:136-143 | True exactly for a known address, whose entry, registration and gauge count are gone after one CLOSE; otherwise nothing has changed. |
| Relays.Relay.WriteReady | src/portport/server/relay.py:151-166 | For every outcome of the send: the specified buffer, flag, mask and table; true exactly when the connection was dropped. |
| Relays.Relay.ReadReady | src/portport/server/relay.py:167-177 | For every outcome of the receive: data goes to the manager whole, EOF and reset drop the connection. |
| Relays.Relay.HandleSocket | src/portport/server/relay.py:145-177 | Write half, then read half unless the write dropped the connection, as the state machine says. |
| Relays.Relay.TakeOutbound | src/portport/server/relay.py:204-217 | One entry is acted on as specified, and the verdict says whether the drain goes on. |
| Relays.Relay.DrainOutbound | src/portport/server/relay.py:199-225 | The drain takes entries in order until the queue is empty, the relay is told to stop, or an entry is unknown or invalid; what it leaves on the queue is stated. |
| Relays.Relay.Serve | src/portport/server/relay.py:194-197 | All reported events are handled in order and their messages emitted in that order, and the own wake-up pipe is emptied if and only if it was among them. |
| Relays.Relay.Turn | src/portport/server/relay.py:192-228 | Callbacks, then the drain of what has arrived by then, to the end of the queue unless the relay is told to stop or the last entry taken was for an address not in the table; each connection has got its data. |
| Relays.Relay.CloseAll | src/portport/server/relay.py:231-233 | Every listed connection is cleaned up, one CLOSE each. |
| Relays.Relay.Loop | src/portport/server/relay.py:192-228 | Turn after turn until told to stop, the object is as the state machine says; what it has taken and what is left is what was queued, and nothing is left but for those two reasons. |
| Relays.Relay.Run | src/portport/server/relay.py:184-236 | The thread from start to end refines the state machine, wakes the manager for each message, and what it has put on the queue is a run of whole sessions, each NEW with one CLOSE and table, gauge and selector empty again, if and only if no accept returned an address still in the table. All that the manager queued by the last turn has been taken, in order, unless the relay was told to stop or the last entry taken was for an address not in the table. |
| Managers.RelayManager.AddToSendq | src/portport/server/manager.py:184-189 | The data is appended, and a first pending octet arms the socket. |
| Managers.RelayManager.HandleRelayClient | src/portport/server/manager.py:154-181 | For every outcome of send and receive: what is sent leaves the buffer, what is received joins the other, the close flag is set exactly by a broken write of pending octets, EOF or a reset, and the read follows the write whatever came of it. |
| Managers.RelayManager.FileRelay | src/portport/server/manager.py:199-209 | A new relay is filed under its port with an empty queue of its own; no other queue changes. |
| Managers.RelayManager.CreateRelay | src/portport/server/manager.py:195-212 | With a port a relay is started and announced; without one an error is queued. |
| Managers.RelayManager.ProcessMsg | src/portport/server/manager.py:192-236 | State and effect are those specified, an entry reaches the queue of the one relay it names and no other, that relay is woken, and the KeyError is met exactly for a CLOSE to an unknown relay. |
| Managers.RelayManager.DecodeOne | src/portport/server/manager.py:254-271 | One iteration: the buffer has advanced before the message is handled; a wrong version queues an error and goes round again; any other failure leaves. |
| Managers.RelayManager.Receive | src/portport/server/manager.py:253-271 | At most the given number of iterations of the receive loop, the messages handed on, all their effects on the relays' queues, and whether the loop is done. |
| Managers.RelayManager.ForwardInbound | src/portport/server/manager.py:276-315 | At most 100 messages are forwarded, in order, none once closing; the rest stays on the queue and none is lost. |
| Managers.RelayManager.Turn | src/portport/server/manager.py:245-317 | A turn reads and writes what the socket allows, takes up every complete frame unless a CLOSE for an unknown relay raises, queues the answers, and then, if the receive loop ends, forwards exactly the oldest hundred of the relays' messages, or all if there are fewer, and none once closing; the close flag is set exactly by EOF, a reset or a broken write. |
| Managers.RelayManager.CloseRelays | src/portport/server/manager.py:321-323 | Every relay still in the table is told to close and has something in its wake-up pipe. |
| Managers.RelayManager.Run | src/portport/server/manager.py:245-324 | The thread from start to end. What it has read is what the socket gave. Of any valid stream the messages handed on are its first ones, each once and in order, no complete frame being left unless one raised; relays, their number and their queues are those that routing these messages gives. The octets written and pending read as frames: the relays' messages that were taken, in order, and between them exactly the answers to the messages handed on; and what waits is what a hundred per turn leave. A valid stream never catches it in the receive loop; if it is caught, a wrong version is at the head; if not, it closes exactly when the stream ends or breaks, and all its relays are told to close and have something in their wake-up pipes. |
| ManagerProofs.ArmedThroughout | src/portport/server/manager.py:154-189 | In every state of every run: octets pending if and only if the flag is set if and only if EVENT_WRITE is registered. |
| ManagerProofs.ReceiveEndsIff | src/portport/server/manager.py:253-271 | The receive loop ends if and only if no wrong-version frame comes to the head of the buffer before a handler raises; it then ends within as many iterations as the buffer has octets. |
| ManagerProofs.NeverEnds | src/portport/server/manager.py:254-264 | Otherwise it never ends: the buffer stays as it is and each further iteration queues a 4-octet ERROR frame. |
| ManagerProofs.WrongVersionSticks | src/portport/server/manager.py:254-264 | Behind any frames that do not raise, the three octets of a header with another version, whatever follows, put the loop in that state. |
| ManagerProofs.LoopTakesNext | src/portport/server/manager.py:253-271 | On a valid stream one receive loop hands on the next messages and keeps the rest, also when handling the last one raised. |
| ManagerProofs.ExactlyOnce | src/portport/server/manager.py:253-271 | In every state: messages handed on, then those in the buffer and the unread octets, are exactly the messages sent, whatever handlers raise. |
| ManagerProofs.EffectsOfHanded | src/portport/server/manager.py:253-271 | The effects of the loop are those of handling each message handed on, once and in order. |
| ManagerProofs.ReceiveAnswers | src/portport/server/manager.py:192-231 | A receive loop that ends has queued exactly the answers to the messages it handed on, in order, and has not touched the close flag. |
| ManagerProofs.ReceiveTakesUp | src/portport/server/manager.py:253-271 | It leaves no complete frame at the head of the buffer, unless the last message handed on was a CLOSE for an unknown relay. |
| ManagerProofs.AnswersSpelt | src/portport/server/manager.py:192-231 | The answers octet by octet: OPEN_RELAY with the port, or the port exhaustion error; DESTROY_RELAY echoed for a known relay; the unknown relay error for data; nothing else; and the octets of the wrong version error. |
| ManagerProofs.ForwardAllTakes | src/portport/server/manager.py:276-315 | The bounded drain takes exactly the oldest messages up to its bound, queues exactly their frames, and none once closing. |
| ManagerProofs.HandedRouted | src/portport/server/manager.py:192-236 | Whatever the receive loop meets, relays and their queues end up as by routing each message handed on once, in order. |
| ManagerProofs.RoutedToEach | src/portport/server/manager.py:214-236 | While relays neither come nor go, each relay's queue gains exactly the data and CLOSEs that name it, all, once and in order. |
| Hubs.CreateIsBeginThenAnnounce | src/portport/server/manager.py:195-212 | Creating a relay is starting its thread and then queueing OPEN_RELAY, in that order. |
| Hubs.DecodingRejects | src/portport/server/manager.py:258-264 | A wrong version at the head is answered with one ERROR frame and a close request, and nothing else changes. |
| Hubs.OutputInOrder | src/portport/server/manager.py:195-304 | With any number of relays and any interleaving, rejected versions included, what is sent and pending reads as frames in which every NEW, DATA and CLOSE follows an OPEN_RELAY for its relay, and each relay's messages appear all, and in its own order. |
| Clients.RemoteProxy.constructor | src/portport/client/cli.py:248-249 | The receive buffer starts empty: what came with OPEN_RELAY is not carried over. |
| Clients.RemoteProxy.HandleRelay | src/portport/client/cli.py:280-309 | For every outcome of send and receive: what is sent leaves the buffer, what is received joins the other, EOF, a reset and a broken write of pending octets close and unregister the link, and a broken write ends the callback. |
| Clients.RemoteProxy.EnqueueSendq | src/portport/client/cli.py:312-317 | The data is appended, and the first data arms the socket. |
| Clients.RemoteProxy.ProcessMsg | src/portport/client/cli.py:320-340 | Session messages go to the local thread and wake it, an ERROR closes and wakes it, anything else changes nothing. |
| Clients.RemoteProxy.Receive | src/portport/client/cli.py:349-354 | The drain terminates, passes on the session messages of the buffer, in order, and wakes the local thread once for each and for each ERROR. |
| Clients.RemoteProxy.ForwardBatch | src/portport/client/cli.py:357-380 | The oldest entries, five at most and up to a NEW, which raises, are framed in order. |
| Clients.RemoteProxy.Turn | src/portport/client/cli.py:344-380 | A turn reads and writes what the link allows, passes on the session messages of all complete frames with one wake-up each and keeps the cut one, and then frames exactly the oldest five entries of the other queue, or all if there are fewer, up to a NEW, which raises; it closes exactly after an ERROR, EOF, a reset or a broken write. |
| Clients.RemoteProxy.Run | src/portport/client/cli.py:344-382 | The thread from start to end: until it closes it has read what the link gave; of any valid stream, however cut, the session messages are passed on, all and in order, and the buffer holds the cut frame; what is taken off the other queue is, frame by frame, what is written and pending, and what waits there is what five per turn leave; pending octets keep EVENT_WRITE registered; without a NEW on that queue it never raises. |
| Clients.ProxiedConnection.ReadReady | src/portport/client/cli.py:69-85 | Data and EOF are reported on the queue, with a wake-up each; a reset closes without a report. |
| Clients.ProxiedConnection.WriteReady | src/portport/client/cli.py:86-100 | A partial send keeps the rest, a complete one disarms and wakes the own thread, a broken one reports CLOSE, wakes the link thread and closes. |
| Clients.ProxiedConnection.HandleIoEvent | src/portport/client/cli.py:68-100 | Read half, then write half unless the connection was closed, with their wake-ups; nothing of the other connections changes. |
| Clients.LocalProxy.CleanUpSocket | src/portport/client/cli.py:126-132 | True exactly for a known address, which is gone afterwards; false, the KeyError, changes nothing. |
| Clients.LocalProxy.Dial | src/portport/client/cli.py:140-152 | NEW enters the address; a refused connect takes it out again, reports CLOSE and wakes the link thread; a descriptor number that the selector still holds for a closed connection raises with the address entered. |
| Clients.LocalProxy.Append | src/portport/client/cli.py:162-165 | Data joins the pending octets of its connection and arms it; arming a closed socket raises. |
| Clients.LocalProxy.TakeOne | src/portport/client/cli.py:139-171 | One queue entry is acted on as specified, including data and CLOSE for an address that is not there, and the three ways in which it raises. |
| Clients.LocalProxy.TakeBatch | src/portport/client/cli.py:136-173 | At most five entries are taken, in order, until the queue is empty or one raises. |
| Clients.LocalProxy.Turn | src/portport/client/cli.py:134-182 | A turn is a batch off the queue and, unless it raised, the callbacks, all as specified and none out of order. |
| Clients.LocalProxy.DismissAll | src/portport/client/cli.py:185-189 | Every listed connection is dropped and reported with one CLOSE and one wake-up. |
| Clients.LocalProxy.Run | src/portport/client/cli.py:134-189 | The thread from start to end plays, until an exception ends it, in each round the oldest five entries of its queue and then every callback; it never says NEW, keeps open connections with pending octets armed, wakes the link thread for each message it says, and unless an exception has ended it leaves no connection behind and says exactly one CLOSE for each it still held when its loop ended. |
| ClientProofs.ReceiveDrains | src/portport/client/cli.py:349-354 | The link thread's drain is the decoding of its buffer: the session messages out, the undecodable rest left, closing exactly after an ERROR. |
| ClientProofs.ChunksDelivered | src/portport/client/cli.py:344-354 | However the link cuts a valid stream, the local thread is passed its session messages, all and in order. |
| ClientProofs.LinkArmed | src/portport/client/cli.py:312-317 | In every state of every run pending octets for the link imply that EVENT_WRITE is registered. |
| ClientProofs.LocalArmed | src/portport/client/cli.py:86-93 | In every state of every run every open connection with pending octets has EVENT_WRITE registered. |
| ClientProofs.BatchTakes | src/portport/client/cli.py:357-380 | The batch takes exactly the oldest entries up to its bound and up to a NEW, queues exactly their frames, and raises if and only if it comes to a NEW. |
| ClientProofs.CallbackDoes | src/portport/client/cli.py:68-100 | For every pair of answers of an open connection's socket the whole callback, written out: data and the end of the stream are reported, a reset is not, a broken write of pending octets is, unless the read has closed the connection before; what is sent leaves the buffer and an emptied buffer is disarmed. |
| ClientProofs.LoopPlays | src/portport/client/cli.py:134-182 | The local thread's loop is, state and messages, five entries at most and then every callback in each round, one after another, until an exception. |
| ClientProofs.NeverNew | src/portport/client/cli.py:68-100 | The local thread never puts a NEW on its queue, whatever it is given, so the batch never raises. |
| ClientProofs.DismissAllAnnounces | src/portport/client/cli.py:185-189 | At shutdown the table is emptied and each of its connections is announced as closed exactly once. |
| Wakeups.NoLostWakeup | src/portport/server/relay.py:93-125 | Under every interleaving with any number of producers, a thread in select with a non-empty queue has an octet in its pipe, or a producer between put and wake-up; or it is a relay and the last entry it took since select returned was for an address not in its table then; or it is bound to a number of entries and has taken exactly so many since select returned. |
| Wakeups.NeverStranded | src/portport/server/relay.py:199-222 | So a relay whose entries all find their address is never left asleep on a non-empty queue with an empty pipe and no producer on the way. |
| Wakeups.BoundStrands | src/portport/server/manager.py:276-311 | The bound is a real exemption: one entry more than it holds can be left behind with an empty pipe and no producer on the way. |
| Wakeups.UnknownAddressStrands | src/portport/server/relay.py:199-222 | So is the KeyError: an entry for an absent address can strand the entry behind it. |
| SystemSteps.ActionKeeps | src/portport/server/relay.py:145-222 | Every step of every thread keeps the invariant of the running system: conservation of both directions, session grammar, client table, arming. |
| SystemSteps.RunKeeps | src/portport/server/relay.py:145-222 | The same over every interleaving. |
| Fidelity.ActionFaithful | src/portport/client/cli.py:68-171 | Every step short of a handshake that loses something keeps, for every address: its session ordinals at relay and client differ by the NEWs under way; every session whose address was quiet at its accept has been sent a prefix of what was read for it; if the relay still has it, what it holds and what is under way ahead of a CLOSE is that session's own, and if the address was settled, all that is under way is. |
| Meetings.MeetsBelow | src/portport/client/cli.py:138-171 | What the local thread can still come to before an exception ends it, in silence or not, only shrinks, by closing, disarming or a connect that is not made. |
| Theorems.ExternalToLocal | src/portport/server/relay.py:167-175 | In every reachable state whose handshake lost nothing, for every session, what was written to the local service is a prefix of what was read from that session's external peer. |
| Theorems.ExternalToLocalInFull | src/portport/server/relay.py:167-175 | There, while both ends are in the same session: octets read externally are those written locally, then the local buffer, the queue, the frames in flight and the relay's queue, nothing missing and in that order. |
| Theorems.LocalToExternal | src/portport/client/cli.py:68-80 | In every reachable state whose handshake lost nothing, for every session whose address was quiet when it was accepted, and however other sessions began: what was sent to its peer is a prefix of what the local service wrote for it. `Reuse.QuietIsExact` shows that the premise is necessary. |
| Theorems.LocalToExternalAhead | src/portport/client/cli.py:68-100 | And while the relay has it in its table: what is sent, held by the relay and under way ahead of a CLOSE is also a prefix of it, and all of it if no CLOSE is under way and the client is in that session. |
| Theorems.LocalToExternalInFull | src/portport/client/cli.py:68-80 | If its address was settled when it was accepted, and while the relay has it in its table: octets read locally are those sent externally, then the relay's buffer, the outbound queue, the frames in flight and the client's queue. `Reuse.SettledIsExact` shows that the premise is necessary. |
| Reuse.FreshAddresses | src/portport/server/relay.py:126-134 | A run that accepts each external address once, and whose handshake lost nothing, accepts only addresses that are quiet and settled. |
| Reuse.LocalToExternalFresh | src/portport/client/cli.py:68-80 | With each external address accepted once, and nothing lost in the handshake, what was sent to an external peer is a prefix of what the local service wrote for that session. |
| Reuse.LocalToExternalInFullFresh | src/portport/client/cli.py:68-80 | And while the relay has the address, every octet read locally is sent, pending or under way. |
| Reuse.FlushUp | src/portport/client/cli.py:356-380 | From every state that the invariant allows after a handshake that lost nothing, the links alone, without another accept, can bring all that the local thread has said to the relay's queue, with nothing else changed at either end. |
| Reuse.SettledIsQuiet | src/portport/server/relay.py:126-134 | An address that is settled is quiet. |
| Reuse.AcceptDecides | src/portport/server/relay.py:126-134 | Whether a session began quiet and settled is decided at its accept, and no continuation changes it. |
| Reuse.QuietIsExact | src/portport/server/relay.py:126-134 | For every accept in every reachable state whose handshake lost nothing: the address is quiet if and only if in every continuation the new peer is sent a prefix of what the local service writes for the new session. |
| Reuse.HarmNeedsNoAccept | src/portport/server/relay.py:126-134 | There, it is not quiet if and only if some continuation without any further accept sends that peer something else. |
| Reuse.SettledIsExact | src/portport/server/relay.py:126-134 | There, the address is settled if and only if in every continuation, while the relay has the new session in its table, the bytes read for it are exactly those sent, pending or under way. |
| Theorems.SessionsAtBothEnds | src/portport/server/relay.py:126-177 | In every reachable state the relay's end, and if the handshake lost nothing also the client's, sees whole sessions per address; each ended one has exactly one CLOSE from the relay, whoever closed first; table, selector and gauge agree. |
| Closings.RelayEnds | src/portport/server/relay.py:136-177 | In every step of the running system the relay says one CLOSE of an address, and the address leaves its table, if and only if its peer is at its end or reset, a write of pending octets breaks, the client's CLOSE arrives or the relay shuts down. |
| Closings.LocalEnds | src/portport/client/cli.py:68-100 | The client says one CLOSE of an address if and only if the service is at the end of its stream, a write of pending octets breaks, the connect is refused, data comes for an address it does not have, or its local thread shuts down; a reset read is no such cause. |
| Closings.ClosesHaveCauses | src/portport/client/cli.py:68-189 | So in every run each end has said exactly as many CLOSEs of an address as there were causes for it. |
| Closings.CloseSentIffSaid | src/portport/client/cli.py:68-100 | In every reachable state, for each connection in the client's table: its CLOSE is marked as sent if and only if exactly one has been said since its NEW was taken, and that exactly if its stream ended or a write broke; otherwise none has been said; and it is closed without that exactly after a reset read. |
| Theorems.WriteArming | src/portport/client/cli.py:162-165 | In every reachable state, at manager, relay and link thread, and if the handshake lost nothing at the local thread, pending octets imply that EVENT_WRITE is registered; at the manager also the converse. |
| Theorems.ClientTable | src/portport/client/cli.py:126-171 | If the handshake lost nothing, and as long as the local thread is in its loop, the keys of the client's table are exactly the sessions open in what it has consumed, less those whose connect was refused. |
| Theorems.NextTaken | src/portport/client/cli.py:139-171 | If the handshake lost nothing: a NEW never meets an entry; data and CLOSE miss theirs exactly when the connect was refused; the thread ends exactly by such a CLOSE, by data for a connection that is closed and not armed, or by a NEW whose socket gets the descriptor number of a closed connection that is still in the selector. |
| Theorems.NothingUnexpected | src/portport/server/manager.py:192-236 | If the handshake lost nothing, the manager never meets a wrong version, an unknown relay or an odd frame from this client, the relay's queue never holds a NEW, and every queued message fits a frame. |
| Theorems.SameMessagesSameOctets | src/portport/common.py:142-233 | Two buffers of whole session frames that carry the same messages are the same octets. |
| Theorems.HandshakeConservesIffAlone | src/portport/client/cli.py:220-249 | The handshake keeps every message if and only if nothing followed OPEN_RELAY in the same receive. |
| Episodes.RefusedConnectEndsThread | src/portport/client/cli.py:148-152 | A run is given in which a refused connect is echoed by the relay as a CLOSE that raises KeyError and ends the local thread. |
| Episodes.DataAfterEofEndsThread | src/portport/client/cli.py:162-165 | A run is given in which data crosses the end of the service's own stream and arming the closed connection ends the local thread. |
| Episodes.ClashEndsThread | src/portport/client/cli.py:71-79 | A run is given in which the service ends its stream and the next NEW, on the same descriptor number, ends the local thread. |
| Episodes.HandshakeLoses | src/portport/client/cli.py:220-249 | A run is given in which a NEW that comes with OPEN_RELAY in one receive is lost. |
| Episodes.ReusedAddressGetsOldBytes | src/portport/server/relay.py:126-134 | A run is given in which an address that comes back too soon is sent octets written for its earlier session. |

## Left out

- Relays.Relay.Turn: what other threads put on the outbound queue during a turn is there before its drain begins; arrivals during the drain are covered by `System` and `Wakeups`, not by the class.
- Managers.RelayManager.Receive: carries a bound on its iterations, because the loop need not end; `over` tells whether it did, and `ManagerProofs.ReceiveEndsIff` says when it does.
- Managers.RelayManager.ProcessMsg: joining a stopped relay's thread, and the CLOSE messages that thread then emits, are outside the method; `DESTROY_RELAY` is never sent by the client.
- Wakeups.NoLostWakeup: says which sleeps end, not when; the `select` timeouts bound the others.
- Queues.WakeupPair.HandleWakeup: the end of the internal socket pair, which would set the closing event; nothing closes it while its thread runs.
- Managers.RelayManager.CloseRelays: joining the relays' threads.
- Managers.RelayManager.Run: speaks of what is put on the relays' queues; that the relays take from them meanwhile is the matter of `System` and `Wakeups`. The same holds for the queues of `Clients.RemoteProxy.Run` and `Clients.LocalProxy.Run`.
- The wake-up callbacks of the manager and of the client's two threads: reading the pipe changes nothing else there; `Wakeups` treats it.
- Relays.Relay.constructor: the search for a port and the bind.
- Liveness and timing in general, including the timeouts of `select`, `join` and the sockets.
- Real sockets, TLS, epoll and `sched_yield`: FIFO byte links and a nondeterministic ready set instead.
- Exceptions that the code does not catch, such as would-block on a relay's receive, `getpeername` on a dead peer or `selector.modify` on the link's closed socket: the thread takes no further step. Those that an entry of its queue can raise in the client's local thread are modelled: the KeyError for an absent address, arming a closed connection, and registering a descriptor number that the selector still holds; a connect that fails in other ways than being refused is not.
- The client's read-reset branch closes without announcing CLOSE; it is a step of the model, and no announcement is claimed for it.
- Descriptor numbers themselves: a NEW may clash whenever some closed connection is still in the selector; which number the kernel hands out is a parameter.
- The composed system has one relay, already created; several relays behind one manager are in `Hubs` and `Managers`.
- The composed system has no wake-up pipes: every step may happen whenever it is enabled; `Wakeups` treats the pipes.
- Address text: `ip_address`, `inet_pton` and `inet_ntop` are taken as a bijection on raw addresses; no IPv6 scope identifiers.
- Lone surrogates in an AUTH token, which UTF-8 cannot encode.
- The authentication handshake, argument parsing, signals, logging, certificates and the metrics other than ACTIVE_CONNECTIONS.
- Port range parsing and first-fit binding: easy members; a relay's port is a parameter.
- `grab_json`, `is_socket_open`, `WakingRelayQueue` and `RelayManageMessage`, which the data path does not use.
