/** The management thread of one client: its buffers, its relay table, its two drain loops. */
module ManagerStates {
  import opened Wire
  import opened Messages
  import opened Sessions
  import opened Pipes
  import opened RelayStates

  /** What handling a message does outside the manager's own variables. */
  datatype Effect =
    | Nothing
    | Enqueue(relay: Port, q: Queued)  // put on that relay's outbound queue
    | Start(relay: Port)               // a relay thread starts
    | Stop(relay: Port)                // its atomic_close is set and the thread joined
    | Raised                           // KeyError out of process_msg

  /** What one iteration of the receive loop did to the loop. */
  datatype Control = Again | Leave

  const NO_RELAY := ErrorMessage(RelayDoesNotExist)
  const NO_PORT := ErrorMessage(RelayFailurePortExhaustion)
  const BAD_VERSION := ErrorMessage(InvalidMsgVersion)

  function ErrorMessage(e: ErrorType): Message { Default(MessageType.Error).(error := e) }

  function RelayMessage(kind: MessageType, p: Port): Message { Default(kind).(relayPort := p) }

  const INBOUND_BATCH: nat := 100

  /** `created` counts the relays asked for, `closing` is close_thread. */
  datatype ManagerState = ManagerState(
    relays: set<Port>, created: nat,
    sendq: Octets, recvq: Octets, writeEnabled: bool, mask: Mask, closing: bool)
  {
    /** EVENT_WRITE is armed, flagged and needed at the same times. */
    predicate Arming() {
      (writeEnabled <==> sendq != []) && mask == MaskFor(writeEnabled)
    }

    /** `add_to_sendq`. */
    function AddToSendq(data: Octets): ManagerState {
      var s := this.(sendq := sendq + data);
      if !writeEnabled && s.sendq != [] then s.(writeEnabled := true, mask := ReadWrite) else s
    }

    /** The EVENT_WRITE half of `handle_relay_client`. */
    function WriteReady(r: SendResult): ManagerState
      requires r.Sent? ==> r.n <= |sendq|
    {
      if sendq == [] then this
      else
        var s := match r
          case Sent(n) => this.(sendq := sendq[n..])
          case SendBroken => this.(closing := true)
          case SendWouldBlock => this;
        if s.sendq == [] then s.(writeEnabled := false, mask := ReadOnly) else s
    }

    /** The EVENT_READ half of `handle_relay_client`. */
    function ReadReady(r: RecvResult): ManagerState {
      match r
      case Received(data) => this.(recvq := recvq + data, closing := closing || data == [])
      case RecvBroken => this.(closing := true)
      case RecvWouldBlock => this
    }

    /** `handle_relay_client`: whatever the write came to, the read follows. */
    function HandleClient(write: bool, read: bool, sent: SendResult, got: RecvResult): ManagerState
      requires sent.Sent? ==> sent.n <= |sendq|
    {
      var s := if write then WriteReady(sent) else this;
      if read then s.ReadReady(got) else s
    }

    /** `process_msg`; `allotted` is the port a new relay gets, if one is free. */
    function Process(m: Message, allotted: Option<Port>): (ManagerState, Effect)
      requires PortsInRange(m)
    {
      match m.kind
      case CreateRelay =>
        var s := this.(created := created + 1);
        (match allotted
         case None => (s.AddToSendq(Frame(NO_PORT)), Nothing)
         case Some(p) => (s.(relays := relays + {p}).AddToSendq(Frame(RelayMessage(OpenRelay, p))), Start(p)))
      case CloseConnection =>
        if m.relayPort !in relays then (this, Raised) else (this, Enqueue(m.relayPort, FromWire(m)))
      case DestroyRelay =>
        if m.relayPort !in relays then (this, Nothing)
        else (this.(relays := relays - {m.relayPort}).AddToSendq(Frame(RelayMessage(DestroyRelay, m.relayPort))),
              Stop(m.relayPort))
      case Data =>
        if m.relayPort !in relays then (this.AddToSendq(Frame(NO_RELAY)), Nothing)
        else (this, Enqueue(m.relayPort, FromWire(m)))
      case _ => (this, Nothing)
    }

    /** One iteration of `while len(recvq) > 0`; the buffer has advanced before the message is handled. */
    function DecodeOne(allot: nat -> Option<Port>): (ManagerState, Effect, Control)
      requires recvq != []
    {
      match Deserialize(recvq)
      case Got(m, rest) =>
        var (s, e) := this.(recvq := rest).Process(m, allot(created));
        (s, e, if e == Raised then Leave else Again)
      case Failed(error) =>
        if error.BadVersion? then (this.AddToSendq(Frame(BAD_VERSION)).(closing := true), Nothing, Again)
        else (this, Nothing, Leave)
    }

    /** At most `turns` iterations of the receive loop; the flag tells that the loop was left. */
    function Receive(turns: nat, allot: nat -> Option<Port>): (ManagerState, seq<Effect>, bool)
      decreases turns
    {
      if recvq == [] then (this, [], true)
      else if turns == 0 then (this, [], false)
      else
        var (s, e, c) := DecodeOne(allot);
        if c == Leave then (s, [e], true)
        else var (last, es, over) := s.Receive(turns - 1, allot); (last, [e] + es, over)
    }

    /** One relay message forwarded to the client. */
    function Forward(q: Queued): ManagerState
      requires Sendable(q)
    {
      AddToSendq(FrameOf(q))
    }

    /** The inbound drain: at most `turns` messages, none once closing. */
    function ForwardAll(queue: Trace, turns: nat): (ManagerState, Trace)
      requires AllSendable(queue)
      decreases turns
    {
      if turns == 0 || closing || queue == [] then (this, queue)
      else Forward(queue[0]).ForwardAll(queue[1..], turns - 1)
    }
  }

  /** One turn of the main loop: the callback for the client's socket, and what the relays had queued by its drain. */
  datatype ManagerRound = ManagerRound(write: bool, read: bool, sent: SendResult, got: RecvResult, arrivals: Trace)

  function RelayArrivals(r: ManagerRound): Trace { r.arrivals }

  /** What the client's socket gives to read in a turn. */
  function ClientOctets(r: ManagerRound): Octets { if r.read && r.got.Received? then r.got.data else [] }

  /** The client's socket is at its end, or reset. */
  predicate ClientGone(r: ManagerRound) { r.read && (r.got.RecvBroken? || r.got == Received([])) }

  /** What an effect does to the relays' outbound queues. */
  function Route(queues: map<Port, Trace>, e: Effect): map<Port, Trace> {
    match e
    case Enqueue(p, q) => if p in queues then queues[p := queues[p] + [q]] else queues
    case Start(p) => queues[p := []]
    case Stop(p) => queues - {p}
    case Nothing | Raised => queues
  }

  function RouteAll(queues: map<Port, Trace>, es: seq<Effect>): map<Port, Trace>
    decreases |es|
  {
    if es == [] then queues else RouteAll(Route(queues, es[0]), es[1..])
  }

  function Connected(): ManagerState { ManagerState({}, 0, [], [], false, ReadOnly, false) }
}
