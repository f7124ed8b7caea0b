/** The two threads of the client: the one on the framed link and the one on the local service. */
module ClientStates {
  import opened Wire
  import opened Messages
  import opened Sessions
  import opened Pipes
  import opened RelayStates

  const CLIENT_BATCH: nat := 5

  // ---------------------------------------------------------- framed link

  /** `closing` is the shared close event, `open` tells that the socket is still registered. */
  datatype RemoteState = RemoteState(
    sendq: Octets, recvq: Octets, writeEnabled: bool, mask: Mask, closing: bool, open: bool)
  {
    /** Pending bytes keep EVENT_WRITE armed; nothing ever disarms it. */
    predicate Arming() {
      (sendq != [] ==> writeEnabled) && mask == MaskFor(writeEnabled)
    }

    /** `enqueue_sendq`. */
    function Enqueue(data: Octets): RemoteState {
      var s := this.(sendq := sendq + data);
      if data != [] && !writeEnabled then s.(writeEnabled := true, mask := ReadWrite) else s
    }

    /** The EVENT_WRITE half of `handle_relay`. */
    function WriteReady(r: SendResult): RemoteState
      requires r.Sent? ==> r.n <= |sendq|
    {
      if sendq == [] then this
      else match r
        case Sent(n) => this.(sendq := sendq[n..])
        case SendBroken => this.(closing := true, open := false)
        case SendWouldBlock => this
    }

    /** The EVENT_READ half of `handle_relay`. */
    function ReadReady(r: RecvResult): RemoteState {
      match r
      case Received(data) =>
        if data == [] then this.(closing := true, open := false) else this.(recvq := recvq + data)
      case RecvBroken => this.(closing := true, open := false)
      case RecvWouldBlock => this
    }

    /** `handle_relay`: a broken write ends the callback before the read. */
    function HandleRelay(write: bool, read: bool, sent: SendResult, got: RecvResult): RemoteState
      requires sent.Sent? ==> sent.n <= |sendq|
    {
      var s := if write then WriteReady(sent) else this;
      if read && (open ==> s.open) then s.ReadReady(got) else s
    }

    /** `process_msg`: session messages go to the local thread, an ERROR closes, the rest is logged. */
    function Process(m: Message): (RemoteState, Trace) {
      if IsSessionMessage(m) then (this, [FromWire(m)])
      else if m.kind == MessageType.Error then (this.(closing := true), [])
      else (this, [])
    }

    /** One iteration of `while len(recvq) > 0`; the flag tells whether the loop goes on. */
    function DecodeOne(): (RemoteState, Trace, bool) {
      match Deserialize(recvq)
      case Failed(_) => (this, [], false)
      case Got(m, rest) => var (s, out) := this.(recvq := rest).Process(m); (s, out, true)
    }

    /** The whole receive drain. */
    function Receive(): (RemoteState, Trace)
      decreases |recvq|
    {
      if recvq == [] then (this, [])
      else
        var (s, out, more) := DecodeOne();
        if !more then (s, out)
        else var (last, rest) := s.Receive(); (last, out + rest)
    }

    /** One entry of the local thread's queue, put on the link. NEW is not expected here and raises. */
    function Forward(q: Queued): RemoteState
      requires Sendable(q) && q.kind != NewSession
    {
      Enqueue(FrameOf(q))
    }
  }

  /** The link thread's drain of its queue: a bounded batch; a NEW in it raises. */
  function ForwardBatch(s: RemoteState, queue: Trace, turns: nat): (RemoteState, Trace, bool)
    requires AllSendable(queue)
    decreases turns
  {
    if turns == 0 || queue == [] then (s, queue, false)
    else if queue[0].kind == NewSession then (s, queue[1..], true)
    else ForwardBatch(s.Forward(queue[0]), queue[1..], turns - 1)
  }

  /** One turn of the link thread's loop: the callback for the link, and what the local thread had queued by its end. */
  datatype LinkRound = LinkRound(write: bool, read: bool, sent: SendResult, got: RecvResult, replies: Trace)

  function LinkReplies(r: LinkRound): Trace { r.replies }

  /** What the link gives to read in a turn. */
  function LinkOctets(r: LinkRound): Octets { if r.read && r.got.Received? then r.got.data else [] }

  /** The link is at its end, or reset. */
  predicate LinkGone(r: LinkRound) { r.read && (r.got.RecvBroken? || r.got == Received([])) }

  /** A send of pending octets fails in this turn, and ends the callback. */
  predicate SendFails(sendq: Octets, r: LinkRound) { r.write && sendq != [] && r.sent.SendBroken? }

  // -------------------------------------------------------- local service

  datatype Proxied = Proxied(
    sendq: Octets, writeEnabled: bool, mask: Mask, closed: bool, closeSent: bool, relayId: Port)
  {
    predicate Arming() {
      (sendq != [] ==> writeEnabled) && (!closed ==> mask == MaskFor(writeEnabled))
    }
  }

  /** One `(key, mask)` pair out of the local thread's `select`, with what the socket then answers. */
  datatype IoEvent = IoEvent(k: Key, read: bool, write: bool, recv: RecvResult, send: SendResult)

  /** One turn of the local thread's loop: what the link thread had queued, the answers to connects, the callbacks. */
  datatype LocalRound = LocalRound(arrivals: Trace, answers: nat -> Answer, events: seq<IoEvent>)

  function LocalArrivals(r: LocalRound): Trace { r.arrivals }

  function Dialled(relayId: Port): Proxied { Proxied([], false, ReadOnly, false, false, relayId) }

  /**
   What a NEW meets: a connection, a refused one, or a socket whose descriptor number the selector
   still has for a closed connection, so that registering it raises KeyError.
   */
  datatype Answer = Connects | Refuses | Clashes

  /** `dead` tells that an exception has ended the thread. */
  datatype LocalState = LocalState(remotePort: Port, connections: map<Key, Proxied>, dead: bool) {
    predicate Arming() { forall k | k in connections :: connections[k].Arming() }

    /** An entry whose socket is closed, but still in the selector under its old descriptor number. */
    predicate AnyClosed() { exists k | k in connections :: connections[k].closed }

    /** One entry of `from_remote_proxy`, with the kernel's answer to what a NEW asks of it. */
    function Take(q: Queued, answer: Answer): (LocalState, Trace) {
      match q.kind
      case NewSession =>
        (match answer
         case Connects => (this.(connections := connections[q.key := Dialled(q.relayPort)]), [])
         case Refuses => (this.(connections := connections - {q.key}), [Queued(CloseSession, q.key, [], remotePort)])
         case Clashes => (this.(connections := connections[q.key := Dialled(q.relayPort)], dead := true), []))
      case Payload =>
        if q.key !in connections then (this, [Queued(CloseSession, q.key, [], remotePort)])
        else
          var p := connections[q.key];
          var now := p.(sendq := p.sendq + q.data, writeEnabled := true,
                        mask := if p.writeEnabled || p.closed then p.mask else ReadWrite);
          // selector.modify raises on a closed descriptor
          (this.(connections := connections[q.key := now], dead := dead || (p.closed && !p.writeEnabled)), [])
      case CloseSession =>
        // cleanup_socket raises KeyError for an absent address
        if q.key !in connections then (this.(dead := true), [])
        else (this.(connections := connections - {q.key}), [])
    }

    /**
     Taking these entries, every connect made, the thread comes to a NEW of the address before an
     exception ends it and, where that is asked, before it has said anything about the address.
     */
    predicate Meets(w: Trace, k: Key, silent: bool)
      decreases |w|
    {
      && !dead && w != []
      && (|| (w[0].kind == NewSession && w[0].key == k)
          || (&& (silent && w[0].key == k ==> Take(w[0], Connects).1 == [])
              && Take(w[0], Connects).0.Meets(w[1..], k, silent)))
    }

    predicate Live(k: Key) { k in connections && !connections[k].closed }

    /** The EVENT_READ half of `handle_io_event`. */
    function ReadReady(k: Key, r: RecvResult): (LocalState, Trace)
      requires Live(k)
    {
      var p := connections[k];
      match r
      case Received(data) =>
        if data != [] then (this, [Queued(Payload, k, data, p.relayId)])
        else (this.(connections := connections[k := p.(closed := true, closeSent := true)]),
              [Queued(CloseSession, k, [], p.relayId)])
      case RecvBroken => (this.(connections := connections[k := p.(closed := true)]), [])
      case RecvWouldBlock => (this, [])
    }

    predicate CanSend(k: Key, r: SendResult) {
      k in connections && (r.Sent? ==> r.n <= |connections[k].sendq|)
    }

    /** The EVENT_WRITE half of `handle_io_event`. */
    function WriteReady(k: Key, r: SendResult): (LocalState, Trace)
      requires Live(k) && CanSend(k, r)
    {
      var p := connections[k];
      if p.sendq == [] || r.SendWouldBlock? then (this, [])
      else if r.SendBroken? then
        (this.(connections := connections[k := p.(closed := true, closeSent := true)]),
         [Queued(CloseSession, k, [], p.relayId)])
      else if r.n < |p.sendq| then (this.(connections := connections[k := p.(sendq := p.sendq[r.n..])]), [])
      else (this.(connections := connections[k := p.(sendq := [], writeEnabled := false, mask := ReadOnly)]), [])
    }

    /** `handle_io_event`: reads first; EOF and a reset end the callback before the write. */
    function HandleIo(k: Key, read: bool, write: bool, r: RecvResult, s: SendResult): (LocalState, Trace)
      requires Live(k) && CanSend(k, s)
    {
      var (mid, out) := if read then ReadReady(k, r) else (this, []);
      if !write || !mid.Live(k) then (mid, out)
      else var (last, more) := mid.WriteReady(k, s); (last, out + more)
    }

    /** One callback of the loop; what the kernel cannot report in this state is not reported. */
    function Serve(e: IoEvent): (LocalState, Trace) {
      if Live(e.k) && CanSend(e.k, e.send) then HandleIo(e.k, e.read, e.write, e.recv, e.send) else (this, [])
    }

    /** `for key, mask in events`. */
    function ServeAll(events: seq<IoEvent>): (LocalState, Trace)
      decreases |events|
    {
      if events == [] then (this, [])
      else
        var (s, out) := Serve(events[0]);
        var (last, more) := s.ServeAll(events[1..]);
        (last, out + more)
    }

    /** One turn of the main loop; an exception in the batch is its end. */
    function Turn(queue: Trace, round: LocalRound): (LocalState, Trace, Trace) {
      var (s, out, left) := TakeBatch(queue + round.arrivals, CLIENT_BATCH, round.answers);
      if s.dead then (s, out, left)
      else var (t, more) := s.ServeAll(round.events); (t, out + more, left)
    }

    /** The main loop, until its end or an exception. */
    function Loop(queue: Trace, rounds: seq<LocalRound>): (LocalState, Trace, Trace)
      decreases |rounds|
    {
      if rounds == [] || dead then (this, [], queue)
      else
        var (s, out, left) := Turn(queue, rounds[0]);
        var (last, more, rest) := s.Loop(left, rounds[1..]);
        (last, out + more, rest)
    }

    /** The clean-up after the loop, for one address. */
    function Dismiss(k: Key): (LocalState, Trace)
      requires k in connections
    {
      (this.(connections := connections - {k}), [Queued(CloseSession, k, [], connections[k].relayId)])
    }

    /** A batch off the inbound queue, with the answers to the connects it makes; an exception ends it. */
    function TakeBatch(queue: Trace, turns: nat, answers: nat -> Answer): (LocalState, Trace, Trace)
      decreases turns
    {
      if turns == 0 || queue == [] || dead then (this, [], queue)
      else
        var (s, out) := Take(queue[0], answers(turns));
        var (last, more, left) := s.TakeBatch(queue[1..], turns - 1, answers);
        (last, out + more, left)
    }

    predicate CanDismiss(order: seq<Key>) {
      && (forall i | 0 <= i < |order| :: order[i] in connections)
      && forall i, j | 0 <= i < j < |order| :: order[i] != order[j]
    }

    /** The whole clean-up after the loop. */
    function DismissAll(order: seq<Key>): (LocalState, Trace)
      requires CanDismiss(order)
      decreases |order|
    {
      if order == [] then (this, [])
      else
        var (s, out) := Dismiss(order[0]);
        var (last, more) := s.DismissAll(order[1..]);
        (last, out + more)
    }
  }
}
