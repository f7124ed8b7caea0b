/** One relay as a state machine: what each callback of its event loop does, and what every run keeps. */
module RelayStates {
  import opened Wire
  import opened Sessions

  datatype Sock = WakeupReader | Listener | Peer(id: nat)

  /** EVENT_READ, or EVENT_READ|EVENT_WRITE. */
  datatype Mask = ReadOnly | ReadWrite

  /** What `send` and `recv` on a socket may answer. An empty `Received` is EOF. */
  datatype SendResult = Sent(n: nat) | SendBroken | SendWouldBlock
  datatype RecvResult = Received(data: Octets) | RecvBroken | RecvWouldBlock

  /** The kernel takes no more than it is given. */
  function Capped(r: SendResult, most: nat): SendResult { if r.Sent? && r.n > most then Sent(most) else r }

  const RECV_SIZE: nat := 4096

  /** A single `recv(4096)` on a readable socket. */
  predicate Readable(r: RecvResult) { !r.RecvWouldBlock? && (r.Received? ==> |r.data| <= RECV_SIZE) }

  datatype Conn = Conn(sck: nat, sendq: Octets, writeEnabled: bool)

  /** How taking one entry off the outbound queue ended; all but the first leave the drain loop. */
  datatype Verdict = Processed | UnknownKey | InvalidType

  /** One `(key, mask)` pair out of `select`, with what the socket then answers. */
  datatype Ready =
    | Connecting(k: Key, id: nat)
    | Traffic(id: nat, write: bool, read: bool, send: SendResult, recv: RecvResult)
    | Woken

  /** One turn of the event loop; `arrivals` and `stop` are what the other threads did by the time of its drain. */
  datatype Round = Round(ready: seq<Ready>, arrivals: Trace, stop: bool)

  function RoundArrivals(r: Round): Trace { r.arrivals }

  function MaskFor(writeEnabled: bool): Mask { if writeEnabled then ReadWrite else ReadOnly }

  /**
   `peers` is what `getpeername` answers for each open descriptor, `gauge` this relay's own
   contribution to ACTIVE_CONNECTIONS.
   */
  datatype RelayState = RelayState(
    port: Port, table: map<Key, Conn>, peers: map<nat, Key>, selector: map<Sock, Mask>,
    gauge: int, atomicClose: bool)
  {
    /** `accept_inbound_connection` for a connection from `k` on a new descriptor. */
    function Accept(k: Key, id: nat): (RelayState, Trace) {
      (this.(table := table[k := Conn(id, [], false)],
             peers := peers[id := k],
             selector := selector[Peer(id) := ReadOnly],
             gauge := gauge + 1),
       [Queued(NewSession, k, [], port)])
    }

    /** `clean_up_connection`. */
    function CleanUp(k: Key): (RelayState, Trace)
      requires k in table
    {
      var id := table[k].sck;
      (this.(table := table - {k}, peers := peers - {id}, selector := selector - {Peer(id)}, gauge := gauge - 1),
       [Queued(CloseSession, k, [], port)])
    }

    predicate CanSend(k: Key, r: SendResult) {
      k in table && (r.Sent? ==> r.n <= |table[k].sendq|)
    }

    /** The EVENT_WRITE half of `handle_socket`. */
    function WriteReady(k: Key, r: SendResult): (RelayState, Trace)
      requires CanSend(k, r)
    {
      var con := table[k];
      if con.sendq == [] || r.SendWouldBlock? then (this, [])
      else if r.SendBroken? then CleanUp(k)
      else if r.n < |con.sendq| then (this.(table := table[k := con.(sendq := con.sendq[r.n..])]), [])
      else (this.(table := table[k := con.(sendq := [], writeEnabled := false)],
                  selector := selector[Peer(con.sck) := ReadOnly]), [])
    }

    /** The EVENT_READ half of `handle_socket`. */
    function ReadReady(k: Key, r: RecvResult): (RelayState, Trace)
      requires k in table && Readable(r)
    {
      if r.RecvBroken? || r.data == [] then CleanUp(k)
      else (this, [Queued(Payload, k, r.data, port)])
    }

    /** `handle_socket` on a descriptor: a broken write ends the callback before the read. */
    function HandleSocket(id: nat, write: bool, read: bool, s: SendResult, r: RecvResult): (RelayState, Trace)
      requires id in peers && CanSend(peers[id], s) && Readable(r)
    {
      var k := peers[id];
      var (mid, out) := if write then WriteReady(k, s) else (this, []);
      if !read || k !in mid.table then (mid, out)
      else var (last, more) := mid.ReadReady(k, r); (last, out + more)
    }

    /** One turn of the outbound drain in `open`: look the key up, then act on the kind. */
    function TakeOutbound(q: Queued): (RelayState, Trace, Verdict) {
      if q.key !in table then (this, [], UnknownKey)
      else match q.kind
        case Payload =>
          var con := table[q.key];
          (this.(table := table[q.key := con.(sendq := con.sendq + q.data, writeEnabled := true)],
                 selector := if con.writeEnabled then selector else selector[Peer(con.sck) := ReadWrite]),
           [], Processed)
        case CloseSession => var (r, out) := CleanUp(q.key); (r, out, Processed)
        case NewSession => (this.(atomicClose := true), [], InvalidType)
    }

    /** The whole drain: the new state, what it emitted, what it left on the queue, and why it stopped. */
    function DrainOutbound(queue: Trace): (RelayState, Trace, Trace, Verdict)
      decreases |queue|
    {
      if queue == [] || atomicClose then (this, [], queue, Processed)
      else
        var (r, out, v) := TakeOutbound(queue[0]);
        if v != Processed then (r, out, queue[1..], v)
        else var (last, more, left, w) := r.DrainOutbound(queue[1..]); (last, out + more, left, w)
    }

    /** New descriptors are unused ones, other events are for open ones, and `send` takes what it is given. */
    predicate Possible(e: Ready) {
      match e
      case Connecting(_, id) => id !in peers
      case Traffic(id, _, _, send, recv) => id in peers && CanSend(peers[id], send) && Readable(recv)
      case Woken => true
    }

    /** One callback; what the kernel cannot report in this state is not reported. */
    function Handle(e: Ready): (RelayState, Trace) {
      if !Possible(e) then (this, [])
      else match e
        case Connecting(k, id) => Accept(k, id)
        case Traffic(id, write, read, send, recv) => HandleSocket(id, write, read, send, recv)
        case Woken => (this, [])
    }

    /** `for key, mask in events`. */
    function Serve(ready: seq<Ready>): (RelayState, Trace)
      decreases |ready|
    {
      if ready == [] then (this, [])
      else
        var (r, out) := Handle(ready[0]);
        var (last, more) := r.Serve(ready[1..]);
        (last, out + more)
    }

    /** The callbacks of one turn, and then the drain of what is on the outbound queue by then. */
    function Turn(queue: Trace, round: Round): (RelayState, Trace, Trace) {
      var (r, out) := Serve(round.ready);
      var (s, more, left, _) := r.(atomicClose := r.atomicClose || round.stop).DrainOutbound(queue + round.arrivals);
      (s, out + more, left)
    }

    /** The loop of `open`. */
    function Loop(queue: Trace, rounds: seq<Round>): (RelayState, Trace, Trace)
      decreases |rounds|
    {
      if rounds == [] || atomicClose then (this, [], queue)
      else
        var (r, out, left) := Turn(queue, rounds[0]);
        var (last, more, rest) := r.Loop(left, rounds[1..]);
        (last, out + more, rest)
    }

    predicate CanClose(order: seq<Key>) {
      && (forall i | 0 <= i < |order| :: order[i] in table)
      && forall i, j | 0 <= i < j < |order| :: order[i] != order[j]
    }

    /** The clean-up after the loop, in the given order of the table's keys. */
    function CloseAll(order: seq<Key>): (RelayState, Trace)
      requires CanClose(order)
      decreases |order|
    {
      if order == [] then (this, [])
      else
        var (r, out) := CleanUp(order[0]);
        var (last, more) := r.CloseAll(order[1..]);
        (last, out + more)
    }

    // ------------------------------------------------------------ invariant

    /** Connection table, selector and gauge say the same; pending bytes keep EVENT_WRITE armed. */
    ghost predicate Agrees() {
      && (forall id | id in peers :: Open(id))
      && (forall k | k in table :: Armed(k))
      && (forall x | x in selector :: Known(x))
      && WakeupReader in selector && selector[WakeupReader] == ReadOnly
      && Listener in selector && selector[Listener] == ReadOnly
      && gauge == |table|
    }

    predicate Open(id: nat)
      requires id in peers
    {
      peers[id] in table && table[peers[id]].sck == id
    }

    predicate Armed(k: Key)
      requires k in table
    {
      && table[k].sck in peers && peers[table[k].sck] == k
      && Peer(table[k].sck) in selector
      && selector[Peer(table[k].sck)] == MaskFor(table[k].writeEnabled)
      && (table[k].sendq != [] ==> table[k].writeEnabled)
    }

    predicate Known(x: Sock) {
      x.Peer? ==> x.id in peers
    }

    /** The emitted trace `t` obeys the session grammar and its open sessions are the table. */
    ghost predicate Tells(t: Trace) {
      && Agrees() && Grammatical(t) && OpenKeys(t) == table.Keys
      && AllSendable(t) && forall i | 0 <= i < |t| :: t[i].relayPort == port
    }
  }

  /** A relay about to enter its loop. */
  function Opened(port: Port): RelayState {
    RelayState(port, map[], map[], map[WakeupReader := ReadOnly, Listener := ReadOnly], 0, false)
  }
}
