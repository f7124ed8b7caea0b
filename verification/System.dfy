/**
 The running system: relay, manager, link thread and local thread, four FIFO queues and two byte
 links. A step is one callback, or one queue entry or frame handled, by one thread; the runs are all
 interleavings of such steps.
 */
module System {
  import opened Wire
  import opened Messages
  import opened Sessions
  import opened Pipes
  import opened RelayStates
  import opened ManagerStates
  import opened ClientStates

  /** Bytes recorded per session: an address and the ordinal of its session, from one. */
  type Tape = map<(Key, nat), Octets>

  function On(t: Tape, k: Key, i: nat): Octets { if (k, i) in t then t[(k, i)] else [] }

  function Record(t: Tape, k: Key, i: nat, data: Octets): Tape { t[(k, i) := On(t, k, i) + data] }

  /** What has become of the client's connections, by what their sockets answered. */
  datatype Endings = Endings(
    said: map<Key, nat>,  // how many CLOSEs of the address had been said when its last NEW was taken
    over: set<Key>,       // since then a read came to the end of the stream, or a write of pending octets broke
    reset: set<Key>)      // since then a read was reset
  {
    function Begin(k: Key, closes: nat): Endings { Endings(said[k := closes], over - {k}, reset - {k}) }

    function AfterRead(k: Key, r: RecvResult): Endings {
      this.(over := if r == Received([]) then over + {k} else over,
            reset := if r.RecvBroken? then reset + {k} else reset)
    }

    function AfterWrite(k: Key, pending: Octets, r: SendResult): Endings {
      this.(over := if pending != [] && r.SendBroken? then over + {k} else over)
    }
  }

  /** Histories; nothing in the system reads them. */
  datatype Log = Log(
    emitted: Trace,       // put on the inbound queue by the relay
    consumed: Trace,      // taken by the local thread
    replied: Trace,       // put on the to-proxy queue by the local thread
    applied: Trace,       // taken off the outbound queue by the relay
    externalRead: Tape,   // read from external sockets
    localWritten: Tape,   // written to local sockets
    localRead: Tape,      // read from local sockets
    externalSent: Tape,   // written to external sockets
    refused: set<Key>,    // addresses whose last NEW met a refused connect
    endings: Endings,     // how the client's connections ended
    lost: Octets,         // what followed OPEN_RELAY in the handshake's receive
    hasty: set<(Key, nat)>,      // sessions whose address was not quiet when it was accepted
    unsettled: set<(Key, nat)>)  // sessions whose address was not settled when it was accepted

  /** A thread with a table of connections: in its loop, or cleaning up after it. */
  datatype Phase = Serving | Closing

  datatype System = System(
    relay: RelayState, phase: Phase, manager: ManagerState, remote: RemoteState,
    local: LocalState, localPhase: Phase,
    inbound: Trace, outbound: Trace, fromRemote: Trace, toRemote: Trace,
    down: Octets, up: Octets, started: bool, log: Log)
  {
    /** From the relay to the local thread; until the handshake, without the leading OPEN_RELAY frame. */
    function Downlink(): Pipe {
      if started then Pipe(log.emitted, inbound, manager.sendq, down, remote.recvq, fromRemote, log.consumed)
      else Pipe(log.emitted, inbound, Drop(down + manager.sendq, 5), [], [], [], [])
    }

    /** From the local thread to the relay. */
    function Uplink(): Pipe {
      Pipe(log.replied, toRemote, remote.sendq, up, manager.recvq, outbound, log.applied)
    }

    /** The ordinal of the address's latest session as the relay counts, and as the client does. */
    function RelaySession(k: Key): nat { Count(log.emitted, NewSession, k) }

    function ClientSession(k: Key): nat { Count(log.consumed, NewSession, k) }

    /** The local thread is in its loop. */
    predicate Attends() { localPhase == Serving && !local.dead }

    /** Its connection for the address can still be read. */
    predicate LiveAt(k: Key) { Attends() && local.Live(k) }

    /** It may still come to a NEW of the address, in silence about it if that is asked. */
    predicate MayMeet(k: Key, silent: bool) { Attends() && local.Meets(Downlink().Transit(), k, silent) }

    /**
     A session that begins now gets no data of an earlier one: there is none ahead of a CLOSE that
     will end the new session, and where no such CLOSE is under way, no more can come.
     */
    predicate Quiet(k: Key) {
      var up := Uplink().Transit();
      Ahead(up, k) == [] && (Count(up, CloseSession, k) == 0 ==> !LiveAt(k) && !MayMeet(k, true))
    }

    /** No data of an earlier session is under way at all, and no more can come. */
    predicate Settled(k: Key) {
      KeyBytes(Uplink().Transit(), k) == [] && !LiveAt(k) && !MayMeet(k, false)
    }

    // ------------------------------------------------------------- steps

    function Emit(effect: (RelayState, Trace)): System {
      this.(relay := effect.0, inbound := inbound + effect.1, log := log.(emitted := log.emitted + effect.1))
    }

    function Reply(effect: (LocalState, Trace)): System {
      this.(local := effect.0, toRemote := toRemote + effect.1, log := log.(replied := log.replied + effect.1))
    }

    function ExternalAccept(k: Key, id: nat): System {
      var begun := {(k, RelaySession(k) + 1)};
      Emit(relay.Accept(k, id))
        .Note(log.(hasty := if Quiet(k) then log.hasty else log.hasty + begun,
                   unsettled := if Settled(k) then log.unsettled else log.unsettled + begun))
    }

    /** Keep the steps' own histories, take the other fields of the log from `l`. */
    function Note(l: Log): System {
      this.(log := l.(emitted := log.emitted, consumed := log.consumed, replied := log.replied, applied := log.applied))
    }

    function ExternalRead(k: Key, r: RecvResult): System
      requires k in relay.table && Readable(r)
    {
      var data := if r.Received? then r.data else [];
      Emit(relay.ReadReady(k, r))
        .Note(log.(externalRead := Record(log.externalRead, k, RelaySession(k), data)))
    }

    function ExternalWrite(k: Key, r: SendResult): System
      requires relay.CanSend(k, r)
    {
      var data := if r.Sent? then relay.table[k].sendq[..r.n] else [];
      Emit(relay.WriteReady(k, r))
        .Note(log.(externalSent := Record(log.externalSent, k, RelaySession(k), data)))
    }

    function RelayTake(): System
      requires outbound != []
    {
      var q := outbound[0];
      var (r, out, _) := relay.TakeOutbound(q);
      this.(outbound := outbound[1..], log := log.(applied := log.applied + [q]))
        .Emit((r, out))
    }

    function ManagerWrite(r: SendResult): System
      requires r.Sent? ==> r.n <= |manager.sendq|
    {
      this.(manager := manager.WriteReady(r), down := down + if r.Sent? then manager.sendq[..r.n] else [])
    }

    function ManagerRead(n: nat): System
      requires n <= |up|
    {
      this.(manager := manager.ReadReady(Received(up[..n])), up := up[n..])
    }

    /** One iteration of the manager's receive loop; here the only relay is the client's own. */
    function ManagerDecode(allot: nat -> Option<Port>): System
      requires manager.recvq != []
    {
      var (m, e, _) := manager.DecodeOne(allot);
      this.(manager := m, outbound := outbound + if e.Enqueue? && e.relay == relay.port then [e.q] else [])
    }

    function ManagerForward(): System
      requires inbound != [] && Sendable(inbound[0])
    {
      this.(manager := manager.Forward(inbound[0]), inbound := inbound[1..])
    }

    /** The client takes OPEN_RELAY off its first `recv`; whatever came with it is dropped. */
    function Handshake(n: nat): System
      requires n <= |down| && Deserialize(down[..n]).Got?
    {
      this.(down := down[n..], started := true, log := log.(lost := Deserialize(down[..n]).rest))
    }

    function RemoteWrite(r: SendResult): System
      requires r.Sent? ==> r.n <= |remote.sendq|
    {
      this.(remote := remote.WriteReady(r), up := up + if r.Sent? then remote.sendq[..r.n] else [])
    }

    function RemoteRead(n: nat): System
      requires n <= |down|
    {
      this.(remote := remote.ReadReady(Received(down[..n])), down := down[n..])
    }

    function RemoteDecode(): System {
      var (m, out, _) := remote.DecodeOne();
      this.(remote := m, fromRemote := fromRemote + out)
    }

    function RemoteForward(): System
      requires toRemote != [] && Sendable(toRemote[0]) && toRemote[0].kind != NewSession
    {
      this.(remote := remote.Forward(toRemote[0]), toRemote := toRemote[1..])
    }

    function LocalTake(answer: Answer): System
      requires fromRemote != []
    {
      var q := fromRemote[0];
      var r := if q.kind != NewSession then log.refused
               else if answer.Refuses? then log.refused + {q.key} else log.refused - {q.key};
      var e := if q.kind == NewSession then log.endings.Begin(q.key, Count(log.replied, CloseSession, q.key))
               else log.endings;
      this.(fromRemote := fromRemote[1..], log := log.(consumed := log.consumed + [q]))
        .Reply(local.Take(q, answer)).Note(log.(refused := r, endings := e))
    }

    function LocalRead(k: Key, r: RecvResult): System
      requires local.Live(k)
    {
      var data := if r.Received? then r.data else [];
      Reply(local.ReadReady(k, r))
        .Note(log.(localRead := Record(log.localRead, k, ClientSession(k), data),
                   endings := log.endings.AfterRead(k, r)))
    }

    function LocalWrite(k: Key, r: SendResult): System
      requires local.Live(k) && local.CanSend(k, r)
    {
      var data := if r.Sent? then local.connections[k].sendq[..r.n] else [];
      Reply(local.WriteReady(k, r))
        .Note(log.(localWritten := Record(log.localWritten, k, ClientSession(k), data),
                   endings := log.endings.AfterWrite(k, local.connections[k].sendq, r)))
    }
  }

  /** Who does what next. */
  datatype Action =
    | Accept(k: Key, id: nat)
    | ReadExternal(k: Key, recv: RecvResult)
    | WriteExternal(k: Key, send: SendResult)
    | TakeOutbound
    | LeaveLoop                       // the relay thread leaves its loop
    | CleanUp(k: Key)                 // and cleans up one connection after it
    | SendDown(send: SendResult)
    | ReceiveUp(n: nat)
    | DecodeUp(allot: nat -> Option<Port>)
    | ForwardDown
    | Shake(n: nat)
    | SendUp(send: SendResult)
    | ReceiveDown(n: nat)
    | DecodeDown
    | ForwardUp
    | TakeInbound(answer: Answer)
    | ReadLocal(k: Key, recv: RecvResult)
    | WriteLocal(k: Key, send: SendResult)
    | LeaveLocalLoop                  // the local thread leaves its loop
    | Dismiss(k: Key)                 // and cleans up one connection after it

  /** What the environment may do: the kernel does not hand out a peer or a descriptor twice at a time. */
  predicate Enabled(s: System, a: Action) {
    match a
    case Accept(k, id) => s.phase == Serving && k !in s.relay.table && id !in s.relay.peers
    case ReadExternal(k, r) => s.phase == Serving && k in s.relay.table && Readable(r)
    case WriteExternal(k, r) => s.phase == Serving && s.relay.CanSend(k, r)
    case TakeOutbound => s.phase == Serving && s.outbound != []
    case LeaveLoop => s.phase == Serving
    case CleanUp(k) => s.phase == Closing && k in s.relay.table
    case SendDown(r) => r.Sent? ==> r.n <= |s.manager.sendq|
    case ReceiveUp(n) => n <= |s.up|
    case DecodeUp(_) => s.manager.recvq != []
    case ForwardDown => s.inbound != [] && Sendable(s.inbound[0])
    case Shake(n) => !s.started && n <= |s.down| && Deserialize(s.down[..n]).Got?
                     && Deserialize(s.down[..n]).msg.kind == OpenRelay
    case SendUp(r) => s.started && (r.Sent? ==> r.n <= |s.remote.sendq|)
    case ReceiveDown(n) => s.started && n <= |s.down|
    case DecodeDown => s.started && s.remote.recvq != []
    case ForwardUp => s.started && s.toRemote != [] && Sendable(s.toRemote[0]) && s.toRemote[0].kind != NewSession
    case TakeInbound(answer) => s.started && s.localPhase == Serving && !s.local.dead && s.fromRemote != []
                                && (answer.Clashes? ==> s.local.AnyClosed())
    case ReadLocal(k, r) => s.started && s.localPhase == Serving && !s.local.dead && s.local.Live(k)
       && (r.Received? ==> |r.data| <= RECV_SIZE)
    case WriteLocal(k, r) => s.started && s.localPhase == Serving && !s.local.dead && s.local.Live(k)
       && s.local.CanSend(k, r)
    case LeaveLocalLoop => s.localPhase == Serving
    case Dismiss(k) => s.started && s.localPhase == Closing && !s.local.dead && k in s.local.connections
  }

  function Apply(s: System, a: Action): System
    requires Enabled(s, a)
  {
    match a
    case Accept(k, id) => s.ExternalAccept(k, id)
    case ReadExternal(k, r) => s.ExternalRead(k, r)
    case WriteExternal(k, r) => s.ExternalWrite(k, r)
    case TakeOutbound => s.RelayTake()
    case LeaveLoop => s.(phase := Closing)
    case CleanUp(k) => s.Emit(s.relay.CleanUp(k))
    case SendDown(r) => s.ManagerWrite(r)
    case ReceiveUp(n) => s.ManagerRead(n)
    case DecodeUp(allot) => s.ManagerDecode(allot)
    case ForwardDown => s.ManagerForward()
    case Shake(n) => s.Handshake(n)
    case SendUp(r) => s.RemoteWrite(r)
    case ReceiveDown(n) => s.RemoteRead(n)
    case DecodeDown => s.RemoteDecode()
    case ForwardUp => s.RemoteForward()
    case TakeInbound(answer) => s.LocalTake(answer)
    case ReadLocal(k, r) => s.LocalRead(k, r)
    case WriteLocal(k, r) => s.LocalWrite(k, r)
    case LeaveLocalLoop => s.(localPhase := Closing)
    case Dismiss(k) => s.Reply(s.local.Dismiss(k))
  }

  /** A relay has just been created for the client; its OPEN_RELAY frame is queued. */
  function Initial(port: Port): System {
    System(Opened(port), Serving, Connected().(relays := {port}).AddToSendq(Frame(RelayMessage(OpenRelay, port))),
           RemoteState([], [], false, ReadOnly, false, true), LocalState(port, map[], false), Serving,
           [], [], [], [], [], [], false,
           Log([], [], [], [], map[], map[], map[], map[], {}, Endings(map[], {}, {}), [], {}, {}))
  }

  predicate IsRun(s: System, actions: seq<Action>)
    decreases |actions|
  {
    actions == [] || (Enabled(s, actions[0]) && IsRun(Apply(s, actions[0]), actions[1..]))
  }

  function Run(s: System, actions: seq<Action>): System
    requires IsRun(s, actions)
    decreases |actions|
  {
    if actions == [] then s else Run(Apply(s, actions[0]), actions[1..])
  }
}
