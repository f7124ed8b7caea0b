/** Concrete runs that show where the promises end. */
module Episodes {
  import opened Wire
  import opened Messages
  import opened MessageProofs
  import opened Sessions
  import opened Pipes
  import opened RelayStates
  import opened ManagerStates
  import opened ClientStates
  import opened System
  import opened SystemSteps
  import opened Continuations
  import opened Theorems

  lemma Step(s: System, a: Action, t: System)
    requires Enabled(s, a) && t == Apply(s, a)
    requires Reachable(s)
    ensures Reachable(t)
  {
    hide Enabled, Apply, Initial, Leads;
    var port :| Leads(Initial(port), s);
    Onward(Initial(port), s, a, t);
  }

  /** The handshake with nothing after OPEN_RELAY. */
  function Shaken(port: Port): System {
    var s := Initial(port);
    s.(manager := Connected().(relays := {port}), started := true)
  }

  lemma ShakenReachable(port: Port)
    ensures Reachable(Shaken(port))
  {
    hide Deserialize, Frame, Reachable, Initial, Shaken, Carried, Encodable;
    var s := Initial(port);
    var open := RelayMessage(OpenRelay, port);
    OpenFrame(port);
    var f := Frame(open);
    OpenQueued(port, f);
    RoundTrip(open, []);
    OpenCarried(port);
    InitialReachable(port);
    assert f[5..] == [] && f[..5] == f && [] + f == f && f + [] == f;
    var s1 := s.ManagerWrite(Sent(5));
    Step(s, SendDown(Sent(5)), s1);
    assert s1 == s.(manager := Connected().(relays := {port}), down := f);
    var s2 := s1.Handshake(5);
    Step(s1, Shake(5), s2);
    ShakenIs(port, s2);
  }

  lemma OpenQueued(port: Port, f: Octets)
    requires f == Frame(RelayMessage(OpenRelay, port)) && f != []
    ensures var s := Initial(port);
            && s.manager == Connected().(relays := {port}, sendq := f, writeEnabled := true, mask := ReadWrite)
            && s.down == [] && !s.started && s.log.lost == []
  {
    hide Frame;
    assert [] + f == f;
  }

  lemma ShakenIs(port: Port, t: System)
    requires t == Initial(port).(manager := Connected().(relays := {port}), down := [], started := true,
                                 log := Initial(port).log.(lost := []))
    ensures t == Shaken(port)
  {
    hide Frame;
  }

  lemma InitialReachable(port: Port)
    ensures Reachable(Initial(port))
  {
    LeadsNowhere(Initial(port));
  }

  /** One message travels from the relay's queue to the client's. */
  lemma DeliverDown(s: System, q: Queued, t: System)
    requires s.started && s.inbound == [q] && Sendable(q) && s.down == [] && s.remote.recvq == []
    requires s.manager.sendq == [] && s.manager.Arming()
    requires t == s.(inbound := [], fromRemote := s.fromRemote + [q])
    requires Reachable(s)
    ensures Reachable(t)
  {
    hide Reachable, Deserialize, Frame, ToWire, Sendable, FromWire, RemoteState.DecodeOne;
    var f := FrameOf(q);
    assert [] + f == f && f[|f|..] == [] && f[..|f|] == f;
    var s1 := s.ManagerForward();
    Step(s, ForwardDown, s1);
    var s2 := s1.ManagerWrite(Sent(|f|));
    Step(s1, SendDown(Sent(|f|)), s2);
    assert s2 == s.(inbound := [], down := f);
    DecodedDown(s2, q, t);
  }

  lemma DecodedDown(s: System, q: Queued, t: System)
    requires s.started && Sendable(q) && s.down == FrameOf(q) && s.remote.recvq == []
    requires t == s.(down := [], fromRemote := s.fromRemote + [q])
    requires Reachable(s)
    ensures Reachable(t)
  {
    hide Reachable, Deserialize, Frame, ToWire, Sendable, FromWire, Carried, Encodable;
    var f := FrameOf(q);
    ToWireFrameable(q);
    RoundTrip(ToWire(q), []);
    assert f + [] == f && [] + f == f && f[|f|..] == [] && f[..|f|] == f;
    var s1 := s.RemoteRead(|f|);
    Step(s, ReceiveDown(|f|), s1);
    assert s1 == s.(down := [], remote := s.remote.(recvq := f));
    Step(s1, DecodeDown, s1.RemoteDecode());
    assert s1.RemoteDecode() == t;
  }

  /** One message travels from the client's queue to the relay's. */
  lemma DeliverUp(s: System, q: Queued, t: System)
    requires s.started && s.toRemote == [q] && Sendable(q) && q.kind != NewSession && s.up == []
             && s.manager.recvq == []
    requires s.remote.sendq == [] && s.manager.relays == {s.relay.port} && q.relayPort == s.relay.port
    requires s.remote.Arming()
    requires t == s.(toRemote := [], outbound := s.outbound + [q],
                     remote := s.remote.(writeEnabled := true, mask := ReadWrite))
    requires Reachable(s)
    ensures Reachable(t)
  {
    hide Reachable, Frame, Sendable, Deserialize, ManagerState.DecodeOne, ToWire;
    var f := FrameOf(q);
    assert f + [] == f && [] + f == f && f[|f|..] == [] && f[..|f|] == f;
    var s1 := s.RemoteForward();
    Step(s, ForwardUp, s1);
    var s2 := s1.RemoteWrite(Sent(|f|));
    Step(s1, SendUp(Sent(|f|)), s2);
    assert s2 == t.(up := f, outbound := s.outbound);
    var s3 := s2.ManagerRead(|f|);
    Step(s2, ReceiveUp(|f|), s3);
    assert s3 == t.(manager := s.manager.(recvq := f), outbound := s.outbound);
    DecodedUp(s3, q, t);
  }

  lemma DecodedUp(s: System, q: Queued, t: System)
    requires Sendable(q) && q.kind != NewSession && s.manager.recvq == FrameOf(q)
    requires s.manager.relays == {s.relay.port} && q.relayPort == s.relay.port
    requires t == s.(outbound := s.outbound + [q], manager := s.manager.(recvq := []))
    requires Reachable(s)
    ensures Reachable(t)
  {
    hide Reachable, Deserialize, Frame, ToWire, FromWire, Sendable, Carried, Encodable;
    ToWireFrameable(q);
    RoundTrip(ToWire(q), []);
    assert FrameOf(q) + [] == FrameOf(q);
    WireKind(q);
    var allot: nat -> Option<Port> := (n: nat) => None;
    Step(s, DecodeUp(allot), s.ManagerDecode(allot));
  }

  lemma WireKind(q: Queued)
    requires q.kind != NewSession
    ensures ToWire(q).kind in {CloseConnection, MessageType.Data} && ToWire(q).relayPort == q.relayPort
  {
  }

  /** An address is accepted and its NEW reaches the client's queue. */
  lemma Arrives(port: Port, k: Key, t: System)
    requires t == Shaken(port).ExternalAccept(k, 0).(inbound := [], fromRemote := [Queued(NewSession, k, [], port)])
    ensures Reachable(t)
  {
    ShakenReachable(port);
    var s := Shaken(port);
    var q := Queued(NewSession, k, [], port);
    hide Reachable, System.Quiet, System.Settled;
    var s1 := s.ExternalAccept(k, 0);
    Step(s, Accept(k, 0), s1);
    assert [] + [q] == [q];
    DeliverDown(s1, q, t);
  }

  /**
   A refused local connect: the client's CLOSE is echoed by the relay, and the echo ends the local
   thread with the KeyError of cleanup_socket.
   */
  lemma RefusedConnectEndsThread(port: Port, k: Key)
    ensures exists s :: Reachable(s) && s.log.lost == [] && s.relay.port == port
                        && s.log.consumed == [Queued(NewSession, k, [], port), Queued(CloseSession, k, [], port)]
                        && s.local.dead
  {
    hide Reachable, System.Quiet, System.Settled;
    var open, close := Queued(NewSession, k, [], port), Queued(CloseSession, k, [], port);
    var s1 := Shaken(port).ExternalAccept(k, 0).(inbound := [], fromRemote := [open]);
    Arrives(port, k, s1);
    var s2 := s1.LocalTake(Refuses);
    Step(s1, TakeInbound(Refuses), s2);
    assert [] + [close] == [close] && [] + [open] == [open];
    assert s2.toRemote == [close] && s2.fromRemote == [];
    var s3 := s2.(toRemote := [], outbound := [close], remote := s2.remote.(writeEnabled := true, mask := ReadWrite));
    DeliverUp(s2, close, s3);
    EchoEndsThread(s3, close);
  }

  lemma EchoEndsThread(s: System, close: Queued)
    requires close == Queued(CloseSession, close.key, [], s.relay.port) && s.outbound == [close]
    requires s.phase == Serving && s.started && s.localPhase == Serving && !s.local.dead && s.local.connections == map[]
    requires s.inbound == [] && s.fromRemote == [] && s.down == [] && s.remote.recvq == []
    requires s.manager.sendq == [] && s.manager.Arming() && close.key in s.relay.table
    requires Reachable(s)
    ensures exists t :: Reachable(t) && t.log.lost == s.log.lost && t.relay.port == s.relay.port
                        && t.log.consumed == s.log.consumed + [close] && t.local.dead
  {
    hide Reachable, System.LocalTake;
    var s1 := s.RelayTake();
    Step(s, TakeOutbound, s1);
    assert [] + [close] == [close];
    assert s1.inbound == [close];
    var s2 := s1.(inbound := [], fromRemote := [close]);
    DeliverDown(s1, close, s2);
    EchoTaken(s2, close);
  }

  lemma EchoTaken(s: System, close: Queued)
    requires close.kind == CloseSession && s.fromRemote == [close] && s.local.connections == map[]
    requires s.started && s.localPhase == Serving && !s.local.dead
    requires Reachable(s)
    ensures exists t :: Reachable(t) && t.log.lost == s.log.lost && t.relay.port == s.relay.port
                        && t.log.consumed == s.log.consumed + [close] && t.local.dead
  {
    hide Reachable;
    var t := s.LocalTake(Connects);
    Step(s, TakeInbound(Connects), t);
  }

  /**
   An address that comes back too soon: what the local service wrote in the first session is sent
   to the peer of the second, from which nothing was ever read on its behalf.
   */
  lemma ReusedAddressGetsOldBytes(port: Port, k: Key, x: Octet)
    ensures exists s :: Reachable(s) && s.log.lost == [] && (k, 2) in s.log.hasty
                        && On(s.log.externalSent, k, 2) == [x] && On(s.log.localRead, k, 2) == []
  {
    hide Reachable, System.Quiet, System.Settled;
    var open, data := Queued(NewSession, k, [], port), Queued(Payload, k, [x], port);
    var s1 := Shaken(port).ExternalAccept(k, 0).(inbound := [], fromRemote := [open]);
    Arrives(port, k, s1);
    assert [] + [open] == [open];
    assert s1.log.emitted == [open];
    OneNew(open);
    ServiceWrites(s1, open, data);
  }

  /** The client connects, and the service writes. */
  lemma ServiceWrites(s: System, open: Queued, data: Queued)
    requires open == Queued(NewSession, data.key, [], s.relay.port)
    requires data.kind == Payload && |data.data| == 1 && data.relayPort == s.relay.port
    requires s.started && s.phase == Serving && s.localPhase == Serving && !s.local.dead && s.fromRemote == [open]
    requires s.local.connections == map[] && s.local.remotePort == s.relay.port
    requires s.toRemote == [] && s.up == [] && s.outbound == [] && s.inbound == []
    requires s.manager.recvq == [] && s.remote.sendq == [] && s.manager.relays == {s.relay.port} && s.remote.Arming()
    requires s.relay.table == map[data.key := Conn(0, [], false)] && s.relay.peers == map[0 := data.key]
    requires s.log.lost == [] && s.log.consumed == [] && s.RelaySession(data.key) == 1
    requires s.log.localRead == map[] && s.log.externalSent == map[]
    requires Reachable(s)
    ensures exists t :: Reachable(t) && t.log.lost == [] && (data.key, 2) in t.log.hasty
                        && On(t.log.externalSent, data.key, 2) == data.data && On(t.log.localRead, data.key, 2) == []
  {
    hide Reachable, System.LocalRead;
    var k := data.key;
    var s1 := s.LocalTake(Connects);
    Step(s, TakeInbound(Connects), s1);
    assert [] + [open] == [open];
    assert s1.local.connections == map[k := Dialled(s.relay.port)] && s1.toRemote == [];
    OneNew(open);
    ServiceReads(s1, data);
  }

  lemma ServiceReads(s: System, data: Queued)
    requires data.kind == Payload && |data.data| == 1 && data.relayPort == s.relay.port
    requires s.started && s.phase == Serving && s.localPhase == Serving && !s.local.dead
    requires s.local.connections == map[data.key := Dialled(s.relay.port)]
    requires s.toRemote == [] && s.up == [] && s.outbound == [] && s.inbound == []
    requires s.manager.recvq == [] && s.remote.sendq == [] && s.manager.relays == {s.relay.port} && s.remote.Arming()
    requires s.relay.table == map[data.key := Conn(0, [], false)] && s.relay.peers == map[0 := data.key]
    requires s.log.lost == [] && s.ClientSession(data.key) == 1 && s.RelaySession(data.key) == 1
    requires s.log.localRead == map[] && s.log.externalSent == map[]
    requires Reachable(s)
    ensures exists t :: Reachable(t) && t.log.lost == [] && (data.key, 2) in t.log.hasty
                        && On(t.log.externalSent, data.key, 2) == data.data && On(t.log.localRead, data.key, 2) == []
  {
    hide Reachable, System.LocalRead, On;
    var k := data.key;
    var s1 := s.LocalRead(k, Received(data.data));
    Step(s, ReadLocal(k, Received(data.data)), s1);
    DataRead(s, data, s1);
    Reconnects(s1, data);
  }

  lemma DataRead(s: System, data: Queued, t: System)
    requires data.kind == Payload && |data.data| == 1 && data.relayPort == s.relay.port
    requires s.local.connections == map[data.key := Dialled(s.relay.port)] && s.toRemote == []
    requires s.ClientSession(data.key) == 1 && s.log.localRead == map[] && s.log.externalSent == map[]
    requires t == s.LocalRead(data.key, Received(data.data))
    ensures t == s.(toRemote := [data], log := t.log)
    ensures t.log.lost == s.log.lost && t.log.emitted == s.log.emitted
    ensures On(t.log.localRead, data.key, 2) == [] && On(t.log.externalSent, data.key, 2) == []
  {
    assert [] + [data] == [data];
    assert s.log.consumed + [] == s.log.consumed;
  }

  lemma OneNew(open: Queued)
    requires open.kind == NewSession
    ensures Count([open], NewSession, open.key) == 1
  {
    Append([], open);
    assert [] + [open] == [open];
  }

  /** The peer closes and, with its first session's data still under way, connects again. */
  lemma Reconnects(s: System, data: Queued)
    requires data.kind == Payload && |data.data| == 1 && data.relayPort == s.relay.port
    requires s.started && s.phase == Serving && s.toRemote == [data] && s.up == [] && s.outbound == []
             && s.inbound == []
    requires s.manager.recvq == [] && s.remote.sendq == [] && s.manager.relays == {s.relay.port} && s.remote.Arming()
    requires s.relay.table == map[data.key := Conn(0, [], false)] && s.relay.peers == map[0 := data.key]
    requires data.key in s.local.connections && s.log.lost == []
    requires s.RelaySession(data.key) == 1
    requires On(s.log.localRead, data.key, 2) == [] && On(s.log.externalSent, data.key, 2) == []
    requires Reachable(s)
    ensures exists t :: Reachable(t) && t.log.lost == [] && (data.key, 2) in t.log.hasty
                        && On(t.log.externalSent, data.key, 2) == data.data && On(t.log.localRead, data.key, 2) == []
  {
    hide Reachable, System.ExternalRead, On;
    var k := data.key;
    var s1 := s.ExternalRead(k, Received([]));
    Step(s, ReadExternal(k, Received([])), s1);
    PeerCloses(s, k, s1);
    ComesBack(s1, data);
  }

  lemma PeerCloses(s: System, k: Key, t: System)
    requires s.relay.table == map[k := Conn(0, [], false)] && s.relay.peers == map[0 := k]
    requires t == s.ExternalRead(k, Received([]))
    ensures t.relay.table == map[] && t.relay.peers == map[] && t.relay.port == s.relay.port
    ensures t == s.(relay := t.relay, inbound := t.inbound, log := t.log) && t.RelaySession(k) == s.RelaySession(k)
    ensures t.log.lost == s.log.lost && t.log.localRead == s.log.localRead && t.log.externalSent == s.log.externalSent
  {
    Append(s.log.emitted, Queued(CloseSession, k, [], s.relay.port));
    assert s.relay.table - {k} == map[] && s.relay.peers - {0} == map[];
  }

  lemma ComesBack(s: System, data: Queued)
    requires data.kind == Payload && |data.data| == 1 && data.relayPort == s.relay.port
    requires s.started && s.phase == Serving && s.toRemote == [data] && s.up == [] && s.outbound == []
    requires s.manager.recvq == [] && s.remote.sendq == [] && s.manager.relays == {s.relay.port} && s.remote.Arming()
    requires s.relay.table == map[] && s.relay.peers == map[]
    requires data.key in s.local.connections && s.log.lost == []
    requires s.RelaySession(data.key) == 1
    requires On(s.log.localRead, data.key, 2) == [] && On(s.log.externalSent, data.key, 2) == []
    requires Reachable(s)
    ensures exists t :: Reachable(t) && t.log.lost == [] && (data.key, 2) in t.log.hasty
                        && On(t.log.externalSent, data.key, 2) == data.data && On(t.log.localRead, data.key, 2) == []
  {
    hide Reachable;
    var k := data.key;
    DataAhead(s, data);
    hide System.Quiet, System.Settled;
    var s1 := s.ExternalAccept(k, 1);
    Step(s, Accept(k, 1), s1);
    Append(s.log.emitted, Queued(NewSession, k, [], s.relay.port));
    var s2 := s1.(toRemote := [], outbound := [data], remote := s1.remote.(writeEnabled := true, mask := ReadWrite));
    assert [] + [data] == [data];
    DeliverUp(s1, data, s2);
    DeliversToNew(s2, data);
  }

  /** Data on the client's queue, with nothing before it. */
  lemma DataAhead(s: System, data: Queued)
    requires data.kind == Payload && data.data != []
    requires s.toRemote == [data] && s.up == [] && s.outbound == [] && s.manager.recvq == [] && s.remote.sendq == []
    ensures !s.Quiet(data.key)
  {
    hide Deserialize, System.MayMeet, System.LiveAt, Ahead;
    EmptyFails();
    assert InFlight([]) == [];
    assert s.Uplink().Transit() == [data];
    OneMessage(data, data.key);
  }

  lemma DeliversToNew(s: System, data: Queued)
    requires data.kind == Payload && |data.data| == 1 && s.phase == Serving && s.outbound == [data]
    requires data.key in s.relay.table && s.relay.table[data.key] == Conn(1, [], false)
    requires s.log.lost == [] && (data.key, 2) in s.log.hasty && s.RelaySession(data.key) == 2
    requires On(s.log.localRead, data.key, 2) == [] && On(s.log.externalSent, data.key, 2) == []
    requires Reachable(s)
    ensures exists t :: Reachable(t) && t.log.lost == [] && (data.key, 2) in t.log.hasty
                        && On(t.log.externalSent, data.key, 2) == data.data && On(t.log.localRead, data.key, 2) == []
  {
    hide Reachable, System.RelayTake, System.ExternalWrite, On;
    var k := data.key;
    var s1 := s.RelayTake();
    Step(s, TakeOutbound, s1);
    DataArrives(s, data, s1);
    var s2 := s1.ExternalWrite(k, Sent(1));
    Step(s1, WriteExternal(k, Sent(1)), s2);
    DataSent(s1, data, s2);
  }

  lemma DataArrives(s: System, data: Queued, t: System)
    requires data.kind == Payload && s.outbound == [data] && data.key in s.relay.table
    requires s.relay.table[data.key] == Conn(1, [], false) && t == s.RelayTake()
    ensures data.key in t.relay.table && t.relay.table[data.key].sendq == data.data && t.phase == s.phase
    ensures t.RelaySession(data.key) == s.RelaySession(data.key) && t.log.lost == s.log.lost
            && t.log.hasty == s.log.hasty
    ensures t.log.localRead == s.log.localRead && t.log.externalSent == s.log.externalSent
  {
    assert s.log.emitted + [] == s.log.emitted && [] + data.data == data.data;
  }

  lemma DataSent(s: System, data: Queued, t: System)
    requires data.key in s.relay.table && s.relay.table[data.key].sendq == data.data && |data.data| == 1
    requires s.RelaySession(data.key) == 2 && On(s.log.externalSent, data.key, 2) == []
    requires t == s.ExternalWrite(data.key, Sent(1))
    ensures t.log.lost == s.log.lost && t.log.hasty == s.log.hasty && t.log.localRead == s.log.localRead
    ensures On(t.log.externalSent, data.key, 2) == data.data
  {
    assert data.data[..1] == data.data && [] + data.data == data.data;
  }

  /**
   Data that crosses the end of the service's own stream: the closed connection cannot be armed, and the
   thread ends.
   */
  lemma DataAfterEofEndsThread(port: Port, k: Key, x: Octet)
    ensures exists s :: Reachable(s) && s.log.lost == [] && s.log.hasty == {} && s.log.refused == {} && s.local.dead
                        && s.log.consumed == [Queued(NewSession, k, [], port), Queued(Payload, k, [x], port)]
  {
    hide Reachable, System.Quiet, System.Settled, System.LocalTake, System.ExternalAccept;
    var open, data := Queued(NewSession, k, [], port), Queued(Payload, k, [x], port);
    var s1 := Shaken(port).ExternalAccept(k, 0).(inbound := [], fromRemote := [open]);
    Arrives(port, k, s1);
    AcceptedFirst(port, k, s1);
    var s2 := s1.LocalTake(Connects);
    Step(s1, TakeInbound(Connects), s2);
    Accommodated(s1, open, s2);
    ServiceEnds(s2, data);
  }

  lemma AcceptedFirst(port: Port, k: Key, s: System)
    requires s == Shaken(port).ExternalAccept(k, 0).(inbound := [], fromRemote := [Queued(NewSession, k, [], port)])
    ensures s.started && s.phase == Serving && s.localPhase == Serving && !s.local.dead && s.relay.port == port
    ensures s.local.connections == map[] && s.toRemote == [] && s.inbound == [] && s.down == [] && s.remote.recvq == []
    ensures s.manager.sendq == [] && s.manager.Arming() && k in s.relay.table
    ensures s.log.lost == [] && s.log.hasty == {} && s.log.refused == {} && s.log.consumed == []
  {
    FirstQuiet(port, k);
    hide System.Quiet, System.Settled;
  }

  /** The first accept is of a quiet address. */
  lemma FirstQuiet(port: Port, k: Key)
    ensures Shaken(port).Quiet(k)
  {
    hide Deserialize;
    EmptyFails();
    var s := Shaken(port);
    assert s.Uplink().Transit() == [] && s.Downlink().Transit() == [];
  }

  lemma Accommodated(s: System, open: Queued, t: System)
    requires s.fromRemote == [open] && open.kind == NewSession && open.relayPort == s.relay.port
    requires s.local.connections == map[] && s.log.consumed == [] && s.log.refused == {} && !s.local.dead
    requires t == s.LocalTake(Connects)
    ensures t.local == s.local.(connections := map[open.key := Dialled(s.relay.port)])
    ensures t == s.(fromRemote := [], local := t.local, log := s.log.(consumed := [open], endings := t.log.endings))
  {
    assert [] + [open] == [open] && s.toRemote + [] == s.toRemote && s.log.replied + [] == s.log.replied;
  }

  lemma EndRead(s: System, k: Key, t: System)
    requires s.local.connections == map[k := Dialled(s.relay.port)] && t == s.LocalRead(k, Received([]))
    ensures t == s.(local := t.local, toRemote := t.toRemote, log := t.log)
    ensures t.local == s.local.(connections := map[k := Dialled(s.relay.port).(closed := true, closeSent := true)])
    ensures t.log.lost == s.log.lost && t.log.hasty == s.log.hasty && t.log.refused == s.log.refused
    ensures t.log.consumed == s.log.consumed && t.log.emitted == s.log.emitted
  {
    assert s.local.connections[k := s.local.connections[k].(closed := true, closeSent := true)]
        == map[k := Dialled(s.relay.port).(closed := true, closeSent := true)];
  }

  /** The service closes; data of the peer is still to come. */
  lemma ServiceEnds(s: System, data: Queued)
    requires data == Queued(Payload, data.key, data.data, s.relay.port) && |data.data| == 1
    requires s.started && s.phase == Serving && s.localPhase == Serving && !s.local.dead && s.fromRemote == []
    requires s.local.connections == map[data.key := Dialled(s.relay.port)] && data.key in s.relay.table
    requires s.inbound == [] && s.down == [] && s.remote.recvq == [] && s.manager.sendq == [] && s.manager.Arming()
    requires Reachable(s)
    ensures exists t ::
              && Reachable(t) && t.log.lost == s.log.lost && t.log.hasty == s.log.hasty
              && t.log.refused == s.log.refused && t.local.dead && t.log.consumed == s.log.consumed + [data]
  {
    hide Reachable, System.LocalTake, System.LocalRead;
    var k := data.key;
    var s1 := s.LocalRead(k, Received([]));
    Step(s, ReadLocal(k, Received([])), s1);
    EndRead(s, k, s1);
    var s2 := s1.ExternalRead(k, Received(data.data));
    Step(s1, ReadExternal(k, Received(data.data)), s2);
    assert [] + [data] == [data];
    assert s2.inbound == [data];
    var s3 := s2.(inbound := [], fromRemote := [data]);
    DeliverDown(s2, data, s3);
    DataTaken(s3, data);
  }

  lemma DataTaken(s: System, data: Queued)
    requires s.fromRemote == [data] && data.kind == Payload && data.key in s.local.connections
    requires s.local.connections[data.key].closed && !s.local.connections[data.key].writeEnabled
    requires s.started && s.localPhase == Serving && !s.local.dead
    requires Reachable(s)
    ensures exists t ::
              && Reachable(t) && t.log.lost == s.log.lost && t.log.hasty == s.log.hasty
              && t.log.refused == s.log.refused && t.local.dead && t.log.consumed == s.log.consumed + [data]
  {
    hide Reachable;
    var t := s.LocalTake(Connects);
    Step(s, TakeInbound(Connects), t);
  }

  /**
   A descriptor number that comes back: the service ends its stream, the socket is closed but stays in
   the selector, and the socket of the next NEW gets its number, so that registering it raises.
   */
  lemma ClashEndsThread(port: Port, k: Key, j: Key)
    requires j != k
    ensures exists s :: Reachable(s) && s.log.lost == [] && s.log.refused == {} && s.local.dead
                        && s.log.consumed == [Queued(NewSession, k, [], port), Queued(NewSession, j, [], port)]
  {
    hide Reachable, System.Quiet, System.Settled, System.LocalTake;
    var open := Queued(NewSession, k, [], port);
    var s1 := Shaken(port).ExternalAccept(k, 0).(inbound := [], fromRemote := [open]);
    Arrives(port, k, s1);
    AcceptedFirst(port, k, s1);
    var s2 := s1.LocalTake(Connects);
    Step(s1, TakeInbound(Connects), s2);
    Accommodated(s1, open, s2);
    AcceptedAlone(port, k, s2.relay);
    AnotherComes(s2, k, Queued(NewSession, j, [], port));
  }

  lemma AcceptedAlone(port: Port, k: Key, r: RelayState)
    requires r == Shaken(port).ExternalAccept(k, 0).relay
    ensures r.table.Keys == {k} && r.peers.Keys == {0}
  {
    hide System.Quiet, System.Settled, Frame;
  }

  lemma AnotherComes(s: System, k: Key, open: Queued)
    requires open == Queued(NewSession, open.key, [], s.relay.port) && open.key != k
    requires s.started && s.phase == Serving && s.localPhase == Serving && !s.local.dead && s.fromRemote == []
    requires s.local.connections == map[k := Dialled(s.relay.port)]
    requires s.relay.table.Keys == {k} && s.relay.peers.Keys == {0}
    requires s.inbound == [] && s.down == [] && s.remote.recvq == [] && s.manager.sendq == [] && s.manager.Arming()
    requires Reachable(s)
    ensures exists t :: Reachable(t) && t.log.lost == s.log.lost && t.log.refused == s.log.refused - {open.key}
                        && t.local.dead && t.log.consumed == s.log.consumed + [open]
  {
    hide Reachable, System.Quiet, System.Settled, System.LocalTake, System.LocalRead;
    var s1 := s.LocalRead(k, Received([]));
    Step(s, ReadLocal(k, Received([])), s1);
    EndRead(s, k, s1);
    var s2 := s1.ExternalAccept(open.key, 1);
    Step(s1, Accept(open.key, 1), s2);
    assert [] + [open] == [open];
    var s3 := s2.(inbound := [], fromRemote := [open]);
    DeliverDown(s2, open, s3);
    ClashTaken(s3, k, open);
  }

  lemma ClashTaken(s: System, k: Key, open: Queued)
    requires s.fromRemote == [open] && open.kind == NewSession
    requires k in s.local.connections && s.local.connections[k].closed
    requires s.started && s.localPhase == Serving && !s.local.dead
    requires Reachable(s)
    ensures exists t :: Reachable(t) && t.log.lost == s.log.lost && t.log.refused == s.log.refused - {open.key}
                        && t.local.dead && t.log.consumed == s.log.consumed + [open]
  {
    hide Reachable;
    var t := s.LocalTake(Clashes);
    Step(s, TakeInbound(Clashes), t);
  }

  /** A NEW right behind OPEN_RELAY, in the same receive, is lost. */
  lemma HandshakeLoses(port: Port, k: Key)
    ensures exists s :: Reachable(s) && s.log.emitted == [Queued(NewSession, k, [], port)] && s.log.lost != []
                        && s.log.lost == FrameOf(s.log.emitted[0])
  {
    hide Reachable, System.Quiet, System.Settled, Deserialize, Frame, ToWire, Carried;
    var q := Queued(NewSession, k, [], port);
    var f, g := Frame(RelayMessage(OpenRelay, port)), FrameOf(q);
    OpenFrame(port);
    OpenQueued(port, f);
    OpenCarried(port);
    InitialReachable(port);
    var s := Initial(port);
    var s1 := s.ExternalAccept(k, 0);
    InitialServes(port);
    Step(s, Accept(k, 0), s1);
    assert [] + [q] == [q];
    var s2 := s1.ManagerForward();
    Step(s1, ForwardDown, s2);
    assert s2.manager.sendq == f + g;
    var s3 := s2.ManagerWrite(Sent(|f + g|));
    Step(s2, SendDown(Sent(|f + g|)), s3);
    assert (f + g)[..|f + g|] == f + g && [] + (f + g) == f + g;
    RoundTrip(RelayMessage(OpenRelay, port), g);
    assert s3.down[..|f + g|] == f + g;
    var s4 := s3.Handshake(|f + g|);
    Step(s3, Shake(|f + g|), s4);
  }

  lemma InitialServes(port: Port)
    ensures var s := Initial(port);
            && s.phase == Serving && s.relay == Opened(port) && s.inbound == [] && s.log.emitted == []
               && s.manager.Arming()
  {
    hide Frame;
  }
}
