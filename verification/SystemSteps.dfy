/** Step by step: each action keeps the invariant and moves messages between the two ends as told. */
module SystemSteps {
  import opened Wire
  import opened Messages
  import opened MessageProofs
  import opened Framing
  import opened Sessions
  import opened Pipes
  import opened RelayStates
  import RelayProofs
  import ManagerProofs
  import opened ManagerStates
  import opened ClientStates
  import opened System
  import opened SystemInvariants

  /** The two directions after a step: what was added at one end and taken at the other. */
  ghost predicate Moves(s: System, t: System, emitted: Trace, taken: Trace, replied: Trace, applied: Trace) {
    && s.Downlink().Transit() + emitted == taken + t.Downlink().Transit()
    && s.Uplink().Transit() + replied == applied + t.Uplink().Transit()
    && t.log.emitted == s.log.emitted + emitted && t.log.consumed == s.log.consumed + taken
    && t.log.replied == s.log.replied + replied && t.log.applied == s.log.applied + applied
  }

  /** What an action puts on the relay's queue, takes at the client, replies, and takes at the relay. */
  function Emitted(s: System, a: Action): Trace
    requires Enabled(s, a)
  {
    match a
    case Accept(k, id) => s.relay.Accept(k, id).1
    case ReadExternal(k, r) => s.relay.ReadReady(k, r).1
    case WriteExternal(k, r) => s.relay.WriteReady(k, r).1
    case TakeOutbound => s.relay.TakeOutbound(s.outbound[0]).1
    case CleanUp(k) => s.relay.CleanUp(k).1
    case _ => []
  }

  function Taken(s: System, a: Action): Trace
    requires Enabled(s, a)
  {
    if a.TakeInbound? then [s.fromRemote[0]] else []
  }

  function Replied(s: System, a: Action): Trace
    requires Enabled(s, a)
  {
    match a
    case TakeInbound(answer) => s.local.Take(s.fromRemote[0], answer).1
    case ReadLocal(k, r) => s.local.ReadReady(k, r).1
    case WriteLocal(k, r) => s.local.WriteReady(k, r).1
    case Dismiss(k) => s.local.Dismiss(k).1
    case _ => []
  }

  function Applied(s: System, a: Action): Trace
    requires Enabled(s, a)
  {
    if a.TakeOutbound? then [s.outbound[0]] else []
  }

  /** What the two threads with tables say goes on the log, and nothing else does. */
  lemma EmittedLogged(s: System, a: Action)
    requires Enabled(s, a)
    ensures Apply(s, a).log.emitted == s.log.emitted + Emitted(s, a)
  {
    hide Record, Deserialize, System.Quiet, System.Settled, Frame, FromWire, LocalState.Take, LocalState.ReadReady,
         LocalState.WriteReady, RelayState.ReadReady, RelayState.WriteReady, RelayState.TakeOutbound,
         RelayState.CleanUp;
  }

  lemma RepliedLogged(s: System, a: Action)
    requires Enabled(s, a)
    ensures Apply(s, a).log.replied == s.log.replied + Replied(s, a)
  {
    hide Record, Deserialize, System.Quiet, System.Settled, Frame, FromWire, LocalState.Take, LocalState.ReadReady,
         LocalState.WriteReady, RelayState.ReadReady, RelayState.WriteReady, RelayState.TakeOutbound,
         RelayState.CleanUp;
  }

  /** The action keeps the invariant, and both directions, as far as nothing was lost in the handshake. */
  ghost predicate Kept(s: System, a: Action)
    requires Enabled(s, a)
  {
    var t := Apply(s, a);
    && Inv(t)
    && (t.log.lost == [] ==> Moves(s, t, Emitted(s, a), Taken(s, a), Replied(s, a), Applied(s, a)))
  }

  // ------------------------------------------------------------------ relay

  /** Emitting messages, with the log's tapes set as told. */
  lemma EmitKeeps(s: System, effect: (RelayState, Trace), l: Log)
    requires Inv(s) && l == s.log.(externalRead := l.externalRead, externalSent := l.externalSent,
                                   hasty := l.hasty, unsettled := l.unsettled)
    requires effect.0.Tells(s.log.emitted + effect.1) && effect.0.port == s.relay.port
    requires TapeFollows(s.log.emitted + effect.1, l.externalRead)
    ensures Inv(s.Emit(effect).Note(l))
    ensures s.log.lost == [] ==> Moves(s, s.Emit(effect).Note(l), effect.1, [], [], [])
  {
    hide Pipe.Conserved, Pipe.Transit, RelayState.Tells, TapeFollows, Frame;
    var t := s.Emit(effect).Note(l);
    assert t.Downlink() == s.Downlink().Produce(effect.1);
    assert t.Uplink() == s.Uplink();
    SendablePart(effect.0, s.log.emitted, effect.1);
    if s.log.lost == [] {
      s.Downlink().ProduceConserves(effect.1);
    }
    assert [] + t.Downlink().Transit() == t.Downlink().Transit();
    assert s.Uplink().Transit() + [] == [] + t.Uplink().Transit();
    assert t.log.consumed + [] == t.log.consumed && t.log.replied + [] == t.log.replied
        && t.log.applied + [] == t.log.applied;
  }

  lemma SendablePart(r: RelayState, t: Trace, out: Trace)
    requires r.Tells(t + out)
    ensures AllSendable(out)
  {
    assert forall i | 0 <= i < |out| :: out[i] == (t + out)[|t| + i];
  }

  lemma AcceptStep(s: System, k: Key, id: nat, t: System, out: Trace)
    requires k !in s.relay.table && id !in s.relay.peers && t == s.ExternalAccept(k, id)
    requires out == s.relay.Accept(k, id).1
    requires Inv(s)
    ensures Inv(t) && (t.log.lost == [] ==> Moves(s, t, out, [], [], []))
  {
    assert RelayPart(s);
    hide Inv, Moves, RelayState.Tells;
    var effect := s.relay.Accept(k, id);
    RelayProofs.AcceptKeeps(s.relay, s.log.emitted, k, id);
    TapeStep(s.log.emitted, s.log.externalRead, effect.1[0]);
    EmitKeeps(s, effect, s.log.(hasty := t.log.hasty, unsettled := t.log.unsettled));
  }

  lemma ReadExternalStep(s: System, k: Key, r: RecvResult, t: System, out: Trace)
    requires k in s.relay.table && Readable(r) && t == s.ExternalRead(k, r)
    requires out == s.relay.ReadReady(k, r).1
    requires Inv(s)
    ensures Inv(t) && (t.log.lost == [] ==> Moves(s, t, out, [], [], []))
  {
    assert RelayPart(s);
    hide Inv, Moves, RelayState.Tells;
    var effect := s.relay.ReadReady(k, r);
    var i := s.RelaySession(k);
    RelayProofs.ReadKeeps(s.relay, s.log.emitted, k, r);
    var data := if r.Received? then r.data else [];
    TapeStep(s.log.emitted, s.log.externalRead, effect.1[0]);
    if effect.1[0].kind != Payload {
      TapeBlank(s.log.emitted + effect.1, s.log.externalRead, k, i);
    }
    EmitKeeps(s, effect, s.log.(externalRead := Record(s.log.externalRead, k, i, data)));
  }

  lemma WriteExternalStep(s: System, k: Key, r: SendResult, t: System, out: Trace)
    requires s.relay.CanSend(k, r) && t == s.ExternalWrite(k, r)
    requires out == s.relay.WriteReady(k, r).1
    requires Inv(s)
    ensures Inv(t) && (t.log.lost == [] ==> Moves(s, t, out, [], [], []))
  {
    assert RelayPart(s);
    hide Inv, Moves, RelayState.Tells, RelayState.WriteReady;
    var effect := s.relay.WriteReady(k, r);
    RelayProofs.WriteKeeps(s.relay, s.log.emitted, k, r);
    if effect.1 == [] {
      assert s.log.emitted + [] == s.log.emitted;
    } else {
      TapeStep(s.log.emitted, s.log.externalRead, effect.1[0]);
    }
    var data := if r.Sent? then s.relay.table[k].sendq[..r.n] else [];
    EmitKeeps(s, effect, s.log.(externalSent := Record(s.log.externalSent, k, s.RelaySession(k), data)));
  }

  lemma CleanUpStep(s: System, k: Key, t: System, out: Trace)
    requires k in s.relay.table && t == s.Emit(s.relay.CleanUp(k))
    requires out == s.relay.CleanUp(k).1
    requires Inv(s)
    ensures Inv(t) && (t.log.lost == [] ==> Moves(s, t, out, [], [], []))
  {
    assert RelayPart(s);
    hide Inv, Moves, RelayState.Tells;
    var effect := s.relay.CleanUp(k);
    RelayProofs.CleanUpKeeps(s.relay, s.log.emitted, k);
    TapeStep(s.log.emitted, s.log.externalRead, effect.1[0]);
    EmitKeeps(s, effect, s.log);
    assert s.Emit(effect).Note(s.log) == s.Emit(effect);
  }

  /** Taking the head of the outbound queue, before acting on it. */
  lemma ConsumeUp(s: System)
    requires Inv(s) && s.outbound != []
    ensures var t := s.(outbound := s.outbound[1..], log := s.log.(applied := s.log.applied + [s.outbound[0]]));
            Inv(t) && (s.log.lost == [] ==> Moves(s, t, [], [], [], [s.outbound[0]]))
  {
    hide Pipe.Conserved, Pipe.Transit, RelayState.Tells, TapeFollows, Frame;
    var t := s.(outbound := s.outbound[1..], log := s.log.(applied := s.log.applied + [s.outbound[0]]));
    assert t.Downlink() == s.Downlink();
    assert t.Uplink() == s.Uplink().Consume();
    if s.log.lost == [] {
      s.Uplink().ConsumeConserves();
    }
    assert s.Downlink().Transit() + [] == [] + t.Downlink().Transit();
    assert s.Uplink().Transit() + [] == s.Uplink().Transit();
    assert t.log.emitted + [] == t.log.emitted && t.log.consumed + [] == t.log.consumed
        && t.log.replied + [] == t.log.replied;
  }

  lemma TakeOutboundStep(s: System, t: System, q: Queued, out: Trace)
    requires s.outbound != [] && t == s.RelayTake()
    requires q == s.outbound[0] && out == s.relay.TakeOutbound(q).1
    requires Inv(s)
    ensures Inv(t) && (t.log.lost == [] ==> Moves(s, t, out, [], [], [q]))
  {
    ConsumeUp(s);
    var mid := s.(outbound := s.outbound[1..], log := s.log.(applied := s.log.applied + [q]));
    assert RelayPart(mid);
    var r := s.relay.TakeOutbound(q).0;
    hide Inv, RelayState.Tells, RelayState.TakeOutbound, Moves;
    RelayProofs.OutboundKeeps(s.relay, s.log.emitted, q);
    if out == [] {
      assert s.log.emitted + [] == s.log.emitted;
    } else {
      TapeStep(s.log.emitted, s.log.externalRead, out[0]);
    }
    EmitKeeps(mid, (r, out), mid.log);
    assert t == mid.Emit((r, out)) && mid.Emit((r, out)).Note(mid.log) == mid.Emit((r, out));
    if s.log.lost == [] {
      MovesInTurn(s, mid, t, out, q);
    }
  }

  lemma MovesInTurn(s: System, mid: System, t: System, out: Trace, q: Queued)
    requires Moves(s, mid, [], [], [], [q]) && Moves(mid, t, out, [], [], [])
    ensures Moves(s, t, out, [], [], [q])
  {
    hide Pipe.Transit;
    assert s.Downlink().Transit() + [] + out == s.Downlink().Transit() + out;
    assert [] + mid.Downlink().Transit() == mid.Downlink().Transit();
    assert [] + t.Uplink().Transit() == t.Uplink().Transit() && mid.Uplink().Transit() + [] == mid.Uplink().Transit();
  }

  // ------------------------------------------------------------------ links

  /** A step of the links that leaves both transits and all histories as they are. */
  ghost predicate Still(s: System, t: System) { Moves(s, t, [], [], [], []) }

  lemma StillIf(s: System, t: System)
    requires s.Downlink().Transit() == t.Downlink().Transit() && s.Uplink().Transit() == t.Uplink().Transit()
    requires t.log.emitted == s.log.emitted && t.log.consumed == s.log.consumed
    requires t.log.replied == s.log.replied && t.log.applied == s.log.applied
    ensures Still(s, t)
  {
    hide Pipe.Transit;
    assert s.Downlink().Transit() + [] == [] + t.Downlink().Transit();
    assert s.Uplink().Transit() + [] == [] + t.Uplink().Transit();
    assert t.log.emitted + [] == t.log.emitted && t.log.consumed + [] == t.log.consumed
      && t.log.replied + [] == t.log.replied && t.log.applied + [] == t.log.applied;
  }

  /** The OPEN_RELAY frame of the handshake takes five octets. */
  lemma OpenFrame(port: Port)
    ensures |Frame(RelayMessage(OpenRelay, port))| == 5
    ensures Encodable(RelayMessage(OpenRelay, port))
  {
  }

  lemma OpenCarried(port: Port)
    ensures var m := RelayMessage(OpenRelay, port);
            Carried(m) == m && m.kind == OpenRelay && Encodable(m) && m.version == VERSION
  {
  }

  lemma SendDownStep(s: System, r: SendResult, t: System)
    requires (r.Sent? ==> r.n <= |s.manager.sendq|) && t == s.ManagerWrite(r)
    requires Inv(s)
    ensures Inv(t) && (t.log.lost == [] ==> Still(s, t))
  {
    hide Pipe.Conserved, Pipe.Transit, RelayState.Tells, TapeFollows, Frame;
    var n := if r.Sent? then r.n else 0;
    assert t.down + t.manager.sendq == s.down + s.manager.sendq;
    if s.log.lost == [] {
      if s.started {
        assert t.Downlink() == s.Downlink().Send(n);
        s.Downlink().SendConserves(n);
      } else {
        assert t.Downlink() == s.Downlink();
      }
      assert t.Uplink() == s.Uplink();
      StillIf(s, t);
    }
  }

  lemma ReceiveUpStep(s: System, n: nat, t: System)
    requires n <= |s.up| && t == s.ManagerRead(n)
    requires Inv(s)
    ensures Inv(t) && (t.log.lost == [] ==> Still(s, t))
  {
    hide Pipe.Conserved, Pipe.Transit, RelayState.Tells, TapeFollows, Frame;
    if s.log.lost == [] {
      assert t.Downlink() == s.Downlink();
      assert t.Uplink() == s.Uplink().Receive(n);
      s.Uplink().ReceiveConserves(n);
      StillIf(s, t);
    }
  }

  lemma ForwardDownStep(s: System, t: System)
    requires s.inbound != [] && Sendable(s.inbound[0]) && t == s.ManagerForward()
    requires Inv(s)
    ensures Inv(t) && (t.log.lost == [] ==> Still(s, t))
  {
    hide Pipe.Conserved, Pipe.Transit, RelayState.Tells, TapeFollows, Frame, FrameOf;
    assert t.manager.sendq == s.manager.sendq + FrameOf(s.inbound[0]);
    assert t.down + t.manager.sendq == (s.down + s.manager.sendq) + FrameOf(s.inbound[0]);
    OpenFrame(s.relay.port);
    if s.log.lost == [] {
      assert t.Downlink() == s.Downlink().Encode();
      s.Downlink().EncodeConserves();
      assert t.Uplink() == s.Uplink();
      StillIf(s, t);
    }
  }

  lemma SendUpStep(s: System, r: SendResult, t: System)
    requires s.started && (r.Sent? ==> r.n <= |s.remote.sendq|) && t == s.RemoteWrite(r)
    requires Inv(s)
    ensures Inv(t) && (t.log.lost == [] ==> Still(s, t))
  {
    hide Pipe.Conserved, Pipe.Transit, RelayState.Tells, TapeFollows, Frame;
    var n := if r.Sent? then r.n else 0;
    if s.log.lost == [] {
      assert t.Downlink() == s.Downlink();
      assert t.Uplink() == s.Uplink().Send(n);
      s.Uplink().SendConserves(n);
      StillIf(s, t);
    }
  }

  lemma ReceiveDownStep(s: System, n: nat, t: System)
    requires s.started && n <= |s.down| && t == s.RemoteRead(n)
    requires Inv(s)
    ensures Inv(t) && (t.log.lost == [] ==> Still(s, t))
  {
    hide Pipe.Conserved, Pipe.Transit, RelayState.Tells, TapeFollows, Frame;
    if s.log.lost == [] {
      assert t.Downlink() == s.Downlink().Receive(n);
      s.Downlink().ReceiveConserves(n);
      assert t.Uplink() == s.Uplink();
      StillIf(s, t);
    }
  }

  lemma ForwardUpStep(s: System, t: System)
    requires s.started && s.toRemote != [] && Sendable(s.toRemote[0]) && s.toRemote[0].kind != NewSession
             && t == s.RemoteForward()
    requires Inv(s)
    ensures Inv(t) && (t.log.lost == [] ==> Still(s, t))
  {
    hide Pipe.Conserved, Pipe.Transit, RelayState.Tells, TapeFollows, Frame, FrameOf;
    if s.log.lost == [] {
      assert t.Downlink() == s.Downlink();
      assert t.Uplink() == s.Uplink().Encode();
      s.Uplink().EncodeConserves();
      StillIf(s, t);
    }
  }

  lemma DecodeDownStep(s: System, t: System)
    requires s.started && s.remote.recvq != [] && t == s.RemoteDecode()
    requires Inv(s)
    ensures Inv(t) && (t.log.lost == [] ==> Still(s, t))
  {
    hide Pipe.Conserved, Pipe.Transit, RelayState.Tells, TapeFollows, Frame, FrameOf, FromWire;
    if s.log.lost == [] {
      assert t.Uplink() == s.Uplink();
      if Deserialize(s.remote.recvq).Got? {
        s.Downlink().DecodeConserves();
        assert t.Downlink() == s.Downlink().Decode();
      } else {
        assert t.Downlink() == s.Downlink();
      }
      StillIf(s, t);
    }
  }

  /** What the manager decodes was replied by the local thread, so it names the one relay there is. */
  lemma DecodedUpFits(p: Pipe, port: Port)
    requires p.Conserved() && RepliesFit(p.produced, port) && Deserialize(p.recvq).Got?
    ensures IsSessionMessage(Deserialize(p.recvq).msg)
    ensures Deserialize(p.recvq).msg.kind in {CloseConnection, Data} && Deserialize(p.recvq).msg.relayPort == port
  {
    p.DecodeConserves();
    hide WellFramed, Deserialize, InFlight;
    var d := p.Decode();
    assert p.produced[|p.consumed| + |p.sink|] == d.sink[|p.sink|];
  }

  /** A wrong version shows in the first three octets, whatever follows. */
  lemma BadVersionShowsAtOnce(a: Octets, b: Octets)
    requires Deserialize(a).Failed? && Deserialize(a).error.BadVersion?
    ensures Deserialize(a + b) == Deserialize(a)
  {
    hide DeserializeBody;
    assert (a + b)[0] == a[0] && (a + b)[1] == a[1] && (a + b)[2] == a[2];
  }

  /** A well-framed stream never shows the wrong version, however little of it has arrived. */
  lemma NeverBadVersion(a: Octets, b: Octets)
    requires WellFramed(a + b)
    ensures Deserialize(a).Failed? ==> !Deserialize(a).error.BadVersion?
  {
    hide Deserialize;
    if Deserialize(a).Failed? && Deserialize(a).error.BadVersion? {
      BadVersionShowsAtOnce(a, b);
      EmptyFails();
    }
  }

  lemma EmptyFails()
    ensures Deserialize([]) == Failed(EmptyStream)
  {
  }

  lemma DecodeUpStep(s: System, allot: nat -> Option<Port>, t: System)
    requires s.manager.recvq != [] && t == s.ManagerDecode(allot)
    requires Inv(s)
    ensures Inv(t) && (t.log.lost == [] ==> Still(s, t))
  {
    ManagerProofs.DecodeKeepsArming(s.manager, allot);
    if s.log.lost == [] {
      DecodeUpReady(s);
      DecodeUpMoves(s, allot, t);
    }
    hide Deserialize, RelayState.Tells, Pipe.Conserved, TapeFollows, Still, ManagerState.Process, Frame, Pipe.Transit;
  }

  /** At the manager the next frame is whole and fits, or is still arriving. */
  ghost predicate NextUpFits(s: System) {
    var r := Deserialize(s.manager.recvq);
    if r.Failed? then !r.error.BadVersion?
    else
      && IsSessionMessage(r.msg) && r.msg.kind in {CloseConnection, Data} && r.msg.relayPort == s.relay.port
      && s.Uplink().Decode().Conserved() && s.Uplink().Decode().Transit() == s.Uplink().Transit()
  }

  lemma DecodeUpReady(s: System)
    requires LinkPart(s) && RepliesFit(s.log.replied, s.relay.port)
    ensures NextUpFits(s)
  {
    hide Deserialize, WellFramed, InFlight, FromWire;
    var p := s.Uplink();
    assert p.Bytes() == p.recvq + (p.wire + p.sendq);
    NeverBadVersion(p.recvq, p.wire + p.sendq);
    if Deserialize(p.recvq).Got? {
      DecodedUpFits(p, s.relay.port);
      p.DecodeConserves();
    }
  }

  lemma DecodeUpMoves(s: System, allot: nat -> Option<Port>, t: System)
    requires s.manager.recvq != [] && t == s.ManagerDecode(allot)
    requires LinkPart(s) && NextUpFits(s)
    ensures t.log == s.log && t.local == s.local && t.relay == s.relay && t.remote == s.remote
    ensures t.started == s.started && t.localPhase == s.localPhase && t.fromRemote == s.fromRemote
    ensures t.toRemote == s.toRemote && t.down == s.down && t.manager.sendq == s.manager.sendq
    ensures LinkPart(t) && Still(s, t)
  {
    hide Deserialize, Frame, FromWire, Pipe.Conserved, Pipe.Transit, RelayState.Tells, TapeFollows;
    assert s.outbound + [] == s.outbound;
    assert t.Downlink() == s.Downlink();
    assert t.Uplink() == if Deserialize(s.manager.recvq).Failed? then s.Uplink() else s.Uplink().Decode();
    StillIf(s, t);
  }

  // -------------------------------------------------------------- handshake

  /** When nothing but OPEN_RELAY came in, the stream starts clean. */
  lemma ShakeStep(s: System, n: nat, t: System)
    requires !s.started && n <= |s.down| && Deserialize(s.down[..n]).Got?
    requires Deserialize(s.down[..n]).msg.kind == OpenRelay && t == s.Handshake(n)
    requires Inv(s)
    ensures Inv(t) && (t.log.lost == [] ==> Still(s, t))
  {
    hide Deserialize, Pipe.Conserved, Pipe.Transit, RelayState.Tells, TapeFollows, WritesFit, Frame;
    OpenFrame(s.relay.port);
    if t.log.lost == [] {
      ShakeLength(s.down[..n]);
      assert t.Downlink().Bytes() == s.Downlink().Bytes();
      SameBytes(s.Downlink(), t.Downlink());
      assert t.Uplink() == s.Uplink();
      StillIf(s, t);
    }
  }

  lemma ShakeLength(chunk: Octets)
    requires Deserialize(chunk).Got? && Deserialize(chunk).msg.kind == OpenRelay && Deserialize(chunk).rest == []
    ensures |chunk| == 5
  {
    Canonical(chunk);
  }

  lemma SameBytes(p: Pipe, q: Pipe)
    requires p.Bytes() == q.Bytes() && p.produced == q.produced && p.source == q.source
    requires p.sink == q.sink && p.consumed == q.consumed
    ensures p.Transit() == q.Transit() && (p.Conserved() <==> q.Conserved())
  {
  }

  // ------------------------------------------------------------ local thread

  /** Putting replies on the queue, with the local table and the log's local fields set as told. */
  lemma ReplyKeeps(s: System, effect: (LocalState, Trace), l: Log)
    requires Inv(s) && s.started && effect.0.remotePort == s.local.remotePort
    requires l == s.log.(localRead := l.localRead, localWritten := l.localWritten, refused := l.refused,
                            endings := l.endings)
    requires AllSendable(effect.1) && RepliesFit(effect.1, s.relay.port)
    requires s.log.lost == [] ==>
               TableFits(effect.0, s.localPhase, s.log.consumed, l.refused)
                 && WritesFit(effect.0, s.log.consumed, l.localWritten)
    ensures Inv(s.Reply(effect).Note(l))
    ensures s.log.lost == [] ==> Moves(s, s.Reply(effect).Note(l), [], [], effect.1, [])
  {
    hide Pipe.Conserved, Pipe.Transit, RelayState.Tells, TapeFollows, Frame, TableFits, WritesFit, Sendable;
    var t := s.Reply(effect).Note(l);
    assert t.Downlink() == s.Downlink();
    assert t.Uplink() == s.Uplink().Produce(effect.1);
    if s.log.lost == [] {
      s.Uplink().ProduceConserves(effect.1);
    }
    assert s.Downlink().Transit() + [] == [] + t.Downlink().Transit();
    assert [] + t.Uplink().Transit() == t.Uplink().Transit();
    assert t.log.emitted + [] == t.log.emitted && t.log.consumed + [] == t.log.consumed
        && t.log.applied + [] == t.log.applied;
  }

  lemma LocalOf(s: System)
    requires Inv(s) && s.log.lost == []
    ensures s.local.remotePort == s.relay.port && RepliesFit(s.log.replied, s.relay.port)
    ensures TableFits(s.local, s.localPhase, s.log.consumed, s.log.refused)
    ensures WritesFit(s.local, s.log.consumed, s.log.localWritten)
  {
    hide RelayPart, LinkPart, TableFits, WritesFit;
  }

  lemma PartsOf(s: System)
    requires Inv(s) && s.log.lost == []
    ensures RelayPart(s) && LinkPart(s)
  {
    hide RelayPart, LinkPart, LocalPart;
  }

  lemma ReadFits(l: LocalState, phase: Phase, consumed: Trace, refused: set<Key>, written: Tape, k: Key, r: RecvResult)
    requires TableFits(l, phase, consumed, refused) && WritesFit(l, consumed, written) && l.Live(k)
    requires r.Received? ==> |r.data| <= RECV_SIZE
    ensures var (m, out) := l.ReadReady(k, r);
            && TableFits(m, phase, consumed, refused) && WritesFit(m, consumed, written)
            && AllSendable(out) && RepliesFit(out, l.remotePort)
  {
    hide PastFits, PendingFits;
    var m := l.ReadReady(k, r).0;
    assert m.connections.Keys == l.connections.Keys;
    assert l.connections[k].Arming();
  }

  lemma ReadLocalStep(s: System, k: Key, r: RecvResult, t: System, out: Trace)
    requires s.started && s.local.Live(k) && (r.Received? ==> |r.data| <= RECV_SIZE) && t == s.LocalRead(k, r)
    requires out == s.local.ReadReady(k, r).1
    requires Inv(s) && s.log.lost == []
    ensures Inv(t) && (Moves(s, t, [], [], out, []))
  {
    hide Inv, Moves, TableFits, WritesFit;
    LocalOf(s);
    var data := if r.Received? then r.data else [];
    ReadFits(s.local, s.localPhase, s.log.consumed, s.log.refused, s.log.localWritten, k, r);
    ReplyKeeps(s, s.local.ReadReady(k, r),
               s.log.(localRead := Record(s.log.localRead, k, s.ClientSession(k), data), endings := t.log.endings));
  }

  lemma WriteTableFits(l: LocalState, phase: Phase, consumed: Trace, refused: set<Key>, k: Key, r: SendResult)
    requires TableFits(l, phase, consumed, refused) && l.Live(k) && l.CanSend(k, r)
    ensures var (m, out) := l.WriteReady(k, r);
            && TableFits(m, phase, consumed, refused)
            && AllSendable(out) && RepliesFit(out, l.remotePort) && m.remotePort == l.remotePort
  {
    var m := l.WriteReady(k, r).0;
    assert m.connections.Keys == l.connections.Keys;
    assert l.connections[k].Arming();
  }

  /** Sending moves bytes from the pending buffer to the tape; closing keeps both. */
  lemma WriteWritesFit(l: LocalState, consumed: Trace, written: Tape, k: Key, r: SendResult)
    requires WritesFit(l, consumed, written) && l.Live(k) && l.CanSend(k, r)
    ensures var data := if r.Sent? then l.connections[k].sendq[..r.n] else [];
            WritesFit(l.WriteReady(k, r).0, consumed, Record(written, k, Count(consumed, NewSession, k), data))
  {
    hide PastFits, PendingFits, Record, TableFits;
    var m := l.WriteReady(k, r).0;
    var data := if r.Sent? then l.connections[k].sendq[..r.n] else [];
    var now := Record(written, k, Count(consumed, NewSession, k), data);
    assert m.connections == l.connections[k := m.connections[k]];
    WritePending(consumed, written, k, l.connections[k].sendq, m.connections[k].sendq, data);
    forall j
      ensures PastFits(consumed, now, j)
    {
      assert PastFits(consumed, written, j);
      if j != k {
        OthersKeep(consumed, written, k, data, j);
      }
    }
    forall j | j in m.connections
      ensures PendingFits(consumed, now, j, m.connections[j].sendq)
    {
      if j != k {
        OthersKeep(consumed, written, k, data, j);
      }
    }
  }

  lemma WritePending(consumed: Trace, written: Tape, k: Key, pending: Octets, left: Octets, data: Octets)
    requires PastFits(consumed, written, k) && PendingFits(consumed, written, k, pending) && pending == data + left
    ensures var now := Record(written, k, Count(consumed, NewSession, k), data);
            PastFits(consumed, now, k) && PendingFits(consumed, now, k, left)
  {
    var i := Count(consumed, NewSession, k);
    var now := Record(written, k, i, data);
    assert On(now, k, i) + left == On(written, k, i) + pending;
    forall x
      ensures On(now, k, x) <= SessionBytes(consumed, k, x)
    {
      assert x != i ==> On(now, k, x) == On(written, k, x);
    }
  }

  lemma OthersKeep(consumed: Trace, written: Tape, k: Key, data: Octets, j: Key)
    requires j != k
    ensures var now := Record(written, k, Count(consumed, NewSession, k), data);
            && (PastFits(consumed, written, j) ==> PastFits(consumed, now, j))
            && (forall p :: PendingFits(consumed, written, j, p) ==> PendingFits(consumed, now, j, p))
  {
    OnRecord(written, k, Count(consumed, NewSession, k), data);
  }

  lemma WriteLocalStep(s: System, k: Key, r: SendResult, t: System, out: Trace)
    requires s.started && s.local.Live(k) && s.local.CanSend(k, r) && t == s.LocalWrite(k, r)
    requires out == s.local.WriteReady(k, r).1
    requires Inv(s) && s.log.lost == []
    ensures Inv(t) && (Moves(s, t, [], [], out, []))
  {
    hide Inv, Moves, TableFits, WritesFit;
    LocalOf(s);
    var data := if r.Sent? then s.local.connections[k].sendq[..r.n] else [];
    WriteTableFits(s.local, s.localPhase, s.log.consumed, s.log.refused, k, r);
    WriteWritesFit(s.local, s.log.consumed, s.log.localWritten, k, r);
    ReplyKeeps(s, s.local.WriteReady(k, r),
               s.log.(localWritten := Record(s.log.localWritten, k, s.ClientSession(k), data),
                      endings := t.log.endings));
  }

  lemma DismissFits(l: LocalState, consumed: Trace, refused: set<Key>, written: Tape, k: Key)
    requires TableFits(l, Closing, consumed, refused) && WritesFit(l, consumed, written) && k in l.connections
    ensures var (m, out) := l.Dismiss(k);
            && TableFits(m, Closing, consumed, refused) && WritesFit(m, consumed, written)
            && AllSendable(out) && RepliesFit(out, l.remotePort)
  {
    hide PastFits, PendingFits;
    assert l.Dismiss(k).0.connections.Keys == l.connections.Keys - {k};
  }

  lemma DismissStep(s: System, k: Key, t: System, out: Trace)
    requires s.started && s.localPhase == Closing && k in s.local.connections && t == s.Reply(s.local.Dismiss(k))
    requires out == s.local.Dismiss(k).1
    requires Inv(s) && s.log.lost == []
    ensures Inv(t) && (Moves(s, t, [], [], out, []))
  {
    hide Inv, Moves, TableFits, WritesFit;
    LocalOf(s);
    DismissFits(s.local, s.log.consumed, s.log.refused, s.log.localWritten, k);
    ReplyKeeps(s, s.local.Dismiss(k), s.log);
    assert s.Reply(s.local.Dismiss(k)).Note(s.log) == s.Reply(s.local.Dismiss(k));
  }

  /** A consumed message and the table: what holds of the shorter trace holds of the longer one. */
  lemma TakeFits(local: LocalState, consumed: Trace, refusedSet: set<Key>, written: Tape, q: Queued, answer: Answer)
    requires Grammatical(consumed + [q]) && q.relayPort == local.remotePort
    requires TableFits(local, Serving, consumed, refusedSet) && WritesFit(local, consumed, written)
    ensures var now := if q.kind != NewSession then refusedSet
                       else if answer.Refuses? then refusedSet + {q.key} else refusedSet - {q.key};
            var (l, out) := local.Take(q, answer);
            && TableFits(l, Serving, consumed + [q], now) && WritesFit(l, consumed + [q], written)
  {
    TakeTableFits(local, consumed, refusedSet, q, answer);
    TakeWritesFit(local, consumed, refusedSet, written, q, answer);
  }

  lemma TakeTableFits(local: LocalState, consumed: Trace, refusedSet: set<Key>, q: Queued, answer: Answer)
    requires Grammatical(consumed + [q]) && q.relayPort == local.remotePort
    requires TableFits(local, Serving, consumed, refusedSet)
    ensures var now := if q.kind != NewSession then refusedSet
                       else if answer.Refuses? then refusedSet + {q.key} else refusedSet - {q.key};
            var l := local.Take(q, answer).0;
            && TableFits(l, Serving, consumed + [q], now)
            && (q.kind == NewSession ==> q.key !in local.connections)
            && (q.kind != NewSession ==> (q.key !in local.connections <==> q.key in refusedSet))
  {
    Append(consumed, q);
  }

  lemma TakeWritesFit(
      local: LocalState, consumed: Trace, refusedSet: set<Key>, written: Tape, q: Queued, answer: Answer)
    requires Grammatical(consumed + [q])
    requires TableFits(local, Serving, consumed, refusedSet) && WritesFit(local, consumed, written)
    ensures WritesFit(local.Take(q, answer).0, consumed + [q], written)
  {
    var l := local.Take(q, answer).0;
    forall k
      ensures PastFits(consumed + [q], written, k)
    {
      assert PastFits(consumed, written, k);
      LongerPast(consumed, q, written, k);
    }
    forall k | k in l.connections
      ensures PendingFits(consumed + [q], written, k, l.connections[k].sendq)
    {
      assert PastFits(consumed, written, k);
      if k == q.key && q.kind == NewSession {
        NewPending(consumed, q, written);
      } else {
        assert k in local.connections && PendingFits(consumed, written, k, local.connections[k].sendq);
        LongerPending(consumed, q, written, k, local.connections[k].sendq);
      }
    }
  }

  lemma LongerPast(consumed: Trace, q: Queued, written: Tape, k: Key)
    requires PastFits(consumed, written, k)
    ensures PastFits(consumed + [q], written, k)
  {
    forall i
      ensures On(written, k, i) <= SessionBytes(consumed + [q], k, i)
    {
      SessionBytesGrow(consumed, [q], k, i);
    }
  }

  lemma NewPending(consumed: Trace, q: Queued, written: Tape)
    requires q.kind == NewSession && PastFits(consumed, written, q.key)
    ensures PendingFits(consumed + [q], written, q.key, [])
  {
    Append(consumed, q);
    FutureEmpty(consumed, q.key, Count(consumed, NewSession, q.key) + 1);
  }

  lemma LongerPending(consumed: Trace, q: Queued, written: Tape, k: Key, pending: Octets)
    requires PendingFits(consumed, written, k, pending) && (q.kind == NewSession ==> k != q.key)
    ensures PendingFits(consumed + [q], written, k, if q.kind == Payload
            && q.key == k then pending + q.data else pending)
  {
    Append(consumed, q);
  }

  /** Taking the head of the inbound queue, before acting on it. */
  lemma TakeInboundStep(s: System, answer: Answer, t: System, q: Queued, out: Trace)
    requires s.started && s.localPhase == Serving && s.fromRemote != [] && t == s.LocalTake(answer)
    requires q == s.fromRemote[0] && out == s.local.Take(q, answer).1
    requires Inv(s) && s.log.lost == []
    ensures Inv(t) && (Moves(s, t, [], [q], out, []))
  {
    hide Inv, RelayPart, LinkPart, Moves, TableFits, WritesFit, Grammatical;
    LocalOf(s);
    PartsOf(s);
    HeadFits(s);
    TakeFits(s.local, s.log.consumed, s.log.refused, s.log.localWritten, q, answer);
    TakeInboundLinks(s, answer, t, q, out);
    InvFromParts(t);
  }

  lemma InvFromParts(t: System)
    requires RelayPart(t) && LinkPart(t) && LocalPart(t) && t.started
    ensures Inv(t)
  {
  }

  /** The next message the local thread takes continues a grammatical trace of the one relay. */
  lemma HeadFits(s: System)
    requires Inv(s) && s.log.lost == [] && s.fromRemote != [] && s.started
    ensures Grammatical(s.log.consumed + [s.fromRemote[0]]) && s.fromRemote[0].relayPort == s.relay.port
    ensures Sendable(s.fromRemote[0])
  {
    hide WellFramed, InFlight;
    var p := s.Downlink();
    p.ConsumeConserves();
    var rest := p.Consume().Transit();
    assert s.log.emitted == s.log.consumed + [s.fromRemote[0]] + rest;
    GrammaticalPrefix(s.log.consumed + [s.fromRemote[0]], rest);
    assert s.log.emitted[|s.log.consumed|] == s.fromRemote[0];
  }

  lemma TakeInboundLinks(s: System, answer: Answer, t: System, q: Queued, out: Trace)
    requires s.started && s.localPhase == Serving && s.fromRemote != [] && t == s.LocalTake(answer)
    requires q == s.fromRemote[0] && out == s.local.Take(q, answer).1
    requires RelayPart(s) && LinkPart(s) && RepliesFit(s.log.replied, s.relay.port)
             && s.local.remotePort == s.relay.port
    ensures LinkPart(t) && RelayPart(t) && RepliesFit(t.log.replied, s.relay.port)
    ensures Moves(s, t, [], [q], out, [])
  {
    hide Pipe.Conserved, Pipe.Transit, RelayState.Tells, TapeFollows, Sendable, LocalState.Take;
    TakeReplies(s.local, q, answer);
    assert t.Downlink() == s.Downlink().Consume();
    s.Downlink().ConsumeConserves();
    assert t.Uplink() == s.Uplink().Produce(out);
    s.Uplink().ProduceConserves(out);
    assert s.Downlink().Transit() + [] == s.Downlink().Transit();
    assert [] + t.Uplink().Transit() == t.Uplink().Transit();
    assert t.log.emitted + [] == t.log.emitted && t.log.applied + [] == t.log.applied;
  }

  lemma TakeReplies(l: LocalState, q: Queued, answer: Answer)
    ensures var (m, out) := l.Take(q, answer);
            AllSendable(out) && RepliesFit(out, l.remotePort) && m.remotePort == l.remotePort
  {
  }

  // ------------------------------------------------------------ every action

  lemma RelayActionKeeps(s: System, a: Action)
    requires Enabled(s, a) && (a.Accept? || a.ReadExternal? || a.WriteExternal? || a.CleanUp? || a.TakeOutbound?)
    requires Inv(s)
    ensures Kept(s, a)
  {
    hide Inv, Moves, RelayState.Accept, RelayState.ReadReady, RelayState.WriteReady, RelayState.CleanUp,
         RelayState.TakeOutbound;
    var t, out := Apply(s, a), Emitted(s, a);
    match a
    case Accept(k, id) => AcceptStep(s, k, id, t, out);
    case ReadExternal(k, r) => ReadExternalStep(s, k, r, t, out);
    case WriteExternal(k, r) => WriteExternalStep(s, k, r, t, out);
    case CleanUp(k) => CleanUpStep(s, k, t, out);
    case TakeOutbound => TakeOutboundStep(s, t, s.outbound[0], out);
    case _ =>
  }

  /** Once something was lost in the handshake, only the relay's side is still accounted for. */
  lemma LocalActionAfterLoss(s: System, a: Action)
    requires Enabled(s, a) && (a.TakeInbound? || a.ReadLocal? || a.WriteLocal? || a.Dismiss?)
    requires Inv(s) && s.log.lost != []
    ensures Kept(s, a)
  {
    hide RelayState.Tells, TapeFollows, Unshaken, LocalState.Take, LocalState.ReadReady, LocalState.WriteReady,
         LocalState.Dismiss;
  }

  lemma LocalActionKeeps(s: System, a: Action)
    requires Enabled(s, a) && (a.TakeInbound? || a.ReadLocal? || a.WriteLocal? || a.Dismiss?)
    requires Inv(s) && s.log.lost == []
    ensures Kept(s, a)
  {
    hide Inv, Moves, LocalState.Take, LocalState.ReadReady, LocalState.WriteReady, LocalState.Dismiss;
    var t, out := Apply(s, a), Replied(s, a);
    match a
    case TakeInbound(answer) => TakeInboundStep(s, answer, t, s.fromRemote[0], out);
    case ReadLocal(k, r) => ReadLocalStep(s, k, r, t, out);
    case WriteLocal(k, r) => WriteLocalStep(s, k, r, t, out);
    case Dismiss(k) => DismissStep(s, k, t, out);
    case _ =>
  }

  /** Leaving a loop changes no message; afterwards only the clean-up goes on. */
  lemma LeaveKeeps(s: System, a: Action)
    requires Enabled(s, a) && (a.LeaveLoop? || a.LeaveLocalLoop?)
    requires Inv(s)
    ensures Kept(s, a)
  {
    hide RelayState.Tells, TapeFollows, Pipe.Conserved, Pipe.Transit, WritesFit, Frame;
    var t := Apply(s, a);
    assert t.Downlink() == s.Downlink() && t.Uplink() == s.Uplink();
    StillIf(s, t);
  }

  lemma LinkActionKeeps(s: System, a: Action)
    requires Enabled(s, a)
    requires a.SendDown? || a.ReceiveUp? || a.DecodeUp? || a.ForwardDown? || a.Shake?
          || a.SendUp? || a.ReceiveDown? || a.DecodeDown? || a.ForwardUp?
    requires Inv(s)
    ensures Kept(s, a)
  {
    hide Inv, Moves;
    var t := Apply(s, a);
    match a
    case SendDown(r) => SendDownStep(s, r, t);
    case ReceiveUp(n) => ReceiveUpStep(s, n, t);
    case DecodeUp(allot) => DecodeUpStep(s, allot, t);
    case ForwardDown => ForwardDownStep(s, t);
    case Shake(n) => ShakeStep(s, n, t);
    case SendUp(r) => SendUpStep(s, r, t);
    case ReceiveDown(n) => ReceiveDownStep(s, n, t);
    case DecodeDown => DecodeDownStep(s, t);
    case ForwardUp => ForwardUpStep(s, t);
    case _ =>
  }

  lemma ActionKeeps(s: System, a: Action)
    requires Enabled(s, a)
    requires Inv(s)
    ensures Kept(s, a)
  {
    hide Inv, Kept, Enabled;
    match a {
      case Accept(_, _) | ReadExternal(_, _) | WriteExternal(_, _) | CleanUp(_) | TakeOutbound =>
        RelayActionKeeps(s, a);
      case TakeInbound(_) | ReadLocal(_, _) | WriteLocal(_, _) | Dismiss(_) =>
        if s.log.lost == [] {
          LocalActionKeeps(s, a);
        } else {
          LocalActionAfterLoss(s, a);
        }
      case LeaveLoop | LeaveLocalLoop =>
        LeaveKeeps(s, a);
      case _ =>
        LinkActionKeeps(s, a);
    }
  }

  lemma InitialInv(port: Port)
    ensures Inv(Initial(port))
  {
    var s := Initial(port);
    OpenFrame(port);
    assert s.down + s.manager.sendq == Frame(RelayMessage(OpenRelay, port));
    EmptyPipe(s.Downlink());
    EmptyPipe(s.Uplink());
    RelayProofs.OpenedTells(port);
  }

  lemma EmptyPipe(p: Pipe)
    requires p.Bytes() == [] && p.produced == [] && p.consumed == [] && p.source == [] && p.sink == []
    ensures p.Conserved() && p.Transit() == []
  {
    EmptyFails();
    hide Deserialize;
    assert Drain([]) == ([], []);
  }

  /** The invariant holds in every state that any interleaving reaches. */
  lemma {:induction false} RunKeeps(s: System, actions: seq<Action>)
    requires Inv(s) && IsRun(s, actions)
    ensures Inv(Run(s, actions))
    decreases |actions|
  {
    hide Inv, Enabled, Apply, Moves;
    if actions == [] {
    } else {
      ActionKeeps(s, actions[0]);
      RunKeeps(Apply(s, actions[0]), actions[1..]);
    }
  }
}
