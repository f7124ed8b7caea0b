/** The main results about the running system, for every run of it. */
module Theorems {
  import opened Wire
  import opened Messages
  import opened MessageProofs
  import opened Framing
  import opened Sessions
  import opened Pipes
  import opened RelayStates
  import opened ClientStates
  import opened System
  import opened SystemInvariants
  import opened SystemSteps
  import opened Fidelity
  import opened Continuations
  import opened Meetings

  /** Some interleaving leads from the creation of a relay to this state. */
  ghost predicate Reachable(s: System) {
    exists port :: Leads(Initial(port), s)
  }

  lemma Reached(s: System)
    requires Reachable(s)
    ensures Inv(s) && (s.log.lost == [] ==> AllFaithful(s))
  {
    hide Inv, IsRun, Run, Initial, AllFaithful;
    var port :| Leads(Initial(port), s);
    var actions :| IsRun(Initial(port), actions) && s == Run(Initial(port), actions);
    InitialInv(port);
    InitialFaithful(port);
    SystemSteps.RunKeeps(Initial(port), actions);
    RunFaithful(Initial(port), actions);
  }

  // ------------------------------------------------------ external to local

  /** What the relay emitted is what the local thread consumed and what is under way. */
  lemma EmittedSplits(s: System)
    requires Inv(s) && s.log.lost == []
    ensures s.log.emitted == s.log.consumed + s.Downlink().Transit()
    ensures TapeFollows(s.log.emitted, s.log.externalRead) && Grammatical(s.log.emitted)
  {
    hide Pipe.Transit, WellFramed, TapeFollows, LocalPart, RelayState.Agrees, Grammatical;
    assert s.Downlink().Conserved();
  }

  /** Whatever the interleaving, a local connection is written a prefix of what its own peer sent. */
  lemma ExternalToLocal(s: System, k: Key, i: nat)
    requires Reachable(s) && s.log.lost == []
    ensures On(s.log.localWritten, k, i) <= On(s.log.externalRead, k, i)
  {
    hide Inv, Reachable, TableFits, Pipe.Transit;
    Reached(s);
    LocalOf(s);
    EmittedSplits(s);
    assert PastFits(s.log.consumed, s.log.localWritten, k);
    SessionBytesGrow(s.log.consumed, s.Downlink().Transit(), k, i);
  }

  /** While both ends are in the same session, no byte of it is missing: it is written, pending or under way. */
  lemma ExternalToLocalInFull(s: System, k: Key)
    requires Reachable(s) && s.log.lost == []
    requires k in s.local.connections && Count(s.Downlink().Transit(), NewSession, k) == 0
    ensures var i := s.RelaySession(k);
            && s.ClientSession(k) == i
            && On(s.log.externalRead, k, i) ==
               On(s.log.localWritten, k, i) + s.local.connections[k].sendq
               + KeyBytes(s.fromRemote, k)
               + KeyBytes(InFlight(s.remote.recvq + s.down + s.manager.sendq), k)
               + KeyBytes(s.inbound, k)
  {
    hide Inv, Reachable, InFlight;
    Reached(s);
    StartedIfHeld(s, k);
    EmittedSplits(s);
    PendingAt(s, k);
    var p := s.Downlink();
    var fly := InFlight(p.Bytes());
    CurrentSessionGrows(s.log.consumed, p.Transit(), k);
    KeyBytesConcat(s.fromRemote + fly, s.inbound, k);
    KeyBytesConcat(s.fromRemote, fly, k);
    assert p.Transit() == s.fromRemote + fly + s.inbound;
    Regroup(On(s.log.localWritten, k, s.ClientSession(k)) + s.local.connections[k].sendq,
            KeyBytes(s.fromRemote, k), KeyBytes(fly, k), KeyBytes(s.inbound, k));
  }

  lemma Regroup(a: Octets, b: Octets, c: Octets, d: Octets)
    ensures a + (b + c + d) == a + b + c + d
  {
  }

  lemma StartedIfHeld(s: System, k: Key)
    requires Inv(s) && k in s.local.connections
    ensures s.started
  {
    hide RelayPart, LinkPart, LocalPart;
  }

  lemma PendingAt(s: System, k: Key)
    requires Inv(s) && s.log.lost == [] && k in s.local.connections
    ensures PendingFits(s.log.consumed, s.log.localWritten, k, s.local.connections[k].sendq)
  {
    hide Pipe.Conserved, PendingFits, PastFits, TapeFollows, TableFits;
  }

  // ------------------------------------------------------ local to external

  /**
   A peer whose address was quiet when it was accepted is sent a prefix of what the local service
   wrote for its own session, however other sessions began.
   */
  lemma LocalToExternal(s: System, k: Key, i: nat)
    requires Reachable(s)
    requires s.log.lost == [] && (k, i) !in s.log.hasty
    ensures On(s.log.externalSent, k, i) <= On(s.log.localRead, k, i)
  {
    hide Inv, Reachable, View;
    Reached(s);
    FaithfulAt(s, k);
  }

  /**
   While the relay has such a peer in its table, what is sent, pending or under way ahead of a CLOSE
   is the session's own, and all of it if no CLOSE is under way and the client is in that session.
   */
  lemma LocalToExternalAhead(s: System, k: Key)
    requires Reachable(s)
    requires s.log.lost == [] && k in s.relay.table && (k, s.RelaySession(k)) !in s.log.hasty
    ensures var i, up := s.RelaySession(k), s.Uplink().Transit();
            var held := On(s.log.externalSent, k, i) + s.relay.table[k].sendq + Ahead(up, k);
            && held <= On(s.log.localRead, k, i)
            && (Count(up, CloseSession, k) == 0 && s.ClientSession(k) == i ==> held == On(s.log.localRead, k, i))
  {
    hide Inv, Reachable, Pipe.Transit, System.Uplink, System.Downlink, System.LiveAt, System.MayMeet;
    Reached(s);
    FaithfulAt(s, k);
    hide On, Ahead;
  }

  /** What was read for the session in the relay's table is sent, pending or under way, and nothing else is. */
  ghost predicate InFull(s: System, k: Key)
    requires k in s.relay.table
  {
    var i := s.RelaySession(k);
    On(s.log.localRead, k, i) ==
    On(s.log.externalSent, k, i) + s.relay.table[k].sendq + KeyBytes(s.Uplink().Transit(), k)
  }

  /** A peer whose address was settled when it was accepted misses no byte while the relay has it in its table. */
  lemma LocalToExternalInFull(s: System, k: Key)
    requires Reachable(s)
    requires s.log.lost == [] && k in s.relay.table && (k, s.RelaySession(k)) !in s.log.unsettled
    ensures InFull(s, k)
    ensures var i := s.RelaySession(k);
            On(s.log.localRead, k, i) ==
            On(s.log.externalSent, k, i) + s.relay.table[k].sendq
            + KeyBytes(s.outbound, k)
            + KeyBytes(InFlight(s.manager.recvq + s.up + s.remote.sendq), k)
            + KeyBytes(s.toRemote, k)
  {
    hide Inv, Reachable, Bounded, InFlight, System.LiveAt, System.MayMeet, System.Downlink;
    Reached(s);
    FaithfulAt(s, k);
    var fly := InFlight(s.manager.recvq + s.up + s.remote.sendq);
    assert s.Uplink().Transit() == s.outbound + fly + s.toRemote;
    KeyBytesConcat(s.outbound + fly, s.toRemote, k);
    KeyBytesConcat(s.outbound, fly, k);
    var i := s.RelaySession(k);
    Regroup(On(s.log.externalSent, k, i) + s.relay.table[k].sendq,
            KeyBytes(s.outbound, k), KeyBytes(fly, k), KeyBytes(s.toRemote, k));
  }

  // -------------------------------------------------------------- sessions

  /** At both ends of the system each address sees whole sessions, one after another. */
  lemma SessionsAtBothEnds(s: System, k: Key)
    requires Reachable(s)
    ensures SessionWord(Project(s.log.emitted, k))
    ensures k in s.relay.table <==> OpenTail(Project(s.log.emitted, k))
    ensures Count(s.log.emitted, NewSession, k) ==
            Count(s.log.emitted, CloseSession, k) + (if k in s.relay.table then 1 else 0)
    ensures s.relay.Agrees()
    ensures s.log.lost == [] ==> s.log.consumed <= s.log.emitted && SessionWord(Project(s.log.consumed, k))
  {
    hide Reachable, Inv, RelayState.Agrees, Pipe.Transit;
    Reached(s);
    TellsOf(s);
    GrammarGivesWord(s.log.emitted, k);
    OneCloseEach(s.log.emitted, k);
    if s.log.lost == [] {
      EmittedSplits(s);
      GrammaticalPrefix(s.log.consumed, s.Downlink().Transit());
      GrammarGivesWord(s.log.consumed, k);
    }
  }

  lemma TellsOf(s: System)
    requires Inv(s)
    ensures s.relay.Tells(s.log.emitted)
  {
    hide RelayState.Tells, LinkPart, LocalPart;
  }

  /** In every state of every run, at all four places, octets that wait to be sent keep EVENT_WRITE registered. */
  lemma WriteArming(s: System)
    requires Reachable(s)
    ensures (s.manager.writeEnabled <==> s.manager.sendq != []) && s.manager.mask == MaskFor(s.manager.sendq != [])
    ensures s.remote.sendq != [] ==> s.remote.mask == ReadWrite
    ensures forall k | k in s.relay.table && s.relay.table[k].sendq != [] ::
              var x := Peer(s.relay.table[k].sck); x in s.relay.selector && s.relay.selector[x] == ReadWrite
    ensures s.log.lost == [] ==>
              forall k | k in s.local.connections && s.local.connections[k].sendq != []
                && !s.local.connections[k].closed ::
                s.local.connections[k].mask == ReadWrite
  {
    hide Reachable, LinkPart, WritesFit, Unshaken, TapeFollows;
    Reached(s);
    assert forall k | k in s.relay.table :: s.relay.Armed(k);
  }

  /** The client's table is the sessions open in what it has consumed, less the refused ones. */
  lemma ClientTable(s: System)
    requires Reachable(s)
    requires s.log.lost == [] && s.localPhase == Serving
    ensures s.local.connections.Keys == OpenKeys(s.log.consumed) - s.log.refused
  {
    Reached(s);
    hide Reachable, RelayPart, LinkPart, WritesFit;
    LocalOf(s);
  }

  /**
   What the local thread is about to take: a NEW never meets an entry; a CLOSE or data meets none
   exactly when the session's connect was refused. The thread ends exactly by such a CLOSE, by data
   for a connection that is closed and not armed, or by a NEW whose socket gets the descriptor
   number of a connection that is closed.
   */
  lemma NextTaken(s: System, q: Queued, answer: Answer)
    requires s.log.lost == [] && Enabled(s, TakeInbound(answer)) && q == s.fromRemote[0]
    requires Reachable(s)
    ensures q.kind == NewSession ==> q.key !in s.local.connections
    ensures q.kind != NewSession ==> (q.key !in s.local.connections <==> q.key in s.log.refused)
    ensures s.local.Take(q, answer).0.dead <==>
            || (q.kind == NewSession && answer.Clashes?)
            || (q.kind == CloseSession && q.key in s.log.refused)
            || (q.kind == Payload && q.key in s.local.connections && Deaf(s.local.connections[q.key]))
  {
    hide Inv, Reachable, LocalState.Take;
    Reached(s);
    NextTakenIn(s, q, answer);
  }

  lemma NextTakenIn(s: System, q: Queued, answer: Answer)
    requires s.log.lost == [] && s.started && s.localPhase == Serving && !s.local.dead
    requires s.fromRemote != [] && q == s.fromRemote[0]
    requires Inv(s)
    ensures q.kind == NewSession ==> q.key !in s.local.connections
    ensures q.kind != NewSession ==> (q.key !in s.local.connections <==> q.key in s.log.refused)
    ensures s.local.Take(q, answer).0.dead <==>
            || (q.kind == NewSession && answer.Clashes?)
            || (q.kind == CloseSession && q.key in s.log.refused)
            || (q.kind == Payload && q.key in s.local.connections && Deaf(s.local.connections[q.key]))
  {
    hide Inv, WritesFit, Grammatical, TableFits;
    LocalOf(s);
    HeadFits(s);
    TakeTableFits(s.local, s.log.consumed, s.log.refused, q, answer);
    TakeDeadly(s.local, q, answer);
  }

  lemma TakeDeadly(s: LocalState, q: Queued, answer: Answer)
    requires !s.dead
    ensures s.Take(q, answer).0.dead <==>
            || (q.kind == NewSession && answer.Clashes?)
            || (q.kind == CloseSession && q.key !in s.connections)
            || (q.kind == Payload && q.key in s.connections && Deaf(s.connections[q.key]))
  {
  }

  /** The messages that the code treats as impossible never turn up. */
  lemma NothingUnexpected(s: System)
    requires Reachable(s) && s.log.lost == []
    ensures // the manager never sees a wrong version, an unknown relay or any frame but DATA and CLOSE
            && NextUpFits(s)
            && s.manager.relays == {s.relay.port}
            // the relay's queue holds no NEW, so it never stops itself
            && RepliesFit(s.log.replied, s.relay.port)
            // every queued message can be put on the wire
            && AllSendable(s.inbound) && AllSendable(s.toRemote)
  {
    Reached(s);
    PartsOf(s);
    LocalOf(s);
    hide Inv, Reachable, RelayPart, WritesFit, TableFits;
    DecodeUpReady(s);
    assert AllSendable(s.Downlink().source) && AllSendable(s.Uplink().source);
  }

  // ------------------------------------------------------------- handshake

  lemma {:induction false} FromWiresBack(ms: seq<Message>, ns: seq<Message>)
    requires AllFrameable(ms) && AllFrameable(ns) && FromWires(ms) == FromWires(ns)
    requires forall i | 0 <= i < |ms| :: IsSessionMessage(ms[i])
    requires forall i | 0 <= i < |ns| :: IsSessionMessage(ns[i])
    ensures ms == ns
  {
    hide Encodable;
    if ms == [] || ns == [] {
    } else {
      assert FromWires(ms)[0] == FromWire(ms[0]) && FromWires(ms)[1..] == FromWires(ms[1..]);
      assert FromWires(ns)[0] == FromWire(ns[0]) && FromWires(ns)[1..] == FromWires(ns[1..]);
      FromWiresBack(ms[1..], ns[1..]);
      assert ms[0] == ns[0];
      assert ms == [ms[0]] + ms[1..] && ns == [ns[0]] + ns[1..];
    }
  }

  /** Two well-framed buffers carry the same messages only if they are the same octets. */
  lemma SameMessagesSameOctets(a: Octets, b: Octets)
    requires WellFramed(a) && WellFramed(b) && InFlight(a) == InFlight(b)
    ensures a == b
  {
    hide Deserialize, Frame, Carried, Encodable, FromWire;
    DrainConserves(a);
    DrainConserves(b);
    FromWiresBack(Drain(a).0, Drain(b).0);
    assert Frames(Drain(a).0) + [] == a && Frames(Drain(b).0) + [] == b;
  }

  /** The downlink keeps every message across the handshake if and only if nothing came with OPEN_RELAY. */
  lemma HandshakeConservesIffAlone(s: System, n: nat, t: System)
    requires Enabled(s, Shake(n)) && t == Apply(s, Shake(n))
    requires Reachable(s)
    ensures t.Downlink().Conserved() <==> Deserialize(s.down[..n]).rest == []
  {
    hide Inv, Reachable, Pipe.Conserved, Deserialize;
    Reached(s);
    HandshakeIn(s, n, t, Deserialize(s.down[..n]).rest);
  }

  lemma HandshakeIn(s: System, n: nat, t: System, lost: Octets)
    requires Enabled(s, Shake(n)) && t == Apply(s, Shake(n)) && lost == Deserialize(s.down[..n]).rest
    requires Inv(s)
    ensures t.Downlink().Conserved() <==> lost == []
  {
    hide Inv, Deserialize, Pipe.Conserved;
    NothingLostYet(s);
    if lost == [] {
      ShakeStep(s, n, t);
      PartsOf(t);
    } else {
      LosesConservation(s, n, t, lost);
    }
  }

  lemma LosesConservation(s: System, n: nat, t: System, lost: Octets)
    requires Enabled(s, Shake(n)) && t == Apply(s, Shake(n)) && lost == Deserialize(s.down[..n]).rest && lost != []
    requires s.log.lost == [] && Inv(s)
    ensures !t.Downlink().Conserved()
  {
    hide Inv, Deserialize, Pipe.Conserved, LinkPart, RelayPart, System.Downlink, Apply, Enabled, Unshaken, Pipe.Bytes;
    PartsOf(s);
    LinkConserves(s);
    ShakeEnds(s, n, t, lost);
    Unequal(s.Downlink(), t.Downlink());
  }

  /** The handshake takes what it loses out of the octets, and touches nothing else of the downlink. */
  lemma ShakeEnds(s: System, n: nat, t: System, lost: Octets)
    requires Enabled(s, Shake(n)) && t == Apply(s, Shake(n)) && lost == Deserialize(s.down[..n]).rest
    requires Inv(s)
    ensures var p, q := s.Downlink(), t.Downlink();
            && p.produced == q.produced && p.source == q.source && p.sink == q.sink && p.consumed == q.consumed
            && |p.Bytes()| == |lost| + |q.Bytes()|
  {
    hide Inv, Deserialize;
    UnshakenOf(s);
    ShakeSplits(s, n, lost);
  }

  lemma LinkConserves(s: System)
    requires LinkPart(s)
    ensures s.Downlink().Conserved()
  {
  }

  lemma UnshakenOf(s: System)
    requires Inv(s) && !s.started
    ensures Unshaken(s)
  {
    hide RelayPart, LinkPart, LocalPart, Unshaken;
  }

  /** With the same source and ends, but octets missing, the messages cannot all be there. */
  lemma Unequal(p: Pipe, q: Pipe)
    requires p.Conserved() && p.Bytes() != q.Bytes()
    requires p.produced == q.produced && p.source == q.source && p.sink == q.sink && p.consumed == q.consumed
    ensures !q.Conserved()
  {
    hide WellFramed, InFlight;
    if q.Conserved() {
      var a, b := InFlight(p.Bytes()), InFlight(q.Bytes());
      assert p.consumed + p.sink + (a + p.source) == p.produced == p.consumed + p.sink + (b + p.source);
      Cancelled(a, b, p.consumed + p.sink, p.source);
      SameMessagesSameOctets(p.Bytes(), q.Bytes());
    }
  }

  lemma Cancelled<T>(a: seq<T>, b: seq<T>, before: seq<T>, after: seq<T>)
    requires before + (a + after) == before + (b + after)
    ensures a == b
  {
    assert |a| == |b|;
    forall i | 0 <= i < |a|
      ensures a[i] == b[i]
    {
      assert (before + (a + after))[|before| + i] == a[i];
      assert (before + (b + after))[|before| + i] == b[i];
    }
  }

  lemma ShakeSplits(s: System, n: nat, lost: Octets)
    requires Enabled(s, Shake(n)) && lost == Deserialize(s.down[..n]).rest
    ensures s.Downlink().Bytes() == lost + Apply(s, Shake(n)).down + s.manager.sendq
  {
    hide Deserialize, Frame;
    FiveThenRest(s.down[..n], lost);
    assert s.down == s.down[..n] + s.down[n..];
    assert s.down + s.manager.sendq == s.down[..5] + (lost + s.down[n..] + s.manager.sendq);
  }

  lemma FiveThenRest(chunk: Octets, lost: Octets)
    requires Deserialize(chunk).Got? && Deserialize(chunk).msg.kind == OpenRelay && Deserialize(chunk).rest == lost
    ensures |chunk| >= 5 && chunk[5..] == lost
  {
    Canonical(chunk);
  }
}
