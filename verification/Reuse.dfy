/**
 An address that comes back. Whether an accept is of a quiet address decides whether its peer can be
 sent octets that are not its session's, and whether it is of a settled one decides whether its
 bytes are all accounted for; runs that use each address once make no other accepts.
 */
module Reuse {
  import opened Wire
  import opened Messages
  import opened MessageProofs
  import opened Sessions
  import opened Pipes
  import opened RelayStates
  import opened ManagerStates
  import opened ClientStates
  import opened Meetings
  import opened System
  import opened SystemInvariants
  import opened SystemSteps
  import opened Fidelity
  import opened Continuations
  import opened Theorems

  // -------------------------------------------------- each address once

  /** No external address is accepted twice. */
  predicate DistinctPeers(actions: seq<Action>) {
    forall i, j | 0 <= i < j < |actions| && actions[i].Accept? && actions[j].Accept? :: actions[i].k != actions[j].k
  }

  /** Only addresses seen are mentioned, and the local thread speaks only of what it has heard of. */
  ghost predicate Heard(s: System, seen: set<Key>) {
    && (forall k | k !in seen :: Project(s.log.emitted, k) == [])
    && (forall k | Project(s.log.consumed, k) == [] :: Project(s.log.replied, k) == [])
  }

  lemma {:induction false} OpenMentioned(t: Trace, k: Key)
    requires k in OpenKeys(t)
    ensures Project(t, k) != []
  {
    if t == [] {
    } else if t[|t| - 1].key != k {
      OpenMentioned(t[..|t| - 1], k);
    }
  }

  lemma MentionedBy(t: Trace, k: Key)
    requires |t| <= 1 && (t == [] || t[0].key != k)
    ensures Project(t, k) == []
  {
    if t == [] {
    } else {
      assert t[..0] == [];
    }
  }

  /** Settled is the stronger: data ahead of a CLOSE is data, and a NEW met in silence is met. */
  lemma SettledIsQuiet(s: System, k: Key)
    requires s.Settled(k)
    ensures s.Quiet(k)
  {
    hide System.Downlink, System.Uplink, Pipe.Transit, LocalState.Meets;
    AheadWithin(s.Uplink().Transit(), k);
    if s.MayMeet(k, true) {
      SilentMeets(s.local, s.Downlink().Transit(), k);
    }
  }

  /** An address not seen yet is settled, and so quiet. */
  lemma UnseenQuiet(s: System, seen: set<Key>, k: Key)
    requires k !in seen && Heard(s, seen) && s.log.lost == []
    requires Inv(s)
    ensures s.Quiet(k) && s.Settled(k)
  {
    hide Pipe.Transit, WellFramed, TapeFollows, WritesFit, RelayState.Tells, LocalState.Meets, System.Downlink,
         System.Uplink, System.Quiet;
    var down, up := s.Downlink().Transit(), s.Uplink().Transit();
    assert s.Downlink().Conserved() && s.Uplink().Conserved();
    PipeEnds(s);
    ProjectConcat(s.log.consumed, down, k);
    ProjectConcat(s.log.applied, up, k);
    UnmentionedEmpty(down, k);
    UnmentionedEmpty(up, k);
    if s.local.Live(k) {
      OpenMentioned(s.log.consumed, k);
    }
    if s.local.Meets(down, k, false) {
      MeetsCounts(s.local, down, k, false);
    }
    SettledIsQuiet(s, k);
  }

  lemma PipeEnds(s: System)
    ensures s.Downlink().produced == s.log.emitted && s.Uplink().produced == s.log.replied
            && s.Uplink().consumed == s.log.applied
    ensures s.log.lost == [] && Inv(s) ==> s.Downlink().consumed == s.log.consumed
  {
    hide RelayPart, LinkPart, LocalPart;
  }

  /** The relay speaks of an address it has just accepted, or has in its table. */
  lemma EmittedAbout(s: System, a: Action)
    requires Enabled(s, a)
    ensures |Emitted(s, a)| <= 1
    ensures Emitted(s, a) != [] ==> (a.Accept? && Emitted(s, a)[0].key == a.k) || Emitted(s, a)[0].key in s.relay.table
  {
  }

  /** The local thread speaks of what it has just taken, or has in its table. */
  lemma RepliedAbout(s: System, a: Action)
    requires Enabled(s, a)
    ensures |Replied(s, a)| <= 1
    ensures Replied(s, a) != [] ==>
              (a.TakeInbound? && Replied(s, a)[0].key == s.fromRemote[0].key) || Replied(s,
                a)[0].key in s.local.connections
  {
  }

  function Accepted(a: Action): set<Key> { if a.Accept? then {a.k} else {} }

  lemma EmittedSeen(s: System, a: Action, seen: set<Key>, k: Key)
    requires Heard(s, seen) && k !in seen + Accepted(a) && Enabled(s, a)
    requires s.relay.Tells(s.log.emitted)
    ensures Project(Emitted(s, a), k) == []
  {
    hide Enabled, Emitted, RelayState.Agrees;
    EmittedAbout(s, a);
    if Emitted(s, a) != [] && Emitted(s, a)[0].key == k {
      OpenMentioned(s.log.emitted, k);
    }
    MentionedBy(Emitted(s, a), k);
  }

  lemma RepliedHeard(s: System, a: Action, k: Key)
    requires Enabled(s, a) && s.local.connections.Keys <= OpenKeys(s.log.consumed)
    requires Project(s.log.consumed + Taken(s, a), k) == []
    ensures Project(s.log.consumed, k) == [] && Project(Replied(s, a), k) == []
  {
    hide Enabled, Replied;
    RepliedAbout(s, a);
    ProjectConcat(s.log.consumed, Taken(s, a), k);
    if Replied(s, a) != [] && Replied(s, a)[0].key == k {
      if k in s.local.connections {
        OpenMentioned(s.log.consumed, k);
      }
    }
    MentionedBy(Replied(s, a), k);
  }

  lemma HeardStep(s: System, a: Action, seen: set<Key>, t: System)
    requires Enabled(s, a) && t == Apply(s, a) && t.log.lost == [] && s.log.lost == [] && Heard(s, seen)
    requires Moves(s, t, Emitted(s, a), Taken(s, a), Replied(s, a), Applied(s, a))
    requires Inv(s)
    ensures Heard(t, seen + Accepted(a))
  {
    hide Enabled, Apply, Emitted, Taken, Replied, Applied, Pipe.Transit, RelayState.Tells, TapeFollows, WritesFit,
         LinkPart;
    forall k | k !in seen + Accepted(a)
      ensures Project(t.log.emitted, k) == []
    {
      EmittedSeen(s, a, seen, k);
      ProjectConcat(s.log.emitted, Emitted(s, a), k);
    }
    forall k | Project(t.log.consumed, k) == []
      ensures Project(t.log.replied, k) == []
    {
      RepliedHeard(s, a, k);
      ProjectConcat(s.log.replied, Replied(s, a), k);
    }
  }

  /** Only an accept begins a session badly. */
  lemma HastyBy(s: System, a: Action)
    requires Enabled(s, a)
    ensures !a.Accept? || s.Quiet(a.k) ==> Apply(s, a).log.hasty == s.log.hasty
    ensures !a.Accept? || s.Settled(a.k) ==> Apply(s, a).log.unsettled == s.log.unsettled
  {
    hide System.Quiet, System.Settled, Record, Deserialize;
  }

  lemma {:induction false} FreshKeeps(s: System, actions: seq<Action>, seen: set<Key>)
    requires IsRun(s, actions) && DistinctPeers(actions)
    requires forall i | 0 <= i < |actions| && actions[i].Accept? :: actions[i].k !in seen
    requires s.log.lost == [] ==> s.log.hasty == {} && s.log.unsettled == {} && Heard(s, seen)
    requires Inv(s)
    ensures var t := Run(s, actions); t.log.lost == [] ==> t.log.hasty == {} && t.log.unsettled == {}
    decreases |actions|
  {
    hide Inv, Enabled, Apply, Moves, Heard, System.Quiet, System.Settled;
    if actions == [] {
    } else {
      var a := actions[0];
      var t := Apply(s, a);
      ActionKeeps(s, a);
      NothingLostYet(s);
      LogGrows(s, a);
      HastyBy(s, a);
      if t.log.lost == [] {
        HeardStep(s, a, seen, t);
        if a.Accept? {
          UnseenQuiet(s, seen, a.k);
        }
      }
      assert forall i | 0 <= i < |actions[1..]| :: actions[1..][i] == actions[i + 1];
      FreshKeeps(t, actions[1..], seen + Accepted(a));
    }
  }

  lemma HeardNothing(port: Port)
    ensures var s := Initial(port); Heard(s, {}) && s.log.hasty == {} && s.log.unsettled == {}
  {
    hide Frame;
  }

  /** A run that uses each external address once accepts only quiet and settled ones. */
  lemma FreshAddresses(port: Port, actions: seq<Action>)
    requires IsRun(Initial(port), actions) && DistinctPeers(actions)
    ensures var s := Run(Initial(port), actions); s.log.lost == [] ==> s.log.hasty == {} && s.log.unsettled == {}
  {
    hide Inv, Initial, Heard, IsRun, Run;
    InitialInv(port);
    HeardNothing(port);
    FreshKeeps(Initial(port), actions, {});
  }

  /** With fresh addresses, a peer is sent a prefix of what the local service wrote for its own session. */
  lemma LocalToExternalFresh(port: Port, actions: seq<Action>, k: Key, i: nat)
    requires IsRun(Initial(port), actions) && DistinctPeers(actions)
    requires Run(Initial(port), actions).log.lost == []
    ensures var s := Run(Initial(port), actions); On(s.log.externalSent, k, i) <= On(s.log.localRead, k, i)
  {
    hide Initial, IsRun, Run, DistinctPeers, On;
    FreshAddresses(port, actions);
    assert Leads(Initial(port), Run(Initial(port), actions));
    LocalToExternal(Run(Initial(port), actions), k, i);
  }

  /** And while the relay has the peer in its table, no byte is missing. */
  lemma LocalToExternalInFullFresh(port: Port, actions: seq<Action>, k: Key)
    requires IsRun(Initial(port), actions) && DistinctPeers(actions)
    requires Run(Initial(port), actions).log.lost == [] && k in Run(Initial(port), actions).relay.table
    ensures var s := Run(Initial(port), actions);
            var i := s.RelaySession(k);
            On(s.log.localRead, k, i) ==
            On(s.log.externalSent, k, i) + s.relay.table[k].sendq
            + KeyBytes(s.outbound, k)
            + KeyBytes(InFlight(s.manager.recvq + s.up + s.remote.sendq), k)
            + KeyBytes(s.toRemote, k)
  {
    hide Initial, IsRun, Run, DistinctPeers, On, InFlight;
    FreshAddresses(port, actions);
    assert Leads(Initial(port), Run(Initial(port), actions));
    LocalToExternalInFull(Run(Initial(port), actions), k);
  }

  // -------------------------------------- whatever else is under way arrives

  /** Only the links have moved. */
  ghost predicate SameEnds(s: System, t: System) {
    && t.relay == s.relay && t.phase == s.phase && t.local == s.local && t.localPhase == s.localPhase
    && t.log == s.log
    && t.Downlink().Transit() == s.Downlink().Transit() && t.Uplink().Transit() == s.Uplink().Transit()
  }

  predicate OnLinks(a: Action) {
    || a.SendDown? || a.ReceiveUp? || a.DecodeUp? || a.ForwardDown?
    || a.SendUp? || a.ReceiveDown? || a.DecodeDown? || a.ForwardUp?
  }

  lemma LinkSame(s: System, a: Action, t: System)
    requires OnLinks(a) && Enabled(s, a) && t == Apply(s, a) && s.log.lost == []
    requires Inv(s)
    ensures Inv(t) && SameEnds(s, t)
  {
    hide Inv, Moves, Pipe.Transit;
    LinkActionKeeps(s, a);
    LinkLocal(s, a, t);
    assert Moves(s, t, [], [], [], []);
    StillSame(s, t);
  }

  lemma LinkLocal(s: System, a: Action, t: System)
    requires OnLinks(a) && Enabled(s, a) && t == Apply(s, a)
    ensures t.relay == s.relay && t.phase == s.phase && t.local == s.local && t.localPhase == s.localPhase
            && t.log == s.log
    ensures Emitted(s, a) == [] && Taken(s, a) == [] && Replied(s, a) == [] && Applied(s, a) == []
  {
    hide Deserialize, Frame, FromWire;
  }

  lemma StillSame(s: System, t: System)
    requires Moves(s, t, [], [], [], [])
    ensures t.Downlink().Transit() == s.Downlink().Transit() && t.Uplink().Transit() == s.Uplink().Transit()
  {
    hide Pipe.Transit;
    var a, b, c, d := s.Downlink().Transit(), t.Downlink().Transit(), s.Uplink().Transit(), t.Uplink().Transit();
    assert a + [] == a && [] + b == b && c + [] == c && [] + d == d;
  }

  /** One step of the links, after others. */
  lemma LinkOn(s0: System, s: System, a: Action, t: System)
    requires OnLinks(a) && Enabled(s, a) && t == Apply(s, a) && s.log.lost == [] && SameEnds(s0, s)
    requires LeadsAlone(s0, s) && Inv(s)
    ensures LeadsAlone(s0, t) && Inv(t) && SameEnds(s0, t)
  {
    hide Inv, LeadsAlone, Enabled, Apply, Pipe.Transit;
    LinkSame(s, a, t);
    AloneOnward(s0, s, a, t);
  }

  /** What the local thread has queued fits a frame, and is no NEW. */
  lemma ForwardUpReady(s: System)
    requires s.log.lost == [] && s.toRemote != []
    requires Inv(s)
    ensures Sendable(s.toRemote[0]) && s.toRemote[0].kind != NewSession
  {
    hide WellFramed, TapeFollows, WritesFit, RelayState.Tells, InFlight;
    var p := s.Uplink();
    assert p.Conserved() && AllSendable(p.source);
    var before := p.consumed + p.sink + InFlight(p.Bytes());
    assert s.log.replied == before + s.toRemote;
    assert s.toRemote[0] == s.log.replied[|before|];
  }

  lemma {:induction false} AllForwardedUp(s0: System, s: System) returns (t: System)
    requires s.started && s.log.lost == [] && SameEnds(s0, s)
    requires LeadsAlone(s0, s) && Inv(s)
    ensures LeadsAlone(s0, t) && Inv(t) && SameEnds(s0, t) && t.started && t.toRemote == []
    decreases |s.toRemote|
  {
    hide Inv, LeadsAlone, SameEnds, Apply, FrameOf, Sendable;
    t := s;
    if s.toRemote == [] {
    } else {
      ForwardUpReady(s);
      var u := s.RemoteForward();
      assert u == Apply(s, ForwardUp) by { Forwarded(s); }
      LinkOn(s0, s, ForwardUp, u);
      EndsLog(s0, u);
      t := AllForwardedUp(s0, u);
    }
  }

  lemma Forwarded(s: System)
    requires Enabled(s, ForwardUp)
    ensures Apply(s, ForwardUp) == s.RemoteForward()
  {
  }

  lemma EndsLog(s: System, t: System)
    requires SameEnds(s, t)
    ensures t.log == s.log
  {
    hide Pipe.Transit;
  }

  lemma {:induction false} AllDecodedUp(s0: System, s: System) returns (t: System)
    requires s.log.lost == [] && SameEnds(s0, s) && s.toRemote == [] && s.remote.sendq == [] && s.up == []
    requires LeadsAlone(s0, s) && Inv(s)
    ensures LeadsAlone(s0, t) && Inv(t) && SameEnds(s0, t) && t.outbound == t.Uplink().Transit()
    decreases |s.manager.recvq|
  {
    hide Inv, LeadsAlone, SameEnds, Apply, Deserialize;
    t := s;
    if s.manager.recvq == [] {
      NothingUnderWay(s);
    } else {
      var allot: nat -> Option<Port> := (n: nat) => None;
      var u := s.ManagerDecode(allot);
      assert u == Apply(s, DecodeUp(allot)) by { Decoded(s, allot); }
      LinkOn(s0, s, DecodeUp(allot), u);
      EndsLog(s0, u);
      Shorter(s, allot);
      t := AllDecodedUp(s0, u);
    }
  }

  lemma Decoded(s: System, allot: nat -> Option<Port>)
    requires Enabled(s, DecodeUp(allot))
    ensures Apply(s, DecodeUp(allot)) == s.ManagerDecode(allot)
  {
    hide Deserialize;
  }

  lemma NothingUnderWay(s: System)
    requires s.toRemote == [] && s.remote.sendq == [] && s.up == [] && s.manager.recvq == []
    ensures s.outbound == s.Uplink().Transit()
  {
    hide Deserialize;
    EmptyFails();
    assert s.Uplink().Bytes() == [];
    assert InFlight([]) == [];
  }

  /** A buffer of whole frames gets shorter with each one decoded. */
  lemma Shorter(s: System, allot: nat -> Option<Port>)
    requires s.log.lost == [] && s.manager.recvq != [] && s.remote.sendq == [] && s.up == []
    requires Inv(s)
    ensures var t := s.ManagerDecode(allot);
            && |t.manager.recvq| < |s.manager.recvq|
            && t.toRemote == [] + s.toRemote && t.remote == s.remote && t.up == s.up && t.started == s.started
  {
    hide RelayPart, LocalPart, Pipe.Transit, Deserialize, ManagerState.Process, Frame;
    assert s.Uplink().Conserved();
    assert s.Uplink().Bytes() == s.manager.recvq;
    assert WellFramed(s.manager.recvq);
    WholeDecodes(s.manager.recvq);
    ProcessRest(s.manager.(recvq := Deserialize(s.manager.recvq).rest), Deserialize(s.manager.recvq).msg,
      allot(s.manager.created));
  }

  lemma WholeDecodes(buf: Octets)
    requires WellFramed(buf) && buf != []
    ensures Deserialize(buf).Got?
  {
    hide Deserialize;
  }

  lemma ProcessRest(m: ManagerState, msg: Message, allotted: Option<Port>)
    requires PortsInRange(msg)
    ensures m.Process(msg, allotted).0.recvq == m.recvq
  {
    hide Frame;
  }

  /** All the local thread has said can come to stand on the relay's queue, with nothing else changed at either end. */
  lemma FlushUp(s: System) returns (t: System)
    requires s.started && s.log.lost == []
    requires Inv(s)
    ensures LeadsAlone(s, t) && Inv(t) && SameEnds(s, t) && t.outbound == t.Uplink().Transit()
  {
    hide Inv, LeadsAlone, SameEnds, Apply;
    AloneNowhere(s);
    SameItself(s);
    var s1 := AllForwardedUp(s, s);
    EndsLog(s, s1);
    var s2 := s1.RemoteWrite(Sent(|s1.remote.sendq|));
    SentUp(s1);
    LinkOn(s, s1, SendUp(Sent(|s1.remote.sendq|)), s2);
    var s3 := s2.ManagerRead(|s2.up|);
    ReadUp(s2);
    EndsLog(s, s2);
    LinkOn(s, s2, ReceiveUp(|s2.up|), s3);
    EndsLog(s, s3);
    t := AllDecodedUp(s, s3);
  }

  lemma SameItself(s: System)
    ensures SameEnds(s, s)
  {
    hide Pipe.Transit;
  }

  lemma SentUp(s: System)
    requires s.started
    ensures var a := SendUp(Sent(|s.remote.sendq|));
            && Enabled(s, a) && Apply(s, a) == s.RemoteWrite(Sent(|s.remote.sendq|))
            && Apply(s, a).remote.sendq == [] && Apply(s, a).toRemote == s.toRemote && Apply(s, a).started
  {
  }

  lemma ReadUp(s: System)
    ensures var a := ReceiveUp(|s.up|);
            && Enabled(s, a) && Apply(s, a) == s.ManagerRead(|s.up|)
            && Apply(s, a).up == [] && Apply(s, a).toRemote == s.toRemote && Apply(s, a).remote == s.remote
  {
  }

  /**
   The relay thread comes to a NEW: the handshake, if need be with nothing else in its receive, and then the
   links.
   */
  lemma FlushDown(s: System) returns (t: System)
    requires s.log.lost == []
    requires Inv(s)
    ensures LeadsAlone(s, t) && Inv(t) && SameEnds(s, t) && t.started && t.fromRemote == t.Downlink().Transit()
  {
    hide Inv, LeadsAlone, SameEnds, Apply;
    var s1 := Handshaken(s);
    EndsLog(s, s1);
    var s2 := AllForwardedDown(s, s1);
    EndsLog(s, s2);
    var s3 := s2.ManagerWrite(Sent(|s2.manager.sendq|));
    SentDown(s2);
    LinkOn(s, s2, SendDown(Sent(|s2.manager.sendq|)), s3);
    var s4 := s3.RemoteRead(|s3.down|);
    ReadDown(s3);
    EndsLog(s, s3);
    LinkOn(s, s3, ReceiveDown(|s3.down|), s4);
    EndsLog(s, s4);
    t := AllDecodedDown(s, s4);
  }

  lemma SentDown(s: System)
    ensures var a := SendDown(Sent(|s.manager.sendq|));
            && Enabled(s, a) && Apply(s, a) == s.ManagerWrite(Sent(|s.manager.sendq|))
            && Apply(s, a).manager.sendq == [] && Apply(s, a).inbound == s.inbound && Apply(s, a).started == s.started
            && Apply(s, a).down == s.down + s.manager.sendq
  {
    assert s.manager.sendq[..|s.manager.sendq|] == s.manager.sendq;
  }

  lemma ReadDown(s: System)
    requires s.started
    ensures var a := ReceiveDown(|s.down|);
            && Enabled(s, a) && Apply(s, a) == s.RemoteRead(|s.down|) && Apply(s, a).started
            && Apply(s, a).down == [] && Apply(s, a).inbound == s.inbound && Apply(s, a).manager == s.manager
  {
  }

  lemma Handshaken(s: System) returns (t: System)
    requires s.log.lost == []
    requires Inv(s)
    ensures LeadsAlone(s, t) && Inv(t) && SameEnds(s, t) && t.started
  {
    hide Inv, LeadsAlone, SameEnds, Apply, Deserialize, Frame;
    AloneNowhere(s);
    SameItself(s);
    t := s;
    if !s.started {
      var s1 := s.ManagerWrite(Sent(|s.manager.sendq|));
      SentDown(s);
      LinkOn(s, s, SendDown(Sent(|s.manager.sendq|)), s1);
      EndsLog(s, s1);
      ShakesAlone(s1);
      AloneShakes(s1);
      t := Apply(s1, Shake(5));
      ActionKeeps(s1, Shake(5));
      AloneOnward(s, s1, Shake(5), t);
      ShakenSame(s1, t);
      SameTwice(s, s1, t);
    }
  }

  lemma SameTwice(s: System, t: System, u: System)
    requires SameEnds(s, t) && SameEnds(t, u)
    ensures SameEnds(s, u)
  {
    hide Pipe.Transit;
  }

  /** The first five octets are an OPEN_RELAY frame. */
  predicate OpenAhead(s: System) {
    && !s.started && 5 <= |s.down| && Deserialize(s.down[..5]).Got?
    && Deserialize(s.down[..5]).msg.kind == OpenRelay && Deserialize(s.down[..5]).rest == []
  }

  lemma AloneShakes(s: System)
    requires OpenAhead(s)
    ensures Enabled(s, Shake(5))
  {
    hide Deserialize;
  }

  /** A receive of exactly the first frame is the handshake with nothing else in it. */
  lemma ShakesAlone(s: System)
    requires !s.started && s.manager.sendq == []
    requires Inv(s)
    ensures OpenAhead(s)
  {
    hide RelayPart, LinkPart, LocalPart, Deserialize, Frame, Carried, Encodable;
    var open := RelayMessage(OpenRelay, s.relay.port);
    OpenFrame(s.relay.port);
    assert s.down + [] == s.down;
    assert Frame(open) <= s.down;
    assert s.down[..5] == Frame(open) + [];
    RoundTrip(open, []);
    OpenCarried(s.relay.port);
  }

  lemma ShakenSame(s: System, t: System)
    requires Enabled(s, Shake(5)) && t == Apply(s, Shake(5))
    requires OpenAhead(s) && s.log.lost == []
    requires Kept(s, Shake(5))
    ensures SameEnds(s, t) && t.started && Inv(t)
  {
    hide Inv, Pipe.Transit, Deserialize, Moves;
    StillSame(s, t);
  }

  lemma {:induction false} AllForwardedDown(s0: System, s: System) returns (t: System)
    requires s.started && s.log.lost == [] && SameEnds(s0, s)
    requires LeadsAlone(s0, s) && Inv(s)
    ensures LeadsAlone(s0, t) && Inv(t) && SameEnds(s0, t) && t.started && t.inbound == []
    decreases |s.inbound|
  {
    hide Inv, LeadsAlone, SameEnds, Apply, FrameOf, Sendable;
    t := s;
    if s.inbound == [] {
    } else {
      ForwardDownReady(s);
      var u := s.ManagerForward();
      LinkOn(s0, s, ForwardDown, u);
      EndsLog(s0, u);
      t := AllForwardedDown(s0, u);
    }
  }

  lemma ForwardDownReady(s: System)
    requires s.log.lost == [] && s.inbound != []
    requires Inv(s)
    ensures Enabled(s, ForwardDown) && Apply(s, ForwardDown) == s.ManagerForward()
  {
    hide RelayPart, LocalPart, WellFramed, InFlight, Sendable;
    assert AllSendable(s.Downlink().source);
  }

  lemma {:induction false} AllDecodedDown(s0: System, s: System) returns (t: System)
    requires s.started && s.log.lost == [] && SameEnds(s0, s) && s.inbound == [] && s.manager.sendq == []
             && s.down == []
    requires LeadsAlone(s0, s) && Inv(s)
    ensures LeadsAlone(s0, t) && Inv(t) && SameEnds(s0, t) && t.started && t.fromRemote == t.Downlink().Transit()
    decreases |s.remote.recvq|
  {
    hide Inv, LeadsAlone, SameEnds, Apply, Deserialize;
    t := s;
    if s.remote.recvq == [] {
      NothingComing(s);
    } else {
      var u := s.RemoteDecode();
      ShorterDown(s);
      LinkOn(s0, s, DecodeDown, u);
      EndsLog(s0, u);
      t := AllDecodedDown(s0, u);
    }
  }

  lemma NothingComing(s: System)
    requires s.started && s.inbound == [] && s.manager.sendq == [] && s.down == [] && s.remote.recvq == []
    ensures s.fromRemote == s.Downlink().Transit()
  {
    hide Deserialize;
    EmptyFails();
    assert s.Downlink().Bytes() == [];
    assert InFlight([]) == [];
  }

  lemma ShorterDown(s: System)
    requires s.started && s.log.lost == [] && s.remote.recvq != [] && s.manager.sendq == [] && s.down == []
    requires Inv(s)
    ensures var t := s.RemoteDecode();
            && Enabled(s, DecodeDown) && Apply(s, DecodeDown) == t
            && |t.remote.recvq| < |s.remote.recvq|
            && t.inbound == s.inbound && t.manager == s.manager && t.down == s.down && t.started
  {
    hide RelayPart, LocalPart, Pipe.Transit, Deserialize, FromWire;
    assert s.Downlink().Conserved();
    assert s.Downlink().Bytes() == s.remote.recvq;
    WholeDecodes(s.remote.recvq);
  }

  // ------------------------------------------ how a session gets wrong bytes

  /** Nothing has been read for the session that the relay has in its table. */
  ghost predicate Unread(s: System, k: Key) {
    s.phase == Serving && k in s.relay.table && On(s.log.localRead, k, s.RelaySession(k)) == []
  }

  /** The peer of the session was sent what the local service did not write for it. */
  ghost predicate Unfaithful(s: System, k: Key, i: nat) {
    s.log.lost == [] && !(On(s.log.externalSent, k, i) <= On(s.log.localRead, k, i))
  }

  /** No CLOSE of the address is on its way to the relay. */
  predicate NoCloseUp(s: System, k: Key) { Count(s.Uplink().Transit(), CloseSession, k) == 0 }

  /** The relay sends what it has for the address. */
  lemma SentWrong(s0: System, s: System, k: Key) returns (t: System)
    requires Unread(s, k) && s.relay.table[k].sendq != [] && s.log.lost == []
    requires LeadsAlone(s0, s)
    ensures LeadsAlone(s0, t) && Unfaithful(t, k, s.RelaySession(k))
  {
    hide LeadsAlone;
    var i, data := s.RelaySession(k), s.relay.table[k].sendq;
    t := s.ExternalWrite(k, Sent(|data|));
    AloneOnward(s0, s, WriteExternal(k, Sent(|data|)), t);
    assert data[..|data|] == data;
    OnRecord(s.log.externalSent, k, i, data);
    hide Record, On;
    assert On(t.log.externalSent, k, i) == On(s.log.externalSent, k, i) + data;
    assert On(t.log.localRead, k, i) == [];
  }

  /** What an entry off the outbound queue does to an address in the table, if it is no CLOSE of it. */
  lemma EntryMeets(r: RelayState, q: Queued, k: Key)
    requires k in r.table && !(q.key == k && q.kind == CloseSession)
    ensures var (u, out, _) := r.TakeOutbound(q);
            && About(out, q.key) && News(out) == 0 && k in u.table
            && (q.key == k && q.kind == Payload && q.data != [] ==> u.table[k].sendq != [])
  {
  }

  lemma EntryTaken(s: System, k: Key)
    requires Unread(s, k) && s.outbound != [] && !(s.outbound[0].key == k && s.outbound[0].kind == CloseSession)
    ensures var q, t := s.outbound[0], s.RelayTake();
            && Enabled(s, TakeOutbound) && Apply(s, TakeOutbound) == t
            && Unread(t, k) && t.RelaySession(k) == s.RelaySession(k) && t.log.lost == s.log.lost
            && t.outbound == s.outbound[1..]
            && (q.key == k && q.kind == Payload && q.data != [] ==> t.relay.table[k].sendq != [])
  {
    hide RelayState.TakeOutbound, About, News, On;
    var q := s.outbound[0];
    var out := s.relay.TakeOutbound(q).1;
    EntryMeets(s.relay, q, k);
    AboutNews(out, q.key, k);
    CountConcat(s.log.emitted, out, NewSession, k);
  }

  /** Old data on the outbound queue, with no CLOSE ahead of it, is sent to whoever has the address now. */
  lemma {:induction false} OldDataSent(s0: System, s: System, k: Key) returns (t: System)
    requires Unread(s, k) && Ahead(s.outbound, k) != [] && s.log.lost == []
    requires LeadsAlone(s0, s)
    ensures LeadsAlone(s0, t) && Unfaithful(t, k, s.RelaySession(k))
    decreases |s.outbound|
  {
    hide LeadsAlone, Unread, Unfaithful, System.RelayTake, Apply, Enabled, Ahead, System.RelaySession;
    NoMessage(k);
    var q, u := s.outbound[0], s.RelayTake();
    assert s.outbound == [q] + s.outbound[1..];
    AheadFront(q, s.outbound[1..], k);
    EntryTaken(s, k);
    AloneOnward(s0, s, TakeOutbound, u);
    if q.key == k && q.kind == Payload && q.data != [] {
      t := SentWrong(s0, u, k);
    } else {
      t := OldDataSent(s0, u, k);
    }
  }

  lemma StartedIfSaid(s: System, k: Key)
    requires Ahead(s.Uplink().Transit(), k) != [] && s.log.lost == []
    requires Inv(s)
    ensures s.started
  {
    hide RelayPart, LocalPart, Pipe.Transit, WellFramed, Ahead;
    NoMessage(k);
    assert s.Uplink().Conserved();
  }

  /** Old data anywhere on its way to the relay. */
  lemma OldDataArrives(s0: System, s: System, k: Key) returns (t: System)
    requires Unread(s, k) && Ahead(s.Uplink().Transit(), k) != [] && s.log.lost == []
    requires LeadsAlone(s0, s) && Inv(s)
    ensures LeadsAlone(s0, t) && Unfaithful(t, k, s.RelaySession(k))
  {
    hide LeadsAlone, Inv, Unfaithful, Pipe.Transit, Ahead;
    StartedIfSaid(s, k);
    var u := FlushUp(s);
    AloneOn(s0, s, u);
    t := OldDataSent(s0, u, k);
  }

  lemma StartedIfLive(s: System, k: Key)
    requires s.LiveAt(k)
    requires Inv(s)
    ensures s.started
  {
    hide RelayPart, LinkPart, LocalPart;
  }

  /** The service writes to a connection of an earlier session. */
  lemma ServiceSpeaks(s0: System, s: System, k: Key) returns (t: System)
    requires Unread(s, k) && s.LiveAt(k) && s.ClientSession(k) < s.RelaySession(k) && s.log.lost == []
    requires LeadsAlone(s0, s) && Inv(s)
    ensures LeadsAlone(s0, t) && Inv(t) && Unread(t, k) && t.RelaySession(k) == s.RelaySession(k) && t.log.lost == []
    ensures KeyBytes(t.Uplink().Transit(), k) != []
    ensures NoCloseUp(s, k) ==> Ahead(t.Uplink().Transit(), k) != []
  {
    hide LeadsAlone, Inv, Pipe.Transit, Moves, Ahead;
    StartedIfLive(s, k);
    var a := ReadLocal(k, Received([0]));
    t := s.LocalRead(k, Received([0]));
    AloneOnward(s0, s, a, t);
    ActionKeeps(s, a);
    Spoken(s, k, t);
  }

  lemma Spoken(s: System, k: Key, t: System)
    requires s.LiveAt(k) && t == s.LocalRead(k, Received([0])) && Unread(s, k) && s.ClientSession(k) < s.RelaySession(k)
    requires Moves(s, t, [], [], s.local.ReadReady(k, Received([0])).1, [])
    ensures Unread(t, k) && t.relay == s.relay && t.log.lost == s.log.lost && t.RelaySession(k) == s.RelaySession(k)
    ensures KeyBytes(t.Uplink().Transit(), k) != []
    ensures NoCloseUp(s, k) ==> Ahead(t.Uplink().Transit(), k) != []
  {
    hide Pipe.Transit, System.Downlink;
    var q := Queued(Payload, k, [0], s.local.connections[k].relayId);
    assert [] + t.Uplink().Transit() == t.Uplink().Transit() && s.log.emitted + [] == s.log.emitted;
    KeyBytesConcat(s.Uplink().Transit(), [q], k);
    AheadAppend(s.Uplink().Transit(), q, k);
    OneMessage(q, k);
    OnRecord(s.log.localRead, k, s.ClientSession(k), [0]);
  }

  /** The client takes what has come, up to a NEW of the address. */
  lemma {:induction false} ComesToNew(s0: System, s: System, k: Key, silent: bool) returns (t: System)
    requires s.started && s.localPhase == Serving && s.local.Meets(s.fromRemote, k, silent) && s.log.lost == []
    requires LeadsAlone(s0, s) && Inv(s)
    ensures LeadsAlone(s0, t) && Inv(t) && t.LiveAt(k) && t.log.lost == []
    ensures t.ClientSession(k) == s.ClientSession(k) + 1 && t.log.localRead == s.log.localRead
    ensures t.relay == s.relay && t.phase == s.phase && t.log.emitted == s.log.emitted
    ensures silent && NoCloseUp(s, k) ==> NoCloseUp(t, k)
    decreases |s.fromRemote|
  {
    hide LeadsAlone, Inv, LocalState.Take, Apply, NoCloseUp, Moves;
    var q, u := s.fromRemote[0], s.LocalTake(Connects);
    OneTaken(s, k);
    ActionKeeps(s, TakeInbound(Connects));
    AloneOnward(s0, s, TakeInbound(Connects), u);
    NothingSaid(s, u, q, k);
    if q.kind == NewSession && q.key == k {
      t := u;
    } else {
      t := ComesToNew(s0, u, k, silent);
    }
  }

  lemma OneTaken(s: System, k: Key)
    requires s.started && s.Attends() && s.fromRemote != []
    ensures var q, t := s.fromRemote[0], s.LocalTake(Connects);
            && Enabled(s, TakeInbound(Connects)) && Apply(s, TakeInbound(Connects)) == t
            && Replied(s, TakeInbound(Connects)) == s.local.Take(q, Connects).1
            && t.started && t.localPhase == s.localPhase && t.fromRemote == s.fromRemote[1..]
               && t.log.lost == s.log.lost
            && t.local == s.local.Take(q, Connects).0 && t.log.localRead == s.log.localRead
            && t.relay == s.relay && t.phase == s.phase && t.log.emitted == s.log.emitted
            && t.ClientSession(k) == s.ClientSession(k) + (if q.kind == NewSession && q.key == k then 1 else 0)
            && (q.kind == NewSession && q.key == k ==> t.LiveAt(k))
  {
    Append(s.log.consumed, s.fromRemote[0]);
    assert s.log.emitted + [] == s.log.emitted;
  }

  /** What was taken in silence about the address put no CLOSE of it on the way. */
  lemma NothingSaid(s: System, t: System, q: Queued, k: Key)
    requires Moves(s, t, [], [q], s.local.Take(q, Connects).1, [])
    ensures (q.kind == NewSession || (q.key == k ==> s.local.Take(q, Connects).1 == [])) && NoCloseUp(s, k) ==>
              NoCloseUp(t, k)
  {
    hide Pipe.Transit, System.Downlink, System.Uplink;
    var out := s.local.Take(q, Connects).1;
    assert [] + t.Uplink().Transit() == t.Uplink().Transit();
    CountConcat(s.Uplink().Transit(), out, CloseSession, k);
    NoMessage(k);
    if out != [] {
      assert out == [out[0]] && out[0].key == q.key;
      OneMessage(out[0], k);
    }
  }

  /** The local service writes for an earlier session of the address while the relay has a later one. */
  lemma StrayWritten(s: System, k: Key, silent: bool) returns (t: System)
    requires Unread(s, k) && s.log.lost == []
    requires || (s.LiveAt(k) && s.ClientSession(k) < s.RelaySession(k))
             || (s.MayMeet(k, silent) && s.ClientSession(k) + 1 < s.RelaySession(k))
    requires Inv(s)
    ensures LeadsAlone(s, t) && Inv(t) && Unread(t, k) && t.RelaySession(k) == s.RelaySession(k) && t.log.lost == []
    ensures KeyBytes(t.Uplink().Transit(), k) != []
    ensures silent && NoCloseUp(s, k) ==> Ahead(t.Uplink().Transit(), k) != []
  {
    hide LeadsAlone, Inv, Pipe.Transit, LocalState.Meets, Ahead, System.LiveAt;
    AloneNowhere(s);
    if s.LiveAt(k) && s.ClientSession(k) < s.RelaySession(k) {
      t := ServiceSpeaks(s, s, k);
    } else {
      var u := FlushDown(s);
      u := ComesToNew(s, u, k, silent);
      t := ServiceSpeaks(s, u, k);
    }
  }

  // ---------------------------------------------------- the premises are exact

  /** Only sessions that have begun have begun badly. */
  ghost predicate Begun(s: System) {
    forall k, x | (k, x) in s.log.hasty + s.log.unsettled :: x <= s.RelaySession(k)
  }

  /** What is known of how the address's sessions began up to the `i`-th stays as it is. */
  predicate SameBeginnings(s: System, t: System, k: Key, i: nat) {
    forall x: nat | x <= i ::
      ((k, x) in s.log.hasty <==> (k, x) in t.log.hasty) && ((k, x) in s.log.unsettled <==> (k, x) in t.log.unsettled)
  }

  /** An accept begins the next session of its address, and nothing else begins one. */
  lemma BegunStep(s: System, a: Action, k: Key)
    requires Enabled(s, a)
    requires Begun(s)
    ensures var t := Apply(s, a);
            Begun(t) && SameBeginnings(s, t, k, s.RelaySession(k)) && s.RelaySession(k) <= t.RelaySession(k)
  {
    hide Enabled, Apply, Emitted, System.Quiet, System.Settled;
    var t := Apply(s, a);
    EmittedLogged(s, a);
    forall j
      ensures s.RelaySession(j) <= t.RelaySession(j)
    {
      CountConcat(s.log.emitted, Emitted(s, a), NewSession, j);
    }
    HastyBy(s, a);
    if a.Accept? {
      Counted(s, a);
    }
  }

  lemma Counted(s: System, a: Action)
    requires Enabled(s, a) && a.Accept?
    ensures var t, begun := Apply(s, a), (a.k, s.RelaySession(a.k) + 1);
            && t.RelaySession(a.k) == begun.1
            && (t.log.hasty == s.log.hasty || t.log.hasty == s.log.hasty + {begun})
            && (t.log.unsettled == s.log.unsettled || t.log.unsettled == s.log.unsettled + {begun})
  {
    hide System.Quiet, System.Settled;
    Append(s.log.emitted, Queued(NewSession, a.k, [], s.relay.port));
  }

  lemma {:induction false} RunBegun(s: System, actions: seq<Action>, k: Key)
    requires IsRun(s, actions) && Begun(s)
    ensures var t := Run(s, actions);
            Begun(t) && SameBeginnings(s, t, k, s.RelaySession(k)) && s.RelaySession(k) <= t.RelaySession(k)
    decreases |actions|
  {
    hide Enabled, Apply, Begun;
    if actions == [] {
    } else {
      var t := Apply(s, actions[0]);
      BegunStep(s, actions[0], k);
      RunBegun(t, actions[1..], k);
    }
  }

  lemma ReachedBegun(s: System)
    requires Reachable(s)
    ensures Begun(s)
  {
    hide IsRun, Run, Initial, Begun;
    var port :| Leads(Initial(port), s);
    var actions :| IsRun(Initial(port), actions) && s == Run(Initial(port), actions);
    HeardNothing(port);
    assert Begun(Initial(port)) by { BegunNothing(Initial(port)); }
    RunBegun(Initial(port), actions, Key(ANY_IP, 0));
  }

  lemma BegunNothing(s: System)
    requires s.log.hasty == {} && s.log.unsettled == {}
    ensures Begun(s)
  {
  }

  /** How the session of an accept began is settled by it, whatever follows. */
  lemma AcceptDecides(s: System, k: Key, id: nat, t: System)
    requires Enabled(s, Accept(k, id)) && Leads(Apply(s, Accept(k, id)), t)
    requires Reachable(s)
    ensures var i := s.RelaySession(k) + 1;
            && ((k, i) in t.log.hasty <==> !s.Quiet(k)) && ((k, i) in t.log.unsettled <==> !s.Settled(k))
            && Reachable(t)
  {
    hide IsRun, Run, Initial, Begun, Enabled, Apply, System.Quiet, System.Settled;
    var u := Apply(s, Accept(k, id));
    ReachedBegun(s);
    BegunStep(s, Accept(k, id), k);
    Entered(s, k, id);
    var actions :| IsRun(u, actions) && t == Run(u, actions);
    RunBegun(u, actions, k);
    var port :| Leads(Initial(port), s);
    Onward(Initial(port), s, Accept(k, id), u);
    LeadsOn(Initial(port), u, t);
  }

  lemma Entered(s: System, k: Key, id: nat)
    requires Enabled(s, Accept(k, id)) && Begun(s)
    ensures var t, i := Apply(s, Accept(k, id)), s.RelaySession(k) + 1;
            && t.RelaySession(k) == i
            && ((k, i) in t.log.hasty <==> !s.Quiet(k)) && ((k, i) in t.log.unsettled <==> !s.Settled(k))
  {
    Counted(s, Accept(k, id));
    hide System.Quiet, System.Settled, System.RelaySession;
  }

  /** Right after an accept: the new session has nothing, and what the client has is of earlier ones. */
  lemma AfterAccept(s: System, k: Key, id: nat, t: System)
    requires Enabled(s, Accept(k, id)) && t == Apply(s, Accept(k, id)) && s.log.lost == []
    requires AllFaithful(s) && Kept(s, Accept(k, id))
    ensures Unread(t, k) && t.log.lost == [] && t.RelaySession(k) == s.RelaySession(k) + 1
    ensures t.Uplink().Transit() == s.Uplink().Transit() && t.ClientSession(k) < t.RelaySession(k)
    ensures t.LiveAt(k) <==> s.LiveAt(k)
    ensures forall silent | s.MayMeet(k, silent) ::
              t.MayMeet(k, silent) && t.ClientSession(k) + 1 < t.RelaySession(k)
  {
    hide Inv, Pipe.Transit, LocalState.Meets, Faithful, System.Downlink, System.Uplink, System.Quiet, System.Settled;
    var out := s.relay.Accept(k, id).1;
    FaithfulAt(s, k);
    FaithfulBounds(k, View(s, k), BooksOf(s));
    Append(s.log.emitted, out[0]);
    MovedOn(s, t, out);
    forall silent | s.MayMeet(k, silent)
      ensures t.MayMeet(k, silent) && t.ClientSession(k) + 1 < t.RelaySession(k)
    {
      MeetsLonger(s.local, s.Downlink().Transit(), out[0], k, silent);
      MeetsCounts(s.local, s.Downlink().Transit(), k, silent);
    }
  }

  lemma MovedOn(s: System, t: System, out: Trace)
    requires Moves(s, t, out, [], [], [])
    ensures t.Downlink().Transit() == s.Downlink().Transit() + out && t.Uplink().Transit() == s.Uplink().Transit()
    ensures t.log.consumed == s.log.consumed && t.log.emitted == s.log.emitted + out
  {
    hide Pipe.Transit, System.Downlink, System.Uplink;
    assert [] + t.Downlink().Transit() == t.Downlink().Transit() && [] + t.Uplink().Transit() == t.Uplink().Transit();
    assert s.Uplink().Transit() + [] == s.Uplink().Transit() && s.log.consumed + [] == s.log.consumed;
  }

  lemma FaithfulBounds(k: Key, v: KeyView, t: Books)
    requires Faithful(k, v, t)
    ensures v.atRelay == v.atClient + v.news && forall x: nat | x > v.atClient :: On(t.read, k, x) == []
  {
  }

  /** Where an address is accepted that is not quiet, its peer can be sent what is not its own. */
  lemma HasteHarms(s: System, k: Key, id: nat) returns (t: System)
    requires Enabled(s, Accept(k, id)) && s.log.lost == [] && !s.Quiet(k)
    requires Reachable(s)
    ensures LeadsAlone(Apply(s, Accept(k, id)), t) && Unfaithful(t, k, s.RelaySession(k) + 1)
  {
    hide Inv, Reachable, LeadsAlone, AllFaithful, Unfaithful, Unread, Enabled, Apply, Pipe.Transit,
         System.MayMeet, System.LiveAt, Ahead;
    Reached(s);
    ActionKeeps(s, Accept(k, id));
    var u := Apply(s, Accept(k, id));
    AfterAccept(s, k, id, u);
    AloneNowhere(u);
    if Ahead(u.Uplink().Transit(), k) != [] {
      t := OldDataArrives(u, u, k);
    } else {
      var w := StrayWritten(u, k, true);
      t := OldDataArrives(u, w, k);
    }
  }

  /**
   The premise of `LocalToExternal` is exact, accept by accept: an address is quiet when it is accepted
   if and only if, however the run goes on, its new peer is sent a prefix of what the local
   service writes for the new session.
   */
  lemma QuietIsExact(s: System, k: Key, id: nat)
    requires Enabled(s, Accept(k, id)) && s.log.lost == []
    requires Reachable(s)
    ensures var u, i := Apply(s, Accept(k, id)), s.RelaySession(k) + 1;
            s.Quiet(k) <==>
            forall t | Leads(u, t) && t.log.lost == [] :: On(t.log.externalSent, k, i) <= On(t.log.localRead, k, i)
  {
    hide Reachable, Leads, LeadsAlone, Enabled, Apply, System.Quiet, System.Settled, On, System.RelaySession;
    var u, i := Apply(s, Accept(k, id)), s.RelaySession(k) + 1;
    if s.Quiet(k) {
      forall t | Leads(u, t) && t.log.lost == []
        ensures On(t.log.externalSent, k, i) <= On(t.log.localRead, k, i)
      {
        AcceptDecides(s, k, id, t);
        LocalToExternal(t, k, i);
      }
    } else {
      var t := HasteHarms(s, k, id);
      AloneLeads(u, t);
    }
  }

  /** And it takes no further accept to see that an address was not quiet. */
  lemma HarmNeedsNoAccept(s: System, k: Key, id: nat)
    requires Enabled(s, Accept(k, id)) && s.log.lost == []
    requires Reachable(s)
    ensures var u, i := Apply(s, Accept(k, id)), s.RelaySession(k) + 1;
            !s.Quiet(k) <==> exists t :: LeadsAlone(u, t) && Unfaithful(t, k, i)
  {
    hide Reachable, Leads, LeadsAlone, Enabled, Apply, System.Quiet, System.Settled, On, System.RelaySession;
    var u, i := Apply(s, Accept(k, id)), s.RelaySession(k) + 1;
    if s.Quiet(k) {
      forall t | LeadsAlone(u, t)
        ensures !Unfaithful(t, k, i)
      {
        AloneLeads(u, t);
        QuietIsExact(s, k, id);
      }
    } else {
      var t := HasteHarms(s, k, id);
    }
  }

  /** Where an address is accepted that is not settled, something under way is not the new session's. */
  lemma UnsettledMiscounts(s: System, k: Key, id: nat) returns (t: System)
    requires Enabled(s, Accept(k, id)) && s.log.lost == [] && !s.Settled(k)
    requires Reachable(s)
    ensures LeadsAlone(Apply(s, Accept(k, id)), t) && t.log.lost == []
    ensures k in t.relay.table && t.RelaySession(k) == s.RelaySession(k) + 1 && !InFull(t, k)
  {
    hide Inv, Reachable, LeadsAlone, AllFaithful, Enabled, Apply, Pipe.Transit, System.MayMeet, System.LiveAt,
         System.RelaySession, System.Uplink;
    Reached(s);
    ActionKeeps(s, Accept(k, id));
    var u := Apply(s, Accept(k, id));
    AfterAccept(s, k, id, u);
    AloneNowhere(u);
    t := u;
    if KeyBytes(u.Uplink().Transit(), k) == [] {
      t := StrayWritten(u, k, false);
    }
    assert On(t.log.localRead, k, t.RelaySession(k)) == [];
  }

  /**
   The premise of `LocalToExternalInFull` is exact too: an address is settled when it is accepted if and only if
   in every continuation, while the relay has the new session in its table, exactly the bytes read for it
   are sent, pending or under way.
   */
  lemma SettledIsExact(s: System, k: Key, id: nat)
    requires Enabled(s, Accept(k, id)) && s.log.lost == []
    requires Reachable(s)
    ensures var u, i := Apply(s, Accept(k, id)), s.RelaySession(k) + 1;
            s.Settled(k) <==>
            forall t | Leads(u, t) && t.log.lost == [] && k in t.relay.table && t.RelaySession(k) == i :: InFull(t, k)
  {
    hide Reachable, Leads, LeadsAlone, Enabled, Apply, System.Quiet, System.Settled, InFull, System.RelaySession;
    var u, i := Apply(s, Accept(k, id)), s.RelaySession(k) + 1;
    if s.Settled(k) {
      forall t | Leads(u, t) && t.log.lost == [] && k in t.relay.table && t.RelaySession(k) == i
        ensures InFull(t, k)
      {
        AcceptDecides(s, k, id, t);
        LocalToExternalInFull(t, k);
      }
    } else {
      var t := UnsettledMiscounts(s, k, id);
      AloneLeads(u, t);
    }
  }
}
