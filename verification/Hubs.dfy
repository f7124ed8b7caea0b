/**
 Any number of relays behind one client: their threads fill the manager's one inbound queue while
 the manager answers the client and forwards. What comes out is in order, relay by relay.
 */
module Hubs {
  import opened Wire
  import opened Messages
  import opened Framing
  import opened Sessions
  import opened Pipes
  import opened RelayStates
  import opened ManagerStates
  import opened ManagerProofs

  /** `announcing` is the relay whose thread runs while its OPEN_RELAY is not queued yet. */
  datatype Hub = Hub(
    manager: ManagerState, running: set<Port>, announcing: Option<Port>, inbound: Trace, sent: Octets,
    out: seq<Message>,  // history: the frames queued for the client
    puts: Trace)        // history: what the relays have put on the inbound queue
  {
    function Opening(p: Port): Message { RelayMessage(OpenRelay, p) }

    // ------------------------------------------------------------- steps

    /** `new_relay_thread.start()`. */
    function Begin(p: Port): Hub {
      this.(manager := manager.(created := manager.created + 1, relays := manager.relays + {p}),
            running := running + {p}, announcing := Some(p))
    }

    function Announce(p: Port): Hub {
      this.(manager := manager.AddToSendq(Frame(Opening(p))), announcing := None, out := out + [Opening(p)])
    }

    function Put(q: Queued): Hub { this.(inbound := inbound + [q], puts := puts + [q]) }

    function Forward(): Hub
      requires inbound != [] && Sendable(inbound[0])
    {
      this.(manager := manager.Forward(inbound[0]), inbound := inbound[1..], out := out + [ToWire(inbound[0])])
    }

    /** Any message but a CREATE_RELAY that finds a port. */
    function Handle(m: Message): Hub
      requires PortsInRange(m)
    {
      this.(manager := manager.Process(m, None).0, out := out + Answered(manager.relays, m, None))
    }

    /** A wrong version at the head of the receive buffer. */
    function Reject(): Hub {
      this.(manager := manager.AddToSendq(Frame(BAD_VERSION)).(closing := true), out := out + [BAD_VERSION])
    }

    function Write(n: nat): Hub
      requires n <= |manager.sendq|
    {
      this.(manager := manager.WriteReady(Sent(n)), sent := sent + manager.sendq[..n])
    }

    // --------------------------------------------------------- invariant

    /** The octets sent and pending are the frames of the history. */
    predicate Framed() { AllFrameable(out) && sent + manager.sendq == Frames(out) }

    predicate Introduced() { forall p | p in running :: Opening(p) in out || announcing == Some(p) }

    predicate Waiting() { forall i | 0 <= i < |inbound| :: Sendable(inbound[i]) && inbound[i].relayPort in running }

    predicate Ordered() {
      Framed() && Announced(out) && Introduced() && Waiting() && FromWires(out) + inbound == puts
    }
  }

  /** Every NEW, DATA and CLOSE comes after an OPEN_RELAY for its relay. */
  predicate Announced(ms: seq<Message>) {
    forall i | 0 <= i < |ms| :: AnnouncedAt(ms, i)
  }

  predicate AnnouncedAt(ms: seq<Message>, i: nat)
    requires i < |ms|
  {
    IsSessionMessage(ms[i]) ==> RelayMessage(OpenRelay, ms[i].relayPort) in ms[..i]
  }

  datatype Action =
    | Begin(p: Port) | Announce | Put(q: Queued) | Forward | Handle(m: Message) | Reject | Write(n: nat)

  /** The manager is one thread: between Begin and Announce only the relays and the kernel act. */
  predicate Enabled(h: Hub, a: Action) {
    match a
    case Begin(_) => h.announcing == None
    case Announce => h.announcing != None
    case Put(q) => Sendable(q) && q.relayPort in h.running
    case Forward => h.announcing == None && h.inbound != [] && Sendable(h.inbound[0])
    case Handle(m) => h.announcing == None && PortsInRange(m)
    case Reject => h.announcing == None
    case Write(n) => h.announcing == None && n <= |h.manager.sendq|
  }

  function Apply(h: Hub, a: Action): Hub
    requires Enabled(h, a)
  {
    match a
    case Begin(p) => h.Begin(p)
    case Announce => h.Announce(h.announcing.value)
    case Put(q) => h.Put(q)
    case Forward => h.Forward()
    case Handle(m) => h.Handle(m)
    case Reject => h.Reject()
    case Write(n) => h.Write(n)
  }

  predicate IsRun(h: Hub, actions: seq<Action>)
    decreases |actions|
  {
    actions == [] || (Enabled(h, actions[0]) && IsRun(Apply(h, actions[0]), actions[1..]))
  }

  function Run(h: Hub, actions: seq<Action>): Hub
    requires IsRun(h, actions)
    decreases |actions|
  {
    if actions == [] then h else Run(Apply(h, actions[0]), actions[1..])
  }

  function Initial(): Hub { Hub(Connected(), {}, None, [], [], [], []) }

  /** Creating a relay is these two steps with nothing else of the manager in between. */
  lemma CreateIsBeginThenAnnounce(h: Hub, m: Message, p: Port)
    requires m.kind == CreateRelay
    ensures h.manager.Process(m, Some(p)) == (h.Begin(p).Announce(p).manager, Start(p))
  {
  }

  lemma AnnouncedOthers(ms: seq<Message>, more: seq<Message>)
    requires Announced(ms) && forall i | 0 <= i < |more| :: !IsSessionMessage(more[i])
    ensures Announced(ms + more)
  {
    hide IsSessionMessage;
    forall i | 0 <= i < |ms + more|
      ensures AnnouncedAt(ms + more, i)
    {
      if i < |ms| {
        assert AnnouncedAt(ms, i);
        assert (ms + more)[..i] == ms[..i];
      }
    }
  }

  lemma FramedMore(h: Hub, more: seq<Message>, t: Hub)
    requires h.Framed() && AllFrameable(more)
    requires t.out == h.out + more && t.manager.sendq == h.manager.sendq + Frames(more) && t.sent == h.sent
    ensures t.Framed()
  {
    hide Frameable, Frames;
    FramesAppend(h.out, more);
    assert t.sent + t.manager.sendq == h.sent + h.manager.sendq + Frames(more);
  }

  lemma IntroducedMore(h: Hub, more: seq<Message>, t: Hub)
    requires h.Introduced() && t.out == h.out + more && t.running == h.running && h.announcing == None
    ensures t.Introduced()
  {
    forall p | p in t.running
      ensures h.Opening(p) in t.out
    {
      assert h.Opening(p) in h.out;
    }
  }

  /** Queueing frames that belong to no session changes nothing for the sessions. */
  lemma OthersKeep(h: Hub, more: seq<Message>, t: Hub)
    requires AllFrameable(more) && forall i | 0 <= i < |more| :: !IsSessionMessage(more[i])
    requires t.out == h.out + more && t.manager.sendq == h.manager.sendq + Frames(more)
    requires t.sent == h.sent && t.inbound == h.inbound && t.puts == h.puts && t.running == h.running
    requires t.Introduced()
    requires h.Ordered()
    ensures t.Ordered()
  {
    FramedMore(h, more, t);
    hide AllFrameable, IsSessionMessage, FromWires, Frames, Announced, Hub.Introduced, Hub.Framed;
    FromWiresConcat(h.out, more);
    OnlyOthers(more);
    AnnouncedOthers(h.out, more);
    assert FromWires(h.out) + [] == FromWires(h.out);
  }

  lemma WaitingLess(h: Hub, t: Hub)
    requires h.Waiting() && h.inbound != [] && t.inbound == h.inbound[1..] && t.running == h.running
    ensures t.Waiting()
  {
    assert forall i | 0 <= i < |t.inbound| :: t.inbound[i] == h.inbound[i + 1];
  }

  lemma ForwardParts(h: Hub, q: Queued, m: Message)
    requires h.inbound != [] && q == h.inbound[0] && Sendable(q) && m == ToWire(q)
    ensures var t := h.Forward();
            && t.out == h.out + [m] && t.manager.sendq == h.manager.sendq + Frame(m) && t.sent == h.sent
            && t.inbound == h.inbound[1..] && t.running == h.running && t.announcing == h.announcing && t.puts == h.puts
  {
  }

  lemma ForwardKeeps(h: Hub)
    requires h.Ordered() && h.announcing == None && h.inbound != []
    ensures Sendable(h.inbound[0]) && h.Forward().Ordered()
  {
    var q, t := h.inbound[0], h.Forward();
    var m := ToWire(q);
    assert h.Opening(q.relayPort) in h.out;
    hide AllFrameable, IsSessionMessage, Frames, FromWire, ToWire, FrameOf, Announced, FromWires, Hub.Forward;
    hide Hub.Introduced, Hub.Framed, Hub.Waiting;
    ForwardParts(h, q, m);
    ToWireFrameable(q);
    OneFrame(m);
    FramedMore(h, [m], t);
    IntroducedMore(h, [m], t);
    ForwardAnnounced(h, q);
    WaitingLess(h, t);
    FromWiresAppend(h.out, m);
    MoveAcross(FromWires(h.out), h.inbound);
  }

  lemma OneFrame(m: Message)
    requires Frameable(m)
    ensures AllFrameable([m]) && Frames([m]) == Frame(m)
  {
    hide Frame, Encodable, Carried;
    assert [m][1..] == [] && Frame(m) + [] == Frame(m);
  }

  lemma ForwardAnnounced(h: Hub, q: Queued)
    requires Announced(h.out) && h.Opening(q.relayPort) in h.out
    ensures Announced(h.out + [ToWire(q)])
  {
    hide IsSessionMessage;
    var ms := h.out + [ToWire(q)];
    forall i | 0 <= i < |ms|
      ensures AnnouncedAt(ms, i)
    {
      assert ms[..i] == h.out[..i];
      if i < |h.out| {
        assert AnnouncedAt(h.out, i);
      } else {
        assert h.out[..i] == h.out;
      }
    }
  }

  lemma StepKeeps(h: Hub, a: Action)
    requires h.Ordered() && Enabled(h, a)
    ensures Apply(h, a).Ordered()
  {
    hide Frameable, IsSessionMessage, Frames, FromWires, Announced;
    match a {
      case Begin(p) =>
      case Announce =>
        var m := h.Opening(h.announcing.value);
        OpeningFrameable(h.announcing.value);
        OneFrame(m);
        NowIntroduced(h);
        OthersKeep(h, [m], Apply(h, a));
      case Put(q) =>
        assert FromWires(h.out) + (h.inbound + [q]) == FromWires(h.out) + h.inbound + [q];
      case Forward =>
        ForwardKeeps(h);
      case Handle(m) =>
        ProcessAnswers(h.manager, m, None);
        IntroducedMore(h, Answered(h.manager.relays, m, None), Apply(h, a));
        OthersKeep(h, Answered(h.manager.relays, m, None), Apply(h, a));
      case Reject =>
        VersionFrameable();
        OneFrame(BAD_VERSION);
        IntroducedMore(h, [BAD_VERSION], Apply(h, a));
        OthersKeep(h, [BAD_VERSION], Apply(h, a));
      case Write(n) =>
        assert h.sent + h.manager.sendq[..n] + h.manager.sendq[n..] == h.sent + h.manager.sendq;
    }
  }

  lemma NowIntroduced(h: Hub)
    requires h.Introduced() && h.announcing != None
    ensures h.Announce(h.announcing.value).Introduced()
  {
    var t := h.Announce(h.announcing.value);
    forall p | p in t.running
      ensures h.Opening(p) in t.out
    {
      if h.announcing == Some(p) {
        assert t.out[|h.out|] == h.Opening(p);
      } else {
        assert h.Opening(p) in h.out;
      }
    }
  }

  lemma OpeningFrameable(p: Port)
    ensures Frameable(RelayMessage(OpenRelay, p)) && !IsSessionMessage(RelayMessage(OpenRelay, p))
  {
  }

  lemma VersionFrameable()
    ensures Frameable(BAD_VERSION) && !IsSessionMessage(BAD_VERSION)
  {
  }

  /** A frame of another version is answered by Reject, and does nothing else but stay in the buffer. */
  lemma DecodingRejects(h: Hub, allot: nat -> Option<Port>)
    requires h.manager.recvq != [] && Deserialize(h.manager.recvq).Failed?
             && Deserialize(h.manager.recvq).error.BadVersion?
    ensures h.manager.DecodeOne(allot) == (h.Reject().manager, Nothing, Again)
  {
    hide Deserialize;
  }

  lemma {:induction false} RunKeeps(h: Hub, actions: seq<Action>)
    requires h.Ordered() && IsRun(h, actions)
    ensures Run(h, actions).Ordered()
    decreases |actions|
  {
    hide Hub.Ordered, Apply, Enabled;
    if actions == [] {
    } else {
      StepKeeps(h, actions[0]);
      RunKeeps(Apply(h, actions[0]), actions[1..]);
    }
  }

  /**
   In every state of every run, the octets sent and pending read as frames of which every NEW, DATA
   and CLOSE follows an OPEN_RELAY for its relay, and each relay's messages are in the order, and
   all there, in which that relay put them on the queue.
   */
  lemma OutputInOrder(actions: seq<Action>, p: Port)
    requires IsRun(Initial(), actions)
    ensures var h := Run(Initial(), actions);
            var (ms, left) := Drain(h.sent + h.manager.sendq);
            && left == [] && Announced(ms)
            && Of(FromWires(ms), p) + Of(h.inbound, p) == Of(h.puts, p)
  {
    hide Frameable, Frames, FromWires, Announced, Drain, Run, IsRun;
    var h := Run(Initial(), actions);
    InitialOrdered();
    RunKeeps(Initial(), actions);
    DrainFrames(h.out, []);
    assert Frames(h.out) + [] == Frames(h.out);
    DrainNothing();
    assert h.out + [] == h.out;
    OfConcat(FromWires(h.out), h.inbound, p);
  }

  lemma InitialOrdered()
    ensures Initial().Ordered()
  {
  }
}
