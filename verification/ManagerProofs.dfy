/** The manager over all its runs: write arming, its two drains, and the order of what it sends. */
module ManagerProofs {
  import opened Wire
  import opened Messages
  import opened MessageProofs
  import opened Framing
  import opened Sessions
  import opened Pipes
  import opened RelayStates
  import opened ManagerStates

  // ---------------------------------------------------------- write arming

  /** What its loop does: a callback for the client's socket, some of the receive loop, an inbound drain. */
  datatype Event =
    | Client(write: bool, read: bool, sent: SendResult, got: RecvResult)
    | Drained(turns: nat, allot: nat -> Option<Port>)
    | Forwarded(queue: Trace)

  predicate Enabled(s: ManagerState, e: Event) {
    match e
    case Client(_, _, sent, _) => sent.Sent? ==> sent.n <= |s.sendq|
    case Drained(_, _) => true
    case Forwarded(queue) => AllSendable(queue)
  }

  function Step(s: ManagerState, e: Event): ManagerState
    requires Enabled(s, e)
  {
    match e
    case Client(write, read, sent, got) => s.HandleClient(write, read, sent, got)
    case Drained(turns, allot) => s.Receive(turns, allot).0
    case Forwarded(queue) => s.ForwardAll(queue, INBOUND_BATCH).0
  }

  predicate IsRun(s: ManagerState, es: seq<Event>)
    decreases |es|
  {
    es == [] || (Enabled(s, es[0]) && IsRun(Step(s, es[0]), es[1..]))
  }

  function Run(s: ManagerState, es: seq<Event>): ManagerState
    requires IsRun(s, es)
    decreases |es|
  {
    if es == [] then s else Run(Step(s, es[0]), es[1..])
  }

  lemma AddKeepsArming(s: ManagerState, data: Octets)
    requires s.Arming()
    ensures s.AddToSendq(data).Arming()
  {
  }

  lemma DecodeKeepsArming(s: ManagerState, allot: nat -> Option<Port>)
    requires s.recvq != [] && s.Arming()
    ensures s.DecodeOne(allot).0.Arming()
  {
    hide Deserialize, Frame;
  }

  lemma {:induction false} ReceiveKeepsArming(s: ManagerState, turns: nat, allot: nat -> Option<Port>)
    requires s.Arming()
    ensures s.Receive(turns, allot).0.Arming()
    decreases turns
  {
    hide ManagerState.DecodeOne, ManagerState.Arming;
    if s.recvq == [] || turns == 0 {
    } else {
      DecodeKeepsArming(s, allot);
      ReceiveKeepsArming(s.DecodeOne(allot).0, turns - 1, allot);
    }
  }

  lemma {:induction false} ForwardKeepsArming(s: ManagerState, queue: Trace, turns: nat)
    requires s.Arming() && AllSendable(queue)
    ensures s.ForwardAll(queue, turns).0.Arming()
    decreases turns
  {
    hide ManagerState.Arming, FrameOf;
    if turns == 0 || s.closing || queue == [] {
    } else {
      AddKeepsArming(s, FrameOf(queue[0]));
      ForwardKeepsArming(s.Forward(queue[0]), queue[1..], turns - 1);
    }
  }

  /** In every state of every run the flag, the registered mask and pending octets say the same. */
  lemma {:induction false} ArmedThroughout(s: ManagerState, es: seq<Event>)
    requires s.Arming() && IsRun(s, es)
    ensures Run(s, es).Arming()
    decreases |es|
  {
    hide ManagerState.Receive, ManagerState.ForwardAll;
    if es == [] {
    } else {
      match es[0] {
        case Client(_, _, _, _) =>
        case Drained(turns, allot) => ReceiveKeepsArming(s, turns, allot);
        case Forwarded(queue) => ForwardKeepsArming(s, queue, INBOUND_BATCH);
      }
      ArmedThroughout(Step(s, es[0]), es[1..]);
    }
  }

  // --------------------------------------------- does the receive loop end

  /** A frame of another protocol version is at the head. */
  predicate BadVersionAhead(buf: Octets) {
    Deserialize(buf).Failed? && Deserialize(buf).error.BadVersion?
  }

  /** The relays after a message is handled, and how many have been asked for. */
  function RelaysAfter(relays: set<Port>, created: nat, m: Message, allot: nat -> Option<Port>): (set<Port>, nat) {
    match m.kind
    case CreateRelay => (if allot(created).Some? then relays + {allot(created).value} else relays, created + 1)
    case DestroyRelay => (if m.relayPort in relays then relays - {m.relayPort} else relays, created)
    case _ => (relays, created)
  }

  /** Some message names, to close a session of it, a relay that does not exist when its turn comes. */
  predicate Raises(relays: set<Port>, created: nat, ms: seq<Message>, allot: nat -> Option<Port>)
    decreases |ms|
  {
    && ms != []
    && (|| (ms[0].kind == CloseConnection && ms[0].relayPort !in relays)
        || Raises(RelaysAfter(relays, created, ms[0], allot).0, RelaysAfter(relays, created, ms[0], allot).1,
           ms[1..], allot))
  }

  predicate Stuck(s: ManagerState, allot: nat -> Option<Port>) {
    BadVersionAhead(Drain(s.recvq).1) && !Raises(s.relays, s.created, Drain(s.recvq).0, allot)
  }

  lemma ProcessRelays(s: ManagerState, m: Message, allot: nat -> Option<Port>)
    requires PortsInRange(m)
    ensures var (t, e) := s.Process(m, allot(s.created));
            && (t.relays, t.created) == RelaysAfter(s.relays, s.created, m, allot) && t.recvq == s.recvq
            && (e == Raised <==> m.kind == CloseConnection && m.relayPort !in s.relays)
  {
    hide Frame;
  }

  /** One iteration on a complete frame. */
  lemma DecodedNext(s: ManagerState, allot: nat -> Option<Port>)
    requires Deserialize(s.recvq).Got?
    ensures s.recvq != []
    ensures var r := Deserialize(s.recvq);
            var (t, e, c) := s.DecodeOne(allot);
            && t.recvq == r.rest
            && (t.relays, t.created) == RelaysAfter(s.relays, s.created, r.msg, allot)
            && (c == Leave <==> r.msg.kind == CloseConnection && r.msg.relayPort !in s.relays)
  {
    hide Deserialize, ManagerState.Process;
    var r := Deserialize(s.recvq);
    ProcessRelays(s.(recvq := r.rest), r.msg, allot);
  }

  lemma {:induction false} EndsUnlessStuck(s: ManagerState, turns: nat, allot: nat -> Option<Port>)
    requires !Stuck(s, allot) && turns >= |s.recvq|
    ensures s.Receive(turns, allot).2
    decreases |s.recvq|
  {
    hide Deserialize, ManagerState.DecodeOne, RelaysAfter;
    if s.recvq != [] && Deserialize(s.recvq).Got? {
      DecodedNext(s, allot);
      var (t, _, c) := s.DecodeOne(allot);
      if c == Again {
        NotStuckNext(s, allot);
        EndsUnlessStuck(t, turns - 1, allot);
      }
    } else if s.recvq != [] {
      FailedTurn(s, allot);
    }
  }

  lemma FailedTurn(s: ManagerState, allot: nat -> Option<Port>)
    requires s.recvq != [] && Deserialize(s.recvq).Failed?
    ensures s.DecodeOne(allot).2 == (if BadVersionAhead(s.recvq) then Again else Leave)
    ensures BadVersionAhead(s.recvq) ==>
              && s.DecodeOne(allot).0.recvq == s.recvq
              && s.DecodeOne(allot).0.sendq == s.sendq + Frame(BAD_VERSION)
  {
    hide Deserialize, Frame;
  }

  /** Being stuck does not depend on when it is asked. */
  lemma NotStuckNext(s: ManagerState, allot: nat -> Option<Port>)
    requires s.recvq != [] && Deserialize(s.recvq).Got? && s.DecodeOne(allot).2 == Again
    ensures Stuck(s, allot) <==> Stuck(s.DecodeOne(allot).0, allot)
    ensures Drain(s.recvq).1 == Drain(s.DecodeOne(allot).0.recvq).1
    ensures |Drain(s.recvq).0| == 1 + |Drain(s.DecodeOne(allot).0.recvq).0|
  {
    hide Deserialize, ManagerState.DecodeOne, RelaysAfter;
    DecodedNext(s, allot);
    var ms := Drain(s.recvq).0;
    assert ms[0] == Deserialize(s.recvq).msg && ms[1..] == Drain(Deserialize(s.recvq).rest).0;
  }

  function Repeated(data: Octets, n: nat): (r: Octets)
    ensures |r| == n * |data|
  {
    if n == 0 then [] else data + Repeated(data, n - 1)
  }

  /** Once at the head, a wrong-version frame stays there, and each turn queues one more ERROR. */
  lemma {:induction false} StuckGrows(s: ManagerState, n: nat, allot: nat -> Option<Port>)
    requires BadVersionAhead(s.recvq)
    ensures var (t, _, over) := s.Receive(n, allot);
            !over && t.recvq == s.recvq && t.sendq == s.sendq + Repeated(Frame(BAD_VERSION), n)
    decreases n
  {
    hide ManagerState.DecodeOne, Frame;
    if n == 0 {
      assert s.sendq + [] == s.sendq;
    } else {
      FailedTurn(s, allot);
      StuckGrows(s.DecodeOne(allot).0, n - 1, allot);
      assert s.sendq + Frame(BAD_VERSION) + Repeated(Frame(BAD_VERSION), n - 1)
          == s.sendq + Repeated(Frame(BAD_VERSION), n);
    }
  }

  /** From a stuck buffer the loop runs forever: never over, the buffer fixed, the output growing. */
  lemma {:induction false} NeverEnds(s: ManagerState, n: nat, allot: nat -> Option<Port>)
    requires Stuck(s, allot)
    ensures var k := |Drain(s.recvq).0|;
            var (t, _, over) := s.Receive(k + n, allot);
            && !over && t.recvq == Drain(s.recvq).1
            && t.sendq == s.Receive(k, allot).0.sendq + Repeated(Frame(BAD_VERSION), n)
            && |t.sendq| == |s.Receive(k, allot).0.sendq| + 4 * n
    decreases |s.recvq|
  {
    hide Deserialize, ManagerState.DecodeOne, Frame, RelaysAfter;
    assert |Frame(BAD_VERSION)| == 4 by { BadVersionFrame(); }
    if Deserialize(s.recvq).Got? {
      DecodedNext(s, allot);
      var ms := Drain(s.recvq).0;
      assert ms[0] == Deserialize(s.recvq).msg;
      NotStuckNext(s, allot);
      NeverEnds(s.DecodeOne(allot).0, n, allot);
    } else {
      StuckGrows(s, n, allot);
    }
  }

  lemma BadVersionFrame()
    ensures |Frame(BAD_VERSION)| == 4
  {
  }

  lemma {:induction false} ShorterNotOver(s: ManagerState, n: nat, m: nat, allot: nat -> Option<Port>)
    requires n <= m && !s.Receive(m, allot).2
    ensures !s.Receive(n, allot).2
    decreases n
  {
    hide ManagerState.DecodeOne;
    if n == 0 {
    } else {
      ShorterNotOver(s.DecodeOne(allot).0, n - 1, m - 1, allot);
    }
  }

  /**
   The receive loop ends if and only if no wrong-version frame reaches the head of the buffer:
   none is there, or an earlier message raises first. It then ends within |recvq| iterations.
   */
  lemma ReceiveEndsIff(s: ManagerState, allot: nat -> Option<Port>)
    ensures (exists turns :: s.Receive(turns, allot).2) <==> !Stuck(s, allot)
    ensures !Stuck(s, allot) ==> s.Receive(|s.recvq|, allot).2
  {
    hide Stuck, ManagerState.Receive, Drain;
    if Stuck(s, allot) {
      forall turns
        ensures !s.Receive(turns, allot).2
      {
        NeverEnds(s, turns, allot);
        ShorterNotOver(s, turns, |Drain(s.recvq).0| + turns, allot);
      }
    } else {
      EndsUnlessStuck(s, |s.recvq|, allot);
    }
  }

  /** Behind frames that do not raise, the header of another version, whatever follows it, gets the loop stuck. */
  lemma WrongVersionSticks(s: ManagerState, ms: seq<Message>, m: Message, rest: Octets, allot: nat -> Option<Port>)
    requires AllFrameable(ms) && !Raises(s.relays, s.created, ms, allot)
    requires 0 <= m.version < 0x100 && m.version != VERSION && s.recvq == Frames(ms) + (Header(m) + rest)
    ensures Stuck(s, allot) && forall turns :: !s.Receive(turns, allot).2
  {
    hide Deserialize, Raises, ManagerState.Receive, Carried, Encodable;
    HeaderParses(m, rest);
    DrainFrames(ms, Header(m) + rest);
    assert ms + [] == ms;
    ReceiveEndsIff(s, allot);
  }

  // --------------------------------------------------- exactly-once decoding

  /** The messages that at most `turns` iterations of the receive loop hand to `process_msg`. */
  function Handed(s: ManagerState, turns: nat, allot: nat -> Option<Port>): (r: seq<Message>)
    ensures forall m | m in r :: PortsInRange(m)
    decreases turns
  {
    if s.recvq == [] || turns == 0 || Deserialize(s.recvq).Failed? then []
    else
      var (t, _, c) := s.DecodeOne(allot);
      [Deserialize(s.recvq).msg] + if c == Leave then [] else Handed(t, turns - 1, allot)
  }

  /** Handling a list of messages, one after another, up to one that raises. */
  function ProcessAll(s: ManagerState, ms: seq<Message>, allot: nat -> Option<Port>): (ManagerState, seq<Effect>)
    requires forall m | m in ms :: PortsInRange(m)
    decreases |ms|
  {
    if ms == [] then (s, [])
    else
      var (t, e) := s.Process(ms[0], allot(s.created));
      if e == Raised then (t, [e])
      else var (last, es) := ProcessAll(t, ms[1..], allot); (last, [e] + es)
  }

  /** `recvq` and what is still to come are the frames of `ms`. */
  predicate Holds(s: ManagerState, unread: Octets, ms: seq<Message>)
    requires AllFrameable(ms)
  {
    s.recvq + unread == Frames(ms)
  }

  /** A complete frame at the head of the buffer is the next message sent. */
  lemma HeadIsNext(buf: Octets, unread: Octets, ms: seq<Message>)
    requires AllFrameable(ms) && buf + unread == Frames(ms) && Deserialize(buf).Got?
    ensures ms != [] && Deserialize(buf).msg == ms[0] && Deserialize(buf).rest + unread == Frames(ms[1..])
  {
    hide Deserialize, Frame, Carried, Encodable;
    GotSome(buf);
    assert |Frames(ms)| > 0;
    var f := Frame(ms[0]);
    TwoSplits(buf, unread, f, Frames(ms[1..]));
    if |buf| < |f| {
      PrefixFree(ms[0], |buf|);
      assert false;
    } else {
      RoundTrip(ms[0], buf[|f|..]);
    }
  }

  lemma TwoSplits<T>(a: seq<T>, b: seq<T>, c: seq<T>, d: seq<T>)
    requires a + b == c + d
    ensures |a| <= |c| ==> a == c[..|a|]
    ensures |c| <= |a| ==> a == c + a[|c|..] && a[|c|..] + b == d
  {
    assert (a + b)[..|a|] == a && (c + d)[..|c|] == c;
    assert (a + b)[|c|..] == d && (c + d)[..|a|] == a;
  }

  lemma GotSome(buf: Octets)
    requires Deserialize(buf).Got?
    ensures buf != []
  {
  }

  /**
   One receive loop on a valid stream: what is handed on is the next messages, whatever the
   handling of them does, and the buffer holds the rest; even when the last one handed on raised.
   */
  lemma {:induction false} LoopTakesNext(s: ManagerState, turns: nat, allot: nat -> Option<Port>, ms: seq<Message>,
      unread: Octets)
    requires AllFrameable(ms) && Holds(s, unread, ms)
    ensures var got, t := Handed(s, turns, allot), s.Receive(turns, allot).0;
            got <= ms && Holds(t, unread, ms[|got|..])
    decreases turns
  {
    hide Deserialize, Frame, Carried, Encodable, ManagerState.DecodeOne, Frames;
    assert ms[0..] == ms;
    if s.recvq != [] && turns > 0 {
      if Deserialize(s.recvq).Got? {
        HeadIsNext(s.recvq, unread, ms);
        DecodedNext(s, allot);
        var (t, _, c) := s.DecodeOne(allot);
        if c == Again {
          LoopTakesNext(t, turns - 1, allot, ms[1..], unread);
          var got := Handed(t, turns - 1, allot);
          assert [ms[0]] + got <= ms;
          assert ms[1..][|got|..] == ms[|got| + 1..];
        }
      } else {
        CutNotStuck(s.recvq, unread, ms);
        FailedTurn(s, allot);
        FailedTurnKeeps(s, allot);
      }
    }
  }

  /** A valid stream never shows a wrong version, however it is cut. */
  lemma CutNotStuck(buf: Octets, unread: Octets, ms: seq<Message>)
    requires AllFrameable(ms) && buf + unread == Frames(ms)
    ensures !BadVersionAhead(buf)
  {
    hide DeserializeBody;
    if |buf| >= 3 {
      assert buf[..3] == Frames(ms)[..3];
      assert Frames(ms)[..3] == Header(ms[0]);
      assert buf[2] == Header(ms[0])[2];
    }
  }

  lemma FailedTurnKeeps(s: ManagerState, allot: nat -> Option<Port>)
    requires s.recvq != [] && Deserialize(s.recvq).Failed? && !BadVersionAhead(s.recvq)
    ensures s.DecodeOne(allot).0 == s
  {
    hide Deserialize, Frame;
  }

  /** One turn of the main loop: a receive, and some iterations of the receive loop. */
  datatype Round = Round(chunk: Octets, turns: nat)

  function Chunks(rounds: seq<Round>): Octets {
    if rounds == [] then [] else rounds[0].chunk + Chunks(rounds[1..])
  }

  /** The state after some rounds, and all that was handed on in them. */
  function Rounds(s: ManagerState, rounds: seq<Round>, allot: nat -> Option<Port>): (ManagerState, seq<Message>)
    decreases |rounds|
  {
    if rounds == [] then (s, [])
    else
      var r := s.ReadReady(Received(rounds[0].chunk));
      var (last, more) := Rounds(r.Receive(rounds[0].turns, allot).0, rounds[1..], allot);
      (last, Handed(r, rounds[0].turns, allot) + more)
  }

  /**
   Exactly once, in every state: the messages handed on, followed by those still in the buffer and
   the unread octets, are the messages sent; raising handlers included.
   */
  lemma {:induction false} ExactlyOnce(
      s: ManagerState, rounds: seq<Round>, allot: nat -> Option<Port>, ms: seq<Message>, unread: Octets)
    requires AllFrameable(ms) && s.recvq + Chunks(rounds) + unread == Frames(ms)
    ensures var (t, got) := Rounds(s, rounds, allot);
            && got <= ms && t.recvq + unread == Frames(ms[|got|..])
            && got + Drain(t.recvq + unread).0 == ms && Drain(t.recvq + unread).1 == []
    decreases |rounds|
  {
    hide Deserialize, Frame, Carried, Encodable, ManagerState.DecodeOne, Frames;
    if rounds == [] {
      assert s.recvq + [] == s.recvq && ms[0..] == ms;
      AllDrained(ms, s.recvq + unread);
    } else {
      var r := s.ReadReady(Received(rounds[0].chunk));
      var later := Chunks(rounds[1..]) + unread;
      assert r.recvq + later == s.recvq + Chunks(rounds) + unread;
      LoopTakesNext(r, rounds[0].turns, allot, ms, later);
      var got, t := Handed(r, rounds[0].turns, allot), r.Receive(rounds[0].turns, allot).0;
      assert t.recvq + Chunks(rounds[1..]) + unread == t.recvq + later;
      ExactlyOnce(t, rounds[1..], allot, ms[|got|..], unread);
      var (last, more) := Rounds(t, rounds[1..], allot);
      Advance(ms, got, more, Drain(last.recvq + unread).0);
    }
  }

  lemma Advance<T>(all: seq<T>, first: seq<T>, second: seq<T>, third: seq<T>)
    requires first <= all && second <= all[|first|..] && second + third == all[|first|..]
    ensures first + second <= all && all[|first|..][|second|..] == all[|first + second|..]
    ensures first + second + third == all
  {
    assert all == first + all[|first|..];
    assert first + (second + third) == first + second + third;
  }

  lemma AllDrained(ms: seq<Message>, buf: Octets)
    requires AllFrameable(ms) && buf == Frames(ms)
    ensures Drain(buf) == (ms, [])
  {
    hide Deserialize, Frame, Carried, Encodable;
    DrainFrames(ms, []);
    assert Frames(ms) + [] == buf && ms + Drain([]).0 == ms;
  }

  lemma ProcessBuffer(s: ManagerState, m: Message, allotted: Option<Port>, buf: Octets)
    requires PortsInRange(m)
    ensures s.(recvq := buf).Process(m, allotted) == (s.Process(m, allotted).0.(recvq := buf), s.Process(m, allotted).1)
  {
    hide Frame;
  }

  /** Handling does not look at the receive buffer. */
  lemma {:induction false} ProcessAllBuffer(s: ManagerState, ms: seq<Message>, allot: nat -> Option<Port>, buf: Octets)
    requires forall m | m in ms :: PortsInRange(m)
    ensures ProcessAll(s.(recvq := buf), ms, allot) == (ProcessAll(s, ms, allot).0.(recvq := buf), ProcessAll(s, ms,
            allot).1)
    decreases |ms|
  {
    hide ManagerState.Process;
    if ms == [] {
    } else {
      ProcessBuffer(s, ms[0], allot(s.created), buf);
      assert s.created == s.(recvq := buf).created;
      ProcessAllBuffer(s.Process(ms[0], allot(s.created)).0, ms[1..], allot, buf);
    }
  }

  /** Of a stream without a wrong version, the loop's effects are those of the handed messages, each once. */
  lemma {:induction false} EffectsOfHanded(s: ManagerState, turns: nat, allot: nat -> Option<Port>)
    requires !BadVersionAhead(Drain(s.recvq).1)
    ensures var (t, es, _) := s.Receive(turns, allot);
            var (u, fs) := ProcessAll(s, Handed(s, turns, allot), allot);
            t == u.(recvq := t.recvq) && fs <= es && forall i | |fs| <= i < |es| :: es[i] == Nothing
    decreases turns
  {
    hide Deserialize, ManagerState.Process;
    if s.recvq != [] && turns > 0 {
      if Deserialize(s.recvq).Got? {
        var r := Deserialize(s.recvq);
        var (t, e, c) := s.DecodeOne(allot);
        var ms := Handed(s, turns, allot);
        assert ms[0] == r.msg;
        ProcessBuffer(s, r.msg, allot(s.created), r.rest);
        if c == Again {
          var more := Handed(t, turns - 1, allot);
          assert ms[1..] == more;
          EffectsOfHanded(t, turns - 1, allot);
          var plain := s.Process(r.msg, allot(s.created)).0;
          ProcessAllBuffer(plain, more, allot, r.rest);
          var fs := ProcessAll(t, more, allot).1;
          var es := t.Receive(turns - 1, allot).1;
          assert [e] + fs <= [e] + es;
        }
      } else {
        FailedTurnKeeps(s, allot);
        OnlyNothing(s, allot);
      }
    }
  }

  lemma OnlyNothing(s: ManagerState, allot: nat -> Option<Port>)
    requires s.recvq != [] && Deserialize(s.recvq).Failed?
    ensures s.DecodeOne(allot).1 == Nothing
  {
    hide Deserialize, Frame;
  }

  // ------------------------------------------------- where messages end up

  /** The manager's relays, how many have been asked for, and what waits for each. */
  datatype Desk = Desk(relays: set<Port>, created: nat, queues: map<Port, Trace>)

  /** What a message is worth outside the manager. */
  function Acted(relays: set<Port>, m: Message, allotted: Option<Port>): Effect
    requires PortsInRange(m)
  {
    match m.kind
    case CreateRelay => if allotted.Some? then Start(allotted.value) else Nothing
    case CloseConnection => if m.relayPort in relays then Enqueue(m.relayPort, FromWire(m)) else Raised
    case Data => if m.relayPort in relays then Enqueue(m.relayPort, FromWire(m)) else Nothing
    case DestroyRelay => if m.relayPort in relays then Stop(m.relayPort) else Nothing
    case _ => Nothing
  }

  /** Each message routed once, in order. */
  function Routed(d: Desk, ms: seq<Message>, allot: nat -> Option<Port>): Desk
    requires forall m | m in ms :: PortsInRange(m)
    decreases |ms|
  {
    if ms == [] then d else Routed(RoutedOne(d, ms[0], allot), ms[1..], allot)
  }

  function RoutedOne(d: Desk, m: Message, allot: nat -> Option<Port>): Desk
    requires PortsInRange(m)
  {
    var (relays, created) := RelaysAfter(d.relays, d.created, m, allot);
    Desk(relays, created, Route(d.queues, Acted(d.relays, m, allot(d.created))))
  }

  lemma {:induction false} RoutedConcat(d: Desk, a: seq<Message>, b: seq<Message>, allot: nat -> Option<Port>)
    requires forall m | m in a + b :: PortsInRange(m)
    ensures Routed(d, a + b, allot) == Routed(Routed(d, a, allot), b, allot)
    decreases |a|
  {
    hide RoutedOne, PortsInRange;
    if a == [] {
      assert a + b == b;
    } else {
      assert (a + b)[1..] == a[1..] + b;
      RoutedConcat(RoutedOne(d, a[0], allot), a[1..], b, allot);
    }
  }

  lemma ProcessActs(s: ManagerState, m: Message, allotted: Option<Port>)
    requires PortsInRange(m)
    ensures s.Process(m, allotted).1 == Acted(s.relays, m, allotted)
  {
    hide Frame;
  }

  /** One iteration on a complete frame does with its message what is due. */
  lemma DecodedActs(s: ManagerState, allot: nat -> Option<Port>)
    requires Deserialize(s.recvq).Got?
    ensures s.recvq != []
    ensures var m := Deserialize(s.recvq).msg;
            var (t, e, c) := s.DecodeOne(allot);
            e == Acted(s.relays, m, allot(s.created)) && (c == Leave <==> e == Raised)
  {
    hide Deserialize, ManagerState.Process, Acted;
    var r := Deserialize(s.recvq);
    ProcessActs(s.(recvq := r.rest), r.msg, allot(s.created));
  }

  /** The receive loop, whatever it meets, routes exactly the messages it hands on. */
  lemma {:induction false} HandedRouted(s: ManagerState, turns: nat, allot: nat -> Option<Port>, queues: map<Port,
      Trace>)
    ensures var (t, es, _) := s.Receive(turns, allot);
            Desk(t.relays, t.created, RouteAll(queues, es)) ==
            Routed(Desk(s.relays, s.created, queues), Handed(s, turns, allot), allot)
    decreases turns
  {
    hide Deserialize, ManagerState.DecodeOne, Acted, RelaysAfter, Route;
    if s.recvq != [] && turns > 0 {
      var (t, e, c) := s.DecodeOne(allot);
      if Deserialize(s.recvq).Got? {
        DecodedNext(s, allot);
        DecodedActs(s, allot);
        assert Handed(s, turns, allot)[0] == Deserialize(s.recvq).msg;
        assert Handed(s, turns, allot)[1..] == if c == Leave then [] else Handed(t, turns - 1, allot);
        assert [e][1..] == [];
      } else {
        FailedTurn(s, allot);
        OnlyNothing(s, allot);
        FailedRelays(s, allot);
        assert RouteAll(queues, [Nothing]) == queues by { NothingRouted(queues); }
        NothingRouted(queues);
      }
      if c == Again {
        HandedRouted(t, turns - 1, allot, Route(queues, e));
      }
    }
  }

  lemma FailedRelays(s: ManagerState, allot: nat -> Option<Port>)
    requires s.recvq != [] && Deserialize(s.recvq).Failed?
    ensures s.DecodeOne(allot).0.relays == s.relays && s.DecodeOne(allot).0.created == s.created
    ensures s.DecodeOne(allot).0.recvq == s.recvq
  {
    hide Deserialize, Frame;
  }

  lemma NothingRouted(queues: map<Port, Trace>)
    ensures Route(queues, Nothing) == queues && RouteAll(queues, [Nothing]) == queues
  {
    assert [Nothing][1..] == [];
  }

  /** As long as relays neither come nor go, each gets the data and CLOSEs that name it, all, once and in order. */
  lemma {:induction false} RoutedToEach(d: Desk, ms: seq<Message>, allot: nat -> Option<Port>, p: Port)
    requires forall m | m in ms :: PortsInRange(m)
    requires forall m | m in ms :: m.kind !in {CreateRelay, DestroyRelay, NewConnection}
    requires p in d.relays && p in d.queues
    ensures var e := Routed(d, ms, allot);
            p in e.queues && e.queues[p] == d.queues[p] + Of(FromWires(ms), p)
    decreases |ms|
  {
    hide RoutedOne, Of, FromWires, FromWire;
    if ms == [] {
      assert d.queues[p] + Of(FromWires([]), p) == d.queues[p] by { NothingFor(p); }
    } else {
      var e := RoutedOne(d, ms[0], allot);
      OneRouted(d, ms[0], allot, p);
      RoutedToEach(e, ms[1..], allot, p);
      OneMore(d.queues[p], ms, p);
    }
  }

  lemma NothingFor(p: Port)
    ensures Of(FromWires([]), p) == []
  {
  }

  lemma OneMore(queue: Trace, ms: seq<Message>, p: Port)
    requires ms != []
    ensures queue + Of(FromWires(ms), p) ==
            (if IsSessionMessage(ms[0]) && ms[0].relayPort == p then queue + [FromWire(ms[0])] else queue)
            + Of(FromWires(ms[1..]), p)
  {
    if IsSessionMessage(ms[0]) {
      var q, rest := FromWire(ms[0]), Of(FromWires(ms[1..]), p);
      assert FromWires(ms)[0] == q && FromWires(ms)[1..] == FromWires(ms[1..]);
      assert queue + ([q] + rest) == queue + [q] + rest;
    }
  }

  lemma OneRouted(d: Desk, m: Message, allot: nat -> Option<Port>, p: Port)
    requires PortsInRange(m) && m.kind !in {CreateRelay, DestroyRelay, NewConnection} && p in d.relays && p in d.queues
    ensures var e := RoutedOne(d, m, allot);
            && p in e.relays && p in e.queues
            && e.queues[p] == if IsSessionMessage(m)
               && m.relayPort == p then d.queues[p] + [FromWire(m)] else d.queues[p]
  {
  }

  // ---------------------------------------------------- what the client is told

  /** The frames that handling a message queues for the client. */
  function Answered(relays: set<Port>, m: Message, allotted: Option<Port>): seq<Message>
    requires PortsInRange(m)
  {
    match m.kind
    case CreateRelay => [if allotted.Some? then RelayMessage(OpenRelay, allotted.value) else NO_PORT]
    case DestroyRelay => if m.relayPort in relays then [RelayMessage(DestroyRelay, m.relayPort)] else []
    case Data => if m.relayPort in relays then [] else [NO_RELAY]
    case _ => []
  }

  lemma ProcessAnswers(s: ManagerState, m: Message, allotted: Option<Port>)
    requires PortsInRange(m)
    ensures var ms, t := Answered(s.relays, m, allotted), s.Process(m, allotted).0;
            && AllFrameable(ms) && (forall i | 0 <= i < |ms| :: !IsSessionMessage(ms[i]))
            && t.sendq == s.sendq + Frames(ms) && t.closing == s.closing
  {
    var ms := Answered(s.relays, m, allotted);
    assert s.sendq + [] == s.sendq;
    if ms == [] {
    } else {
      assert ms == [ms[0]] && ms[1..] == [] && Frame(ms[0]) + [] == Frame(ms[0]);
    }
  }

  /** The same, octet by octet. */
  lemma AnswersSpelt(relays: set<Port>, m: Message, allotted: Option<Port>)
    requires PortsInRange(m)
    ensures AllFrameable(Answered(relays, m, allotted))
    ensures Frames(Answered(relays, m, allotted)) ==
            match m.kind
            case CreateRelay =>
              if allotted.Some? then [0x40, 6, 1, allotted.value / 256, allotted.value % 256] else [0x40, 7, 1, 4]
            case DestroyRelay =>
              if m.relayPort in relays then [0x40, 2, 1, m.relayPort / 256, m.relayPort % 256] else []
            case Data => if m.relayPort in relays then [] else [0x40, 7, 1, 2]
            case _ => []
    ensures Encodable(BAD_VERSION) && Frame(BAD_VERSION) == [0x40, 7, 1, 5]
  {
    var ms := Answered(relays, m, allotted);
    VersionSpelt();
    if ms == [] {
    } else {
      AnswerFrameable(relays, m, allotted);
      WireFormat(ms[0]);
      assert ms == [ms[0]] && ms[1..] == [] && Frame(ms[0]) + [] == Frame(ms[0]);
    }
  }

  lemma VersionSpelt()
    ensures Encodable(BAD_VERSION) && Frame(BAD_VERSION) == [0x40, 7, 1, 5]
  {
    WireFormat(BAD_VERSION);
  }

  lemma AnswerFrameable(relays: set<Port>, m: Message, allotted: Option<Port>)
    requires PortsInRange(m) && Answered(relays, m, allotted) != []
    ensures Frameable(Answered(relays, m, allotted)[0])
  {
  }

  /** The answers to a list of messages, each handled once and in order. */
  function AnswersTo(d: Desk, ms: seq<Message>, allot: nat -> Option<Port>): seq<Message>
    requires forall m | m in ms :: PortsInRange(m)
    decreases |ms|
  {
    if ms == [] then []
    else Answered(d.relays, ms[0], allot(d.created)) + AnswersTo(RoutedOne(d, ms[0], allot), ms[1..], allot)
  }

  lemma {:induction false} AnswersConcat(d: Desk, a: seq<Message>, b: seq<Message>, allot: nat -> Option<Port>)
    requires forall m | m in a + b :: PortsInRange(m)
    ensures forall m | m in a :: PortsInRange(m)
    ensures forall m | m in b :: PortsInRange(m)
    ensures AnswersTo(d, a + b, allot) == AnswersTo(d, a, allot) + AnswersTo(Routed(d, a, allot), b, allot)
    decreases |a|
  {
    hide RoutedOne, PortsInRange, Answered;
    assert forall m | m in a :: m in a + b;
    if a == [] {
      assert a + b == b;
    } else {
      assert (a + b)[1..] == a[1..] + b;
      AnswersConcat(RoutedOne(d, a[0], allot), a[1..], b, allot);
    }
  }

  /** Each frame of these is well formed, and belongs to no session. */
  predicate Plain(ms: seq<Message>) { AllFrameable(ms) && forall i | 0 <= i < |ms| :: !IsSessionMessage(ms[i]) }

  lemma PlainFrames(sendq: Octets, a: seq<Message>, b: seq<Message>)
    requires Plain(a) && Plain(b)
    ensures Plain(a + b) && sendq + Frames(a + b) == sendq + Frames(a) + Frames(b)
  {
    hide Frameable, IsSessionMessage, Frames;
    FramesAppend(a, b);
  }

  /** One iteration on a complete frame queues the answer to it. */
  lemma DecodedAnswers(s: ManagerState, d: Desk, allot: nat -> Option<Port>)
    requires Deserialize(s.recvq).Got? && s.recvq != [] && d.relays == s.relays && d.created == s.created
    ensures var m, t := Deserialize(s.recvq).msg, s.DecodeOne(allot).0;
            && Plain(Answered(d.relays, m, allot(d.created)))
            && t.sendq == s.sendq + Frames(Answered(d.relays, m, allot(d.created))) && t.closing == s.closing
            && RoutedOne(d, m, allot).relays == t.relays && RoutedOne(d, m, allot).created == t.created
  {
    hide Deserialize, ManagerState.Process, Answered, Acted, Route, Frames, Frameable, IsSessionMessage;
    var r := Deserialize(s.recvq);
    ProcessAnswers(s.(recvq := r.rest), r.msg, allot(s.created));
    DecodedNext(s, allot);
  }

  /** A receive loop that ends queues exactly the answers to what it handed on, and leaves the close flag alone. */
  lemma {:induction false} ReceiveAnswers(s: ManagerState, d: Desk, turns: nat, allot: nat -> Option<Port>)
    requires s.Receive(turns, allot).2 && d.relays == s.relays && d.created == s.created
    ensures var ms, t := AnswersTo(d, Handed(s, turns, allot), allot), s.Receive(turns, allot).0;
            Plain(ms) && t.sendq == s.sendq + Frames(ms) && t.closing == s.closing
    decreases turns
  {
    hide Deserialize, ManagerState.DecodeOne, Answered, RoutedOne, PortsInRange, Frameable, IsSessionMessage, Frame;
    assert s.sendq + [] == s.sendq;
    if s.recvq == [] || turns == 0 {
    } else if Deserialize(s.recvq).Failed? {
      if BadVersionAhead(s.recvq) {
        StuckGrows(s, turns, allot);
      }
      FailedTurn(s, allot);
      FailedTurnKeeps(s, allot);
    } else {
      var m, ms, t := Deserialize(s.recvq).msg, Handed(s, turns, allot), s.DecodeOne(allot).0;
      DecodedAnswers(s, d, allot);
      assert ms[0] == m;
      var first, e := Answered(d.relays, m, allot(d.created)), RoutedOne(d, m, allot);
      if s.DecodeOne(allot).2 == Leave {
        assert ms[1..] == [] && first + [] == first;
      } else {
        assert ms[1..] == Handed(t, turns - 1, allot);
        ReceiveAnswers(t, e, turns - 1, allot);
        PlainFrames(s.sendq, first, AnswersTo(e, ms[1..], allot));
      }
    }
  }

  /** A receive loop that ends has taken every complete frame, unless the last one it handed on raised. */
  predicate TakenUp(recvq: Octets, relays: set<Port>, handed: seq<Message>) {
    || Deserialize(recvq).Failed?
    || (&& handed != [] && handed[|handed| - 1].kind == CloseConnection
        && handed[|handed| - 1].relayPort !in relays)
  }

  lemma {:induction false} ReceiveTakesUp(s: ManagerState, turns: nat, allot: nat -> Option<Port>)
    requires s.Receive(turns, allot).2
    ensures var t := s.Receive(turns, allot).0; TakenUp(t.recvq, t.relays, Handed(s, turns, allot))
    decreases turns
  {
    hide Deserialize, ManagerState.DecodeOne, PortsInRange;
    NothingDecodes();
    if s.recvq == [] || turns == 0 {
    } else if Deserialize(s.recvq).Failed? {
      if BadVersionAhead(s.recvq) {
        StuckGrows(s, turns, allot);
      }
      FailedTurn(s, allot);
      FailedTurnKeeps(s, allot);
    } else {
      DecodedNext(s, allot);
      RelaysKept(s, allot);
      var ms, t := Handed(s, turns, allot), s.DecodeOne(allot).0;
      assert ms[0] == Deserialize(s.recvq).msg;
      if s.DecodeOne(allot).2 == Again {
        assert ms[1..] == Handed(t, turns - 1, allot);
        ReceiveTakesUp(t, turns - 1, allot);
      }
    }
  }

  lemma NothingDecodes()
    ensures Deserialize([]).Failed?
  {
  }

  lemma RelaysKept(s: ManagerState, allot: nat -> Option<Port>)
    requires Deserialize(s.recvq).Got? && s.recvq != []
    ensures s.DecodeOne(allot).2 == Leave ==> s.DecodeOne(allot).0.relays == s.relays
  {
    hide Deserialize, Frame;
  }

  /** The octets are these frames: the relays' messages in their order, and between them the answers in theirs. */
  ghost predicate Told(frames: seq<Message>, octets: Octets, forwarded: Trace, answers: seq<Message>) {
    AllFrameable(frames) && octets == Frames(frames) && FromWires(frames) == forwarded && Others(frames) == answers
  }

  lemma ToldNothing()
    ensures Told([], [], [], [])
  {
  }

  lemma ToldMore(
      frames: seq<Message>, octets: Octets, forwarded: Trace, answers: seq<Message>,
      more: seq<Message>, newOctets: Octets, newForwarded: Trace, newAnswers: seq<Message>)
    requires Told(frames, octets, forwarded, answers) && Told(more, newOctets, newForwarded, newAnswers)
    ensures Told(frames + more, octets + newOctets, forwarded + newForwarded, answers + newAnswers)
  {
    hide Frameable, Frames, FromWires, Others;
    FramesAppend(frames, more);
    FromWiresConcat(frames, more);
    OthersConcat(frames, more);
  }

  lemma ToldAnswers(ms: seq<Message>)
    requires Plain(ms)
    ensures Told(ms, Frames(ms), [], ms)
  {
    hide Frameable, Frames, FromWires, Others, IsSessionMessage;
    OnlyOthers(ms);
  }

  lemma ToldEntries(t: Trace)
    requires AllSendable(t)
    ensures Told(Wires(t), Framed(t), t, [])
  {
    hide AllSendable, AllFrameable, Frames, Framed, FromWires, Others, Wires;
    WiresRead(t);
  }

  /** So a reader of the octets finds them. */
  lemma ToldReads(frames: seq<Message>, octets: Octets, forwarded: Trace, answers: seq<Message>)
    requires Told(frames, octets, forwarded, answers)
    ensures var (ms, left) := Drain(octets); left == [] && FromWires(ms) == forwarded && Others(ms) == answers
  {
    hide Frameable, Frames, FromWires, Others, Drain;
    DrainFrames(frames, []);
    DrainNothing();
    assert Frames(frames) + [] == octets && frames + [] == frames;
  }

  // ----------------------------------------------------------- inbound drain

  /**
   The bounded drain takes the oldest messages, at most so many, and queues exactly their frames; none once
   closing.
   */
  lemma {:induction false} ForwardAllTakes(s: ManagerState, queue: Trace, turns: nat)
    requires AllSendable(queue)
    ensures var (t, left) := s.ForwardAll(queue, turns);
            var n := if s.closing then 0 else Min(turns, |queue|);
            && left == queue[n..] && AllSendable(queue[..n]) && t.sendq == s.sendq + Framed(queue[..n])
            && t.recvq == s.recvq && t.relays == s.relays && t.closing == s.closing
    decreases turns
  {
    hide FrameOf;
    if turns == 0 || s.closing || queue == [] {
      assert s.sendq + [] == s.sendq && queue[..0] == [];
    } else {
      var t := s.Forward(queue[0]);
      ForwardAllTakes(t, queue[1..], turns - 1);
      var n := Min(turns, |queue|);
      assert queue[..n][1..] == queue[1..][..n - 1] && queue[1..][n - 1..] == queue[n..];
      assert s.sendq + FrameOf(queue[0]) + Framed(queue[1..][..n - 1]) == s.sendq + Framed(queue[..n]);
    }
  }

  // ------------------------------------------------------ for the whole thread

  /** Of a valid stream, what has been handed on is its first messages, and the buffer goes on with the next. */
  ghost predicate HandedOn(received: Octets, handed: seq<Message>, recvq: Octets) {
    forall ms | AllFrameable(ms) && received <= Frames(ms) ::
      handed <= ms && recvq + Frames(ms)[|received|..] == Frames(ms[|handed|..])
  }

  lemma HandedNothing()
    ensures HandedOn([], [], [])
  {
    forall ms | AllFrameable(ms) && [] <= Frames(ms)
      ensures [] <= ms && [] + Frames(ms)[0..] == Frames(ms[0..])
    {
      assert ms[0..] == ms;
    }
  }

  lemma HandedMore(
      received: Octets, handed: seq<Message>, recvq: Octets, chunk: Octets, s: ManagerState, turns: nat,
        allot: nat -> Option<Port>)
    requires HandedOn(received, handed, recvq) && s.recvq == recvq + chunk
    ensures HandedOn(received + chunk, handed + Handed(s, turns, allot), s.Receive(turns, allot).0.recvq)
  {
    hide Frameable, Frame, Frames, Handed, ManagerState.Receive, PortsInRange;
    var got, left := Handed(s, turns, allot), s.Receive(turns, allot).0.recvq;
    forall ms | AllFrameable(ms) && received + chunk <= Frames(ms)
      ensures handed + got <= ms && left + Frames(ms)[|received + chunk|..] == Frames(ms[|handed + got|..])
    {
      var unread := Frames(ms)[|received + chunk|..];
      assert Frames(ms) == received + chunk + unread;
      assert received <= Frames(ms) && Frames(ms)[|received|..] == chunk + unread;
      assert recvq + (chunk + unread) == s.recvq + unread;
      LoopTakesNext(s, turns, allot, ms[|handed|..], unread);
      assert ms == handed + ms[|handed|..];
      assert ms[|handed|..][|got|..] == ms[|handed + got|..];
    }
  }

  /** A valid stream never shows a wrong version at the head. */
  lemma HandedNotStuck(received: Octets, handed: seq<Message>, recvq: Octets, ms: seq<Message>)
    requires HandedOn(received, handed, recvq) && AllFrameable(ms) && received <= Frames(ms)
    ensures !BadVersionAhead(recvq)
  {
    hide Frameable, Frame, Deserialize;
    CutNotStuck(recvq, Frames(ms)[|received|..], ms[|handed|..]);
  }

  lemma {:induction false} DrainShort(buf: Octets)
    ensures |Drain(buf).0| <= |buf|
    decreases |buf|
  {
    hide Deserialize;
    if Deserialize(buf).Failed? {
    } else {
      DrainShort(Deserialize(buf).rest);
    }
  }

  /** As many iterations as the buffer has octets show whether the loop ends: if not, a wrong version is at the head. */
  lemma EnoughTurns(s: ManagerState, allot: nat -> Option<Port>)
    ensures s.Receive(|s.recvq|, allot).2 <==> !Stuck(s, allot)
    ensures Stuck(s, allot) ==> BadVersionAhead(s.Receive(|s.recvq|, allot).0.recvq)
  {
    hide Deserialize, ManagerState.Receive, Drain, Raises;
    ReceiveEndsIff(s, allot);
    if Stuck(s, allot) {
      DrainShort(s.recvq);
      NeverEnds(s, |s.recvq| - |Drain(s.recvq).0|, allot);
    }
  }
}
