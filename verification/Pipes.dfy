/**
 One direction of the proxied link: a queue, the frames in a send buffer, on the wire and in a
 receive buffer, and a second queue. Both directions have this shape.
 */
module Pipes {
  import opened Wire
  import opened Messages
  import opened MessageProofs
  import opened Framing
  import opened Sessions

  /** The frame that announces a queued message to the other side. */
  function ToWire(q: Queued): Message {
    var kind := match q.kind
      case NewSession => NewConnection
      case CloseSession => CloseConnection
      case Payload => Data;
    Carried(Default(kind).(ip := q.key.ip, port := q.key.port, relayPort := q.relayPort, data := q.data))
  }

  predicate IsSessionMessage(m: Message) {
    m.kind in {NewConnection, CloseConnection, Data} && InU16(m.port) && InU16(m.relayPort)
  }

  /** The queue entry made from a received frame; only DATA passes its payload on. */
  function FromWire(m: Message): Queued
    requires IsSessionMessage(m)
  {
    var key := Key(m.ip, m.port);
    match m.kind
    case NewConnection => Queued(NewSession, key, [], m.relayPort)
    case CloseConnection => Queued(CloseSession, key, [], m.relayPort)
    case _ => Queued(Payload, key, m.data, m.relayPort)
  }

  function FrameOf(q: Queued): Octets
    requires Sendable(q)
  {
    Frame(ToWire(q))
  }

  /** The frames of a list of queued messages. */
  function Framed(t: Trace): Octets
    requires AllSendable(t)
  {
    if t == [] then [] else FrameOf(t[0]) + Framed(t[1..])
  }

  lemma {:induction false} FramedAppend(t: Trace, q: Queued)
    requires AllSendable(t) && Sendable(q)
    ensures AllSendable(t + [q]) && Framed(t + [q]) == Framed(t) + FrameOf(q)
  {
    hide FrameOf, Sendable;
    if t == [] {
      assert [] + [q] == [q] && [q][1..] == [] && FrameOf(q) + [] == FrameOf(q) && [] + FrameOf(q) == FrameOf(q);
    } else {
      assert (t + [q])[1..] == t[1..] + [q];
      assert forall i | 0 <= i < |t[1..]| :: t[1..][i] == t[i + 1];
      FramedAppend(t[1..], q);
    }
  }

  lemma ToWireFrameable(q: Queued)
    requires Sendable(q)
    ensures Frameable(ToWire(q)) && IsSessionMessage(ToWire(q)) && FromWire(ToWire(q)) == q
  {
  }

  /** The buffer holds whole session frames and nothing else. */
  predicate WellFramed(buf: Octets) {
    Drain(buf).1 == [] && forall i | 0 <= i < |Drain(buf).0| :: IsSessionMessage(Drain(buf).0[i])
  }

  function FromWires(ms: seq<Message>): Trace {
    if ms == [] then []
    else if IsSessionMessage(ms[0]) then [FromWire(ms[0])] + FromWires(ms[1..])
    else FromWires(ms[1..])
  }

  /** The session messages that a buffer still carries. */
  function InFlight(buf: Octets): Trace { FromWires(Drain(buf).0) }

  lemma {:induction false} FromWiresConcat(a: seq<Message>, b: seq<Message>)
    ensures FromWires(a + b) == FromWires(a) + FromWires(b)
  {
    hide FromWire, IsSessionMessage;
    if a == [] {
      assert a + b == b;
    } else {
      assert (a + b)[1..] == a[1..] + b;
      FromWiresConcat(a[1..], b);
    }
  }

  lemma {:induction false} FromWiresAppend(ms: seq<Message>, m: Message)
    requires IsSessionMessage(m)
    ensures FromWires(ms + [m]) == FromWires(ms) + [FromWire(m)]
  {
    if ms == [] {
      assert (ms + [m])[1..] == [];
    } else {
      assert (ms + [m])[1..] == ms[1..] + [m];
      FromWiresAppend(ms[1..], m);
    }
  }

  /** The messages that announce a list of queue entries. */
  function Wires(t: Trace): seq<Message> {
    if t == [] then [] else [ToWire(t[0])] + Wires(t[1..])
  }

  /** They are frames, session messages only, and read back as the entries. */
  lemma {:induction false} WiresRead(t: Trace)
    requires AllSendable(t)
    ensures AllFrameable(Wires(t)) && Frames(Wires(t)) == Framed(t)
    ensures FromWires(Wires(t)) == t && Others(Wires(t)) == []
  {
    hide Sendable, Frameable, ToWire, FromWire, IsSessionMessage, Frame;
    if t == [] {
    } else {
      var ms := Wires(t);
      ToWireFrameable(t[0]);
      assert forall i | 0 <= i < |t[1..]| :: t[1..][i] == t[i + 1];
      WiresRead(t[1..]);
      assert ms[0] == ToWire(t[0]) && ms[1..] == Wires(t[1..]);
      assert t == [t[0]] + t[1..];
    }
  }

  /** The messages that belong to no session. */
  function Others(ms: seq<Message>): seq<Message> {
    if ms == [] then []
    else if IsSessionMessage(ms[0]) then Others(ms[1..])
    else [ms[0]] + Others(ms[1..])
  }

  lemma {:induction false} OthersConcat(a: seq<Message>, b: seq<Message>)
    ensures Others(a + b) == Others(a) + Others(b)
  {
    hide IsSessionMessage;
    if a == [] {
      assert a + b == b;
    } else {
      assert (a + b)[1..] == a[1..] + b;
      OthersConcat(a[1..], b);
    }
  }

  lemma {:induction false} OnlyOthers(ms: seq<Message>)
    requires forall i | 0 <= i < |ms| :: !IsSessionMessage(ms[i])
    ensures FromWires(ms) == [] && Others(ms) == ms
  {
    hide FromWire, IsSessionMessage;
    if ms == [] {
    } else {
      assert !IsSessionMessage(ms[0]);
      OnlyOthers(ms[1..]);
      assert ms == [ms[0]] + ms[1..];
    }
  }

  /** Appending a frame appends its message to what is in flight. */
  lemma EncodeAtTail(buf: Octets, q: Queued)
    requires WellFramed(buf) && Sendable(q)
    ensures WellFramed(buf + FrameOf(q)) && InFlight(buf + FrameOf(q)) == InFlight(buf) + [q]
  {
    hide Deserialize, Frame, Carried, Encodable, ToWire, FromWire;
    var ms, m := Drain(buf).0, ToWire(q);
    ToWireFrameable(q);
    DrainConserves(buf);
    FramesAppend(ms, [m]);
    assert Frames([m]) == Frame(m) by { assert [m][1..] == []; assert Frame(m) + [] == Frame(m); }
    DrainFrames(ms + [m], []);
    assert buf + Frame(m) == Frames(ms + [m]) + [];
    assert ms + [m] + [] == ms + [m];
    FromWiresAppend(ms, m);
  }

  lemma AuthShowsAtOnce(a: Octets, b: Octets)
    requires Deserialize(a).Got? && Deserialize(a).msg.kind == Auth
    ensures Deserialize(a + b).Failed? || Deserialize(a + b).msg.kind == Auth
  {
    hide DeserializeBody;
    assert (a + b)[0] == a[0] && (a + b)[1] == a[1] && (a + b)[2] == a[2];
  }

  /** Decoding the first frame takes the oldest message in flight, and nothing else. */
  lemma DecodeAtHead(a: Octets, b: Octets)
    requires WellFramed(a + b) && Deserialize(a).Got?
    ensures var r := Deserialize(a);
            && IsSessionMessage(r.msg) && WellFramed(r.rest + b)
            && InFlight(a + b) == [FromWire(r.msg)] + InFlight(r.rest + b)
  {
    hide Deserialize, FromWire;
    var r := Deserialize(a);
    assert a + b != [] && Deserialize(a + b).Got?;
    var all := Drain(a + b).0;
    assert all[0] == Deserialize(a + b).msg && all[1..] == Drain(Deserialize(a + b).rest).0;
    assert IsSessionMessage(all[0]);
    if r.msg.kind == Auth {
      AuthShowsAtOnce(a, b);
    }
    DecodeStable(a, b);
    assert forall i | 0 <= i < |all[1..]| :: all[1..][i] == all[i + 1];
  }
  // ------------------------------------------------------------------- pipe

  /** `produced` and `consumed` are the histories of the two ends. */
  datatype Pipe = Pipe(
    produced: Trace, source: Trace,
    sendq: Octets, wire: Octets, recvq: Octets,
    sink: Trace, consumed: Trace)
  {
    function Bytes(): Octets { recvq + wire + sendq }

    /** Everything between the two ends, oldest first. */
    function Transit(): Trace { sink + InFlight(Bytes()) + source }

    /** Every message produced is in exactly one place, in order. */
    predicate Conserved() {
      WellFramed(Bytes()) && produced == consumed + Transit() && AllSendable(source)
    }

    function Produce(t: Trace): Pipe { this.(produced := produced + t, source := source + t) }

    function Encode(): Pipe
      requires source != [] && Sendable(source[0])
    {
      this.(source := source[1..], sendq := sendq + FrameOf(source[0]))
    }

    function Send(n: nat): Pipe
      requires n <= |sendq|
    {
      this.(sendq := sendq[n..], wire := wire + sendq[..n])
    }

    function Receive(n: nat): Pipe
      requires n <= |wire|
    {
      this.(wire := wire[n..], recvq := recvq + wire[..n])
    }

    function Decode(): Pipe
      requires Deserialize(recvq).Got? && IsSessionMessage(Deserialize(recvq).msg)
    {
      this.(recvq := Deserialize(recvq).rest, sink := sink + [FromWire(Deserialize(recvq).msg)])
    }

    function Consume(): Pipe
      requires sink != []
    {
      this.(sink := sink[1..], consumed := consumed + [sink[0]])
    }

    lemma ProduceConserves(t: Trace)
      requires Conserved() && AllSendable(t)
      ensures Produce(t).Conserved() && Produce(t).Transit() == Transit() + t
    {
    }

    lemma EncodeConserves()
      requires Conserved() && source != []
      ensures Encode().Conserved() && Encode().Transit() == Transit()
    {
      hide WellFramed, InFlight, FrameOf;
      EncodeAtTail(Bytes(), source[0]);
      assert Encode().Bytes() == Bytes() + FrameOf(source[0]);
      MoveAcross(sink + InFlight(Bytes()), source);
      assert sink + (InFlight(Bytes()) + [source[0]]) == sink + InFlight(Bytes()) + [source[0]];
      assert forall i | 0 <= i < |source| - 1 :: source[1..][i] == source[i + 1];
    }

    lemma SendConserves(n: nat)
      requires Conserved() && n <= |sendq|
      ensures Send(n).Conserved() && Send(n).Transit() == Transit()
    {
      hide WellFramed, InFlight;
      assert Send(n).Bytes() == Bytes();
    }

    lemma ReceiveConserves(n: nat)
      requires Conserved() && n <= |wire|
      ensures Receive(n).Conserved() && Receive(n).Transit() == Transit()
    {
      hide WellFramed, InFlight;
      assert Receive(n).Bytes() == Bytes();
    }

    lemma DecodeConserves()
      requires Conserved() && Deserialize(recvq).Got?
      ensures IsSessionMessage(Deserialize(recvq).msg)
      ensures Decode().Conserved() && Decode().Transit() == Transit()
    {
      hide WellFramed, InFlight, Deserialize, FromWire;
      assert Bytes() == recvq + (wire + sendq);
      DecodeAtHead(recvq, wire + sendq);
      assert Decode().Bytes() == Deserialize(recvq).rest + (wire + sendq);
    }

    lemma ConsumeConserves()
      requires Conserved() && sink != []
      ensures Consume().Conserved() && Transit() == [sink[0]] + Consume().Transit()
    {
      hide WellFramed, InFlight;
      assert sink == [sink[0]] + sink[1..];
      assert consumed + Transit() == consumed + [sink[0]] + Consume().Transit();
    }
  }
}
