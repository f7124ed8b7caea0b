/** What printer and parser promise each other. */
module MessageProofs {
  import opened Wire
  import opened Messages

  lemma CodesInvert(t: MessageType, e: ErrorType)
    ensures TypeOf(TypeCode(t)) == Some(t)
    ensures ErrorOf(ErrorCode(e)) == Some(e)
  {
  }

  lemma CodesCanonical(code: Octet)
    ensures TypeOf(code).Some? ==> TypeCode(TypeOf(code).value) == code
    ensures ErrorOf(code).Some? ==> ErrorCode(ErrorOf(code).value) == code
  {
  }

  // ------------------------------------------------------------ wire format

  /** Family, raw address, port and relay port, as they follow the header. */
  function Named(m: Message): Octets
    requires InU16(m.port) && InU16(m.relayPort)
  {
    (if |m.ip| == 16 then [6] else [4]) + m.ip
    + [m.port / 256, m.port % 256, m.relayPort / 256, m.relayPort % 256]
  }

  /** The octets of every frame of version 1, written out. */
  function Spelt(m: Message): Octets
    requires Encodable(m)
  {
    match m.kind
    case CreateRelay => [0x40, 1, 1]
    case DestroyRelay => [0x40, 2, 1, m.relayPort / 256, m.relayPort % 256]
    case NewConnection => [0x40, 3, 1] + Named(m)
    case CloseConnection => [0x40, 4, 1] + Named(m)
    case Data => [0x40, 5, 1] + Named(m)
                 + [|m.data| / 0x100_0000, |m.data| / 0x1_0000 % 256, |m.data| / 256 % 256, |m.data| % 256]
                 + m.data
    case OpenRelay => [0x40, 6, 1, m.relayPort / 256, m.relayPort % 256]
    case Error => [0x40, 7, 1] +
                  (match m.error
                   case NoError => [1]
                   case RelayDoesNotExist => [2]
                   case AuthFailure => [3]
                   case RelayFailurePortExhaustion => [4]
                   case InvalidMsgVersion => [5]
                   case UnknownMsgType => [6])
    case Auth => [0x40, 8, 1, |m.auth| / 256, |m.auth| % 256] + Utf8.Encode(m.auth)
    case AuthSuccess => [0x40, 9, 1]
  }

  /** The printer writes this format, and the messages the program builds are of that version. */
  lemma WireFormat(m: Message)
    requires Encodable(m) && m.version == VERSION
    ensures Frame(m) == Spelt(m) && Default(m.kind).version == 1
  {
    match m.kind {
      case NewConnection | CloseConnection => AddressSpelt(m);
      case Data =>
        AddressSpelt(m);
        LengthOctets(|m.data|);
        hide AddressBlock, Named, PackU32;
        assert Header(m) + (AddressBlock(m) + PackU32(|m.data|) + m.data)
            == Header(m) + AddressBlock(m) + PackU32(|m.data|) + m.data;
      case Auth =>
        assert Header(m) + (PackU16(|m.auth|) + Utf8.Encode(m.auth))
            == Header(m) + PackU16(|m.auth|) + Utf8.Encode(m.auth);
      case _ =>
    }
  }

  lemma AddressSpelt(m: Message)
    requires InU16(m.port) && InU16(m.relayPort)
    ensures AddressBlock(m) == Named(m)
  {
  }

  lemma LengthOctets(n: int)
    requires InU32(n)
    ensures PackU32(n) == [n / 0x100_0000, n / 0x1_0000 % 256, n / 256 % 256, n % 256]
  {
    var hi, lo := n / 0x1_0000, n % 0x1_0000;
    var a, b, c, d := hi / 256, hi % 256, lo / 256, lo % 256;
    assert n == a * 0x100_0000 + (b * 0x1_0000 + c * 256 + d) && n / 0x100_0000 == a;
    assert n == (a * 0x1_0000 + b * 256 + c) * 256 + d && n % 256 == d && n / 256 == (a * 256 + b) * 256 + c;
    assert n / 256 % 256 == c && hi == a * 256 + b;
  }

  // ------------------------------------------------------------- round trip

  /** A frame's header leads the parser to the body of the same kind. */
  lemma HeaderParses(m: Message, tail: Octets)
    requires 0 <= m.version < 0x100
    ensures m.version == VERSION ==> Deserialize(Header(m) + tail) == DeserializeBody(m.kind, Header(m) + tail)
    ensures m.version != VERSION ==> Deserialize(Header(m) + tail) == Failed(BadVersion(m.version))
  {
    CodesInvert(m.kind, m.error);
  }

  lemma AddressParses(m: Message, tail: Octets)
    requires InU16(m.port) && InU16(m.relayPort) && 0 <= m.version < 0x100
    ensures ParseAddress(Header(m) + AddressBlock(m) + tail) == Address(m.ip, m.port, m.relayPort, 8 + |m.ip|)
  {
    var family: Octet := if |m.ip| == 16 then 6 else 4;
    var p, r := PackU16(m.port), PackU16(m.relayPort);
    var d := Header(m) + AddressBlock(m) + tail;
    var head := Header(m) + [family];
    assert d == head + m.ip + (p + r + tail);
    SliceMiddle(head, m.ip, p + r + tail);
    assert d == (head + m.ip) + p + (r + tail);
    SliceMiddle(head + m.ip, p, r + tail);
    assert d == (head + m.ip + p) + r + tail;
    SliceMiddle(head + m.ip + p, r, tail);
    UnpackPackU16(m.port);
    UnpackPackU16(m.relayPort);
  }

  lemma PayloadParses(m: Message, before: Octets, tail: Octets)
    requires m.kind == Data && InU32(|m.data|) && |before| >= 3
    ensures var d := before + (PackU32(|m.data|) + m.data + tail);
            DeserializePayload(m.(data := []), d, |before|) == Got(m, tail)
  {
    var n := PackU32(|m.data|);
    var d := before + (n + m.data + tail);
    assert d == before + n + (m.data + tail);
    SliceMiddle(before, n, m.data + tail);
    assert d == (before + n) + m.data + tail;
    SliceMiddle(before + n, m.data, tail);
    UnpackPackU32(|m.data|);
  }

  /** The kinds whose body is a constant or one field of at most two octets. */
  lemma ShortBodyParses(m: Message, rest: Octets)
    requires Encodable(m) && m.kind in {Error, CreateRelay, AuthSuccess, OpenRelay, DestroyRelay}
    ensures DeserializeBody(m.kind, Header(m) + Body(m) + rest) == Got(Carried(m).(version := VERSION), rest)
  {
    var d := Header(m) + Body(m) + rest;
    SliceMiddle(Header(m), Body(m), rest);
    if m.kind == Error {
      CodesInvert(m.kind, m.error);
      assert d[3] == ErrorCode(m.error);
    } else if m.kind in {OpenRelay, DestroyRelay} {
      UnpackPackU16(m.relayPort);
    }
  }

  lemma DataParses(m: Message, rest: Octets)
    requires Encodable(m) && m.kind == Data && m.version == VERSION
    ensures DeserializeAddressed(Data, Header(m) + Body(m) + rest) == Got(Carried(m), rest)
  {
    var before := Header(m) + AddressBlock(m);
    var tail := PackU32(|m.data|) + m.data + rest;
    assert Header(m) + Body(m) + rest == before + tail;
    AddressParses(m, tail);
    PayloadParses(Carried(m), before, rest);
  }

  /** Every message but AUTH survives the wire, whatever octets follow it. */
  lemma RoundTrip(m: Message, rest: Octets)
    requires Encodable(m) && m.version == VERSION && m.kind != Auth
    ensures Deserialize(Frame(m) + rest) == Got(Carried(m), rest)
  {
    assert Frame(m) + rest == Header(m) + (Body(m) + rest) == Header(m) + Body(m) + rest;
    HeaderParses(m, Body(m) + rest);
    if m.kind == Data {
      DataParses(m, rest);
    } else if m.kind in {NewConnection, CloseConnection} {
      AddressParses(m, rest);
      SliceMiddle(Header(m), AddressBlock(m), rest);
    } else {
      ShortBodyParses(m, rest);
    }
  }

  // --------------------------------------------------------- canonical form

  lemma SliceFull<T>(d: seq<T>, from: nat, to: nat)
    requires from <= to && |Slice(d, from, to)| == to - from
    requires from <= |d|
    ensures to <= |d| && Slice(d, from, to) == d[from..to] && Drop(d, to) == d[to..]
  {
  }

  lemma AddressCanonical(d: Octets)
    requires ParseAddress(d).Address?
    ensures var a := ParseAddress(d);
            d[3..a.offset] == [if |a.ip| == 16 then 6 else 4] + a.ip + PackU16(a.port) + PackU16(a.relayPort)
  {
    hide PackU16, UnpackU16, Slice, Drop;
    var a := ParseAddress(d);
    var end := a.offset;
    SliceFull(d, 4, end - 4);
    SliceFull(d, end - 4, end - 2);
    SliceFull(d, end - 2, end);
    PackUnpackU16(d[end - 4..end - 2]);
    PackUnpackU16(d[end - 2..end]);
    assert d[3..end] == [d[3]] + d[4..end - 4] + d[end - 4..end - 2] + d[end - 2..end];
  }

  lemma PayloadCanonical(m: Message, d: Octets, offset: nat)
    requires m.data == [] && 3 <= offset <= |d| && DeserializePayload(m, d, offset).Got?
    ensures var r := DeserializePayload(m, d, offset);
            && (m.kind == Data ==> InU32(|r.msg.data|) && d[offset..] == PackU32(|r.msg.data|) + r.msg.data + r.rest)
            && (m.kind != Data ==> r.msg == m && d[offset..] == r.rest)
  {
    hide PackU32, UnpackU32, Slice;
    var r := DeserializePayload(m, d, offset);
    if m.kind == Data {
      SliceFull(d, offset, offset + 4);
      PackUnpackU32(d[offset..offset + 4]);
      SliceFull(d, offset + 4, offset + 4 + |r.msg.data|);
    }
  }

  lemma AddressedCanonical(kind: MessageType, d: Octets)
    requires kind in {NewConnection, CloseConnection, Data} && |d| >= 3
    requires DeserializeAddressed(kind, d).Got?
    ensures var r := DeserializeAddressed(kind, d);
            && Encodable(r.msg) && r.msg.kind == kind && r.msg.version == VERSION
            && Carried(r.msg) == r.msg && d[3..] == Body(r.msg) + r.rest
  {
    hide ParseAddress, DeserializePayload, PackU16, PackU32;
    var a := ParseAddress(d);
    var m := Default(kind).(ip := a.ip, port := a.port, relayPort := a.relayPort);
    var r := DeserializePayload(m, d, a.offset);
    assert r == DeserializeAddressed(kind, d);
    PayloadCanonical(m, d, a.offset);
    assert r.msg == m.(data := r.msg.data);
    AddressCanonical(d);
    assert AddressBlock(r.msg) == d[3..a.offset];
    assert d[3..] == d[3..a.offset] + d[a.offset..];
  }

  lemma ShortBodyCanonical(kind: MessageType, d: Octets)
    requires kind in {Error, CreateRelay, AuthSuccess, OpenRelay, DestroyRelay} && |d| >= 3
    requires DeserializeBody(kind, d).Got?
    ensures var r := DeserializeBody(kind, d);
            && Encodable(r.msg) && r.msg.kind == kind && r.msg.version == VERSION
            && Carried(r.msg) == r.msg && d[3..] == Body(r.msg) + r.rest
  {
    hide DeserializeAddressed, DeserializeAuth, PackU16, UnpackU16;
    if kind == Error {
      CodesCanonical(d[3]);
      assert d[3..] == [d[3]] + Drop(d, 4);
    } else if kind in {OpenRelay, DestroyRelay} {
      SliceFull(d, 3, 5);
      PackUnpackU16(d[3..5]);
      assert d[3..] == d[3..5] + d[5..];
    }
  }

  lemma BodyCanonical(kind: MessageType, d: Octets)
    requires |d| >= 3 && DeserializeBody(kind, d).Got? && DeserializeBody(kind, d).msg.kind != Auth
    ensures var r := DeserializeBody(kind, d);
            && Encodable(r.msg) && r.msg.kind == kind && r.msg.version == VERSION
            && Carried(r.msg) == r.msg && d[3..] == Body(r.msg) + r.rest
  {
    hide Body, Carried, Encodable, DeserializeAddressed;
    if kind in {NewConnection, CloseConnection, Data} {
      AddressedCanonical(kind, d);
    } else if kind != Auth {
      ShortBodyCanonical(kind, d);
    }
  }

  /** A frame that decodes is the one the printer writes: non-AUTH frames have one spelling. */
  lemma Canonical(d: Octets)
    requires Deserialize(d).Got? && Deserialize(d).msg.kind != Auth
    ensures var r := Deserialize(d);
            && Encodable(r.msg) && r.msg.version == VERSION
            && Carried(r.msg) == r.msg && d == Frame(r.msg) + r.rest
  {
    hide DeserializeAddressed, DeserializeAuth, Body, Carried, TypeOf, TypeCode;
    var kind := TypeOf(d[1]).value;
    CodesCanonical(d[1]);
    assert d[..3] == [START, TypeCode(kind), VERSION];
    BodyCanonical(kind, d);
    assert d == d[..3] + d[3..];
  }

  /** What is decoded does not depend on what has not arrived yet, once it is decoded at all. */
  lemma DecodeStable(d: Octets, more: Octets)
    requires Deserialize(d).Got? && Deserialize(d).msg.kind != Auth
    ensures Deserialize(d + more) == Got(Deserialize(d).msg, Deserialize(d).rest + more)
  {
    hide Deserialize, Frame, Carried, Encodable;
    var r := Deserialize(d);
    Canonical(d);
    RoundTrip(r.msg, r.rest + more);
    assert d + more == Frame(r.msg) + (r.rest + more);
  }

  /** No strict prefix of a non-AUTH frame decodes, wherever it is cut. */
  lemma PrefixFree(m: Message, n: nat)
    requires Encodable(m) && m.version == VERSION && m.kind != Auth
    requires n < |Frame(m)|
    ensures Deserialize(Frame(m)[..n]).Failed?
  {
    var f := Frame(m);
    assert f == f[..n] + f[n..] == f + [];
    RoundTrip(m, []);
    if Deserialize(f[..n]).Got? {
      CodesInvert(m.kind, m.error);
      assert f[..n][1] == TypeCode(m.kind);
      // Decoding would be the same with the cut part back, and leave that part over.
      DecodeStable(f[..n], f[n..]);
    }
  }

  // ------------------------------------------------------------------- AUTH

  lemma AuthParses(m: Message, tail: Octets)
    requires m.kind == Auth && Encodable(m) && m.version == VERSION
    ensures var d := Header(m) + PackU16(|m.auth|) + tail;
            Deserialize(d) ==
            match Utf8.Decode(Slice(tail, 0, |m.auth|))
            case None => Failed(BadToken)
            case Some(auth) => Got(Default(Auth).(auth := auth), Drop(tail, |m.auth|))
  {
    var n := PackU16(|m.auth|);
    var d := Header(m) + n + tail;
    assert d == Header(m) + (n + tail);
    HeaderParses(m, n + tail);
    SliceMiddle(Header(m), n, tail);
    UnpackPackU16(|m.auth|);
    assert Slice(d, 5, 5 + |m.auth|) == Slice(tail, 0, |m.auth|);
    assert Drop(d, 5 + |m.auth|) == Drop(tail, |m.auth|);
  }

  /** The written length counts characters: an ASCII token survives, any other one never does. */
  lemma AuthRoundTrip(m: Message, rest: Octets)
    requires m.kind == Auth && Encodable(m) && m.version == VERSION
    ensures Deserialize(Frame(m) + rest) == Got(Carried(m), rest) <==> Utf8.IsAscii(m.auth)
  {
    var e := Utf8.Encode(m.auth);
    assert Frame(m) + rest == Header(m) + PackU16(|m.auth|) + (e + rest);
    AuthParses(m, e + rest);
    Utf8.LengthKeptIffAscii(m.auth);
    if Utf8.IsAscii(m.auth) {
      Utf8.DecodeEncode(m.auth);
      SliceMiddle([], e, rest);
      assert [] + e + rest == e + rest;
    } else {
      assert |Drop(e + rest, |m.auth|)| > |rest|;
    }
  }

  /** A frame cut inside an ASCII token decodes all the same, to the cut token and nothing left. */
  lemma AuthCutTokenDecodes(m: Message, n: nat)
    requires m.kind == Auth && Encodable(m) && m.version == VERSION && Utf8.IsAscii(m.auth)
    requires n <= |m.auth|
    ensures 5 + n <= |Frame(m)|
    ensures Deserialize(Frame(m)[..5 + n]) == Got(Default(Auth).(auth := m.auth[..n]), [])
  {
    var e := Utf8.Encode(m.auth);
    Utf8.AsciiCut(m.auth, n);
    assert Frame(m)[..5 + n] == Header(m) + PackU16(|m.auth|) + e[..n];
    AuthParses(m, e[..n]);
    assert Slice(e[..n], 0, |m.auth|) == e[..n];
  }

  /**
   A type octet outside the enumeration is a plain decoding failure: the error that the manager
   would answer with UNKNOWN_MSG_TYPE is never raised by the parser.
   */
  lemma UnknownTypeNotReported(d: Octets)
    requires |d| >= 2 && d[0] == START && TypeOf(d[1]).None?
    ensures forall tail :: Deserialize(d + tail) == Failed(UnknownType)
  {
    forall tail
      ensures Deserialize(d + tail) == Failed(UnknownType)
    {
      assert (d + tail)[0] == d[0] && (d + tail)[1] == d[1];
    }
  }
}
