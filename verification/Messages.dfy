/** The frames between portport client and portport server: printer and parser. */
module Messages {
  import opened Wire
  import Utf8

  datatype MessageType =
    | CreateRelay | DestroyRelay | NewConnection | CloseConnection | Data
    | OpenRelay | Error | Auth | AuthSuccess

  datatype ErrorType =
    | NoError | RelayDoesNotExist | AuthFailure | RelayFailurePortExhaustion
    | InvalidMsgVersion | UnknownMsgType

  const VERSION: int := 1
  const START: Octet := 0x40  // '@'

  /** One message object; a field its kind does not carry keeps its default. */
  datatype Message = Message(
    kind: MessageType, ip: Ip, port: int, relayPort: int,
    data: Octets, version: int, error: ErrorType, auth: string)

  function Default(kind: MessageType): Message {
    Message(kind, ANY_IP, -1, -1, [], VERSION, NoError, "")
  }

  /** The message with every field that its kind does not put on the wire reset to its default. */
  function Carried(m: Message): Message {
    var d := Default(m.kind).(version := m.version);
    match m.kind
    case Error => d.(error := m.error)
    case Auth => d.(auth := m.auth)
    case CreateRelay | AuthSuccess => d
    case OpenRelay | DestroyRelay => d.(relayPort := m.relayPort)
    case NewConnection | CloseConnection => d.(ip := m.ip, port := m.port, relayPort := m.relayPort)
    case Data => d.(ip := m.ip, port := m.port, relayPort := m.relayPort, data := m.data)
  }

  /** IntEnum values; `auto()` counts from one. */
  function TypeCode(t: MessageType): Octet {
    match t
    case CreateRelay => 1
    case DestroyRelay => 2
    case NewConnection => 3
    case CloseConnection => 4
    case Data => 5
    case OpenRelay => 6
    case Error => 7
    case Auth => 8
    case AuthSuccess => 9
  }

  function TypeOf(code: Octet): Option<MessageType> {
    match code
    case 1 => Some(CreateRelay)
    case 2 => Some(DestroyRelay)
    case 3 => Some(NewConnection)
    case 4 => Some(CloseConnection)
    case 5 => Some(Data)
    case 6 => Some(OpenRelay)
    case 7 => Some(Error)
    case 8 => Some(Auth)
    case 9 => Some(AuthSuccess)
    case _ => None
  }

  function ErrorCode(e: ErrorType): Octet {
    match e
    case NoError => 1
    case RelayDoesNotExist => 2
    case AuthFailure => 3
    case RelayFailurePortExhaustion => 4
    case InvalidMsgVersion => 5
    case UnknownMsgType => 6
  }

  function ErrorOf(code: Octet): Option<ErrorType> {
    match code
    case 1 => Some(NoError)
    case 2 => Some(RelayDoesNotExist)
    case 3 => Some(AuthFailure)
    case 4 => Some(RelayFailurePortExhaustion)
    case 5 => Some(InvalidMsgVersion)
    case 6 => Some(UnknownMsgType)
    case _ => None
  }

  // ---------------------------------------------------------------- printer

  /** The fields that `struct.pack` accepts. */
  predicate Encodable(m: Message) {
    && 0 <= m.version < 0x100
    && match m.kind
       case Error | CreateRelay | AuthSuccess => true
       case Auth => InU16(|m.auth|)
       case OpenRelay | DestroyRelay => InU16(m.relayPort)
       case NewConnection | CloseConnection => InU16(m.port) && InU16(m.relayPort)
       case Data => InU16(m.port) && InU16(m.relayPort) && InU32(|m.data|)
  }

  function Header(m: Message): (r: Octets)
    requires 0 <= m.version < 0x100
    ensures |r| == 3
  {
    [START, TypeCode(m.kind), m.version]
  }

  /** The family octet, the raw address and the two ports. */
  function AddressBlock(m: Message): (r: Octets)
    requires InU16(m.port) && InU16(m.relayPort)
    ensures |r| == |m.ip| + 5
  {
    [if |m.ip| == 16 then 6 else 4] + m.ip + PackU16(m.port) + PackU16(m.relayPort)
  }

  function Body(m: Message): Octets
    requires Encodable(m)
  {
    match m.kind
    case Error => [ErrorCode(m.error)]
    case Auth => PackU16(|m.auth|) + Utf8.Encode(m.auth)  // the length counts characters
    case Data => AddressBlock(m) + PackU32(|m.data|) + m.data
    case CreateRelay | AuthSuccess => []
    case OpenRelay | DestroyRelay => PackU16(m.relayPort)
    case NewConnection | CloseConnection => AddressBlock(m)
  }

  /** `serialize`; None where `struct.pack` raises. */
  function Serialize(m: Message): Option<Octets> {
    if Encodable(m) then Some(Header(m) + Body(m)) else None
  }

  /** The octets of a message that can be sent. */
  function Frame(m: Message): (r: Octets)
    requires Encodable(m)
    ensures |r| >= 3
  {
    Serialize(m).value
  }

  // ----------------------------------------------------------------- parser

  datatype DecodeError =
    | EmptyStream | InvalidStream
    | UnknownType          // ValueError of the type enumeration
    | BadVersion(version: Octet)
    | UnknownErrorCode     // ValueError of the error enumeration
    | UnknownAddressType | BadAddress
    | Truncated            // IndexError, or struct.error on a short slice
    | IncompleteFrame
    | BadToken             // UnicodeDecodeError

  datatype Decoded =
    | Got(msg: Message, rest: Octets)
    | Failed(error: DecodeError)

  /** The fields that the wire carries as 16-bit numbers are in range in any decoded message. */
  predicate PortsInRange(m: Message) {
    match m.kind
    case NewConnection | CloseConnection | Data => InU16(m.port) && InU16(m.relayPort)
    case OpenRelay | DestroyRelay => InU16(m.relayPort)
    case _ => true
  }

  /** `deserialize`, check by check in the order of the source. */
  function Deserialize(d: Octets): (r: Decoded)
    ensures r.Got? ==> PortsInRange(r.msg) && |r.rest| + 3 <= |d|
  {
    if d == [] then Failed(EmptyStream)
    else if d[0] != START then Failed(InvalidStream)
    else if |d| < 2 then Failed(Truncated)
    else match TypeOf(d[1])
      case None => Failed(UnknownType)
      case Some(kind) =>
        if |d| < 3 then Failed(Truncated)
        else if d[2] != VERSION then Failed(BadVersion(d[2]))
        else DeserializeBody(kind, d)
  }

  function DeserializeBody(kind: MessageType, d: Octets): (r: Decoded)
    requires |d| >= 3
    ensures r.Got? ==> r.msg.kind == kind && PortsInRange(r.msg) && |r.rest| + 3 <= |d|
    ensures r.Failed? ==> !r.error.BadVersion?
  {
    match kind
    case Error =>
      if |d| < 4 then Failed(Truncated)
      else (match ErrorOf(d[3])
            case None => Failed(UnknownErrorCode)
            case Some(e) => Got(Default(Error).(error := e), Drop(d, 4)))
    case Auth => DeserializeAuth(d)
    case CreateRelay | AuthSuccess => Got(Default(kind), Drop(d, 3))
    case OpenRelay | DestroyRelay =>
      (match UnpackU16(Slice(d, 3, 5))
       case None => Failed(Truncated)
       case Some(relayPort) => Got(Default(kind).(relayPort := relayPort), Drop(d, 5)))
    case NewConnection | CloseConnection | Data => DeserializeAddressed(kind, d)
  }

  /** The token is sliced without a length check, so a cut token passes. */
  function DeserializeAuth(d: Octets): (r: Decoded)
    requires |d| >= 3
    ensures r.Got? ==> r.msg.kind == Auth && |r.rest| + 3 <= |d|
    ensures r.Failed? ==> !r.error.BadVersion?
  {
    match UnpackU16(Slice(d, 3, 5))
    case None => Failed(Truncated)
    case Some(length) =>
      match Utf8.Decode(Slice(d, 5, 5 + length))
      case None => Failed(BadToken)
      case Some(auth) => Got(Default(Auth).(auth := auth), Drop(d, 5 + length))
  }

  datatype AddressFields =
    | Address(ip: Ip, port: int, relayPort: int, offset: nat)
    | NoAddress(error: DecodeError)

  /** The family octet at position 3, the address and the two ports; `offset` is where they end. */
  function ParseAddress(d: Octets): (r: AddressFields)
    ensures r.Address? ==> r.offset == 8 + |r.ip| <= |d| && InU16(r.port) && InU16(r.relayPort)
    ensures r.NoAddress? ==> !r.error.BadVersion?
  {
    if |d| < 4 then NoAddress(Truncated)
    else if d[3] != 6 && d[3] != 4 then NoAddress(UnknownAddressType)
    else
      var size: nat := if d[3] == 6 then 16 else 4;
      var ip := Slice(d, 4, 4 + size);
      if |ip| != size then NoAddress(BadAddress)
      else match UnpackU16(Slice(d, 4 + size, 6 + size))
        case None => NoAddress(Truncated)
        case Some(port) =>
          match UnpackU16(Slice(d, 6 + size, 8 + size))
          case None => NoAddress(Truncated)
          case Some(relayPort) => Address(ip, port, relayPort, 8 + size)
  }

  function DeserializeAddressed(kind: MessageType, d: Octets): (r: Decoded)
    requires |d| >= 3
    ensures r.Got? ==> r.msg.kind == kind && InU16(r.msg.port) && InU16(r.msg.relayPort) && |r.rest| + 3 <= |d|
    ensures r.Failed? ==> !r.error.BadVersion?
  {
    match ParseAddress(d)
    case NoAddress(e) => Failed(e)
    case Address(ip, port, relayPort, offset) =>
      DeserializePayload(Default(kind).(ip := ip, port := port, relayPort := relayPort), d, offset)
  }

  function DeserializePayload(m: Message, d: Octets, offset: nat): (r: Decoded)
    requires 3 <= offset <= |d|
    ensures r.Got? ==> |r.rest| + 3 <= |d|
    ensures r.Got? ==> r.msg == m.(data := r.msg.data)
    ensures r.Failed? ==> !r.error.BadVersion?
  {
    if m.kind != Data then Got(m, Drop(d, offset))
    else match UnpackU32(Slice(d, offset, offset + 4))
      case None => Failed(Truncated)
      case Some(length) =>
        var data := Slice(d, offset + 4, offset + 4 + length);
        if |data| != length then Failed(IncompleteFrame)
        else Got(m.(data := data), Drop(d, offset + 4 + length))
  }
}
