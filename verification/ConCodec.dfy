/** The four-byte CON payload. */
module ConCodec {
  import opened Crc
  import opened ConSm
  import opened Optional

  const SENDER_BOARD: Byte := 0x01
  const SENDER_HOST: Byte := 0x02
  const PROTOCOL_TYPE: Byte := 0x03
  const PROTOCOL_VERSION: Byte := 0x01

  datatype Con = Con(sender: Byte, msg: Msg)

  function MsgByte(m: Msg): Byte {
    match m
    case EnableRequest => 0
    case EnableResponse => 1
    case DisableRequest => 2
    case DisableResponse => 3
    case PingRequest => 4
    case PingResponse => 5
  }

  function MsgOf(b: Byte): Option<Msg> {
    if b == 0 then Some(EnableRequest) else if b == 1 then Some(EnableResponse)
    else if b == 2 then Some(DisableRequest) else if b == 3 then Some(DisableResponse)
    else if b == 4 then Some(PingRequest) else if b == 5 then Some(PingResponse) else None
  }

  function PackCon(c: Con): seq<Byte> {
    [c.sender, PROTOCOL_TYPE, MsgByte(c.msg), PROTOCOL_VERSION]
  }

  function UnpackCon(payload: seq<Byte>): Option<Con> {
    if |payload| != 4 || payload[1] != PROTOCOL_TYPE || payload[2] > 5 || payload[3] != PROTOCOL_VERSION
    then None
    else
      match MsgOf(payload[2])
      case Some(m) => Some(Con(payload[0], m))
      case None => None
  }

  /** What the host makes of a CON payload: its own echo is ignored. */
  function HostAccepts(payload: seq<Byte>): Option<Msg> {
    match UnpackCon(payload)
    case None => None
    case Some(c) => if c.sender == SENDER_HOST then None else Some(c.msg)
  }

  /** What the board makes of one: only a host's messages count. */
  function BoardAccepts(payload: seq<Byte>): Option<Msg> {
    match UnpackCon(payload)
    case None => None
    case Some(c) => if c.sender == SENDER_HOST then Some(c.msg) else None
  }

  /** Each side hears exactly the other, even when the line echoes. */
  lemma {:induction false} EachHearsTheOther(m: Msg)
    ensures var fromHost, fromBoard := PackCon(Con(SENDER_HOST, m)), PackCon(Con(SENDER_BOARD, m));
      && BoardAccepts(fromHost) == Some(m) && HostAccepts(fromHost) == None
      && HostAccepts(fromBoard) == Some(m) && BoardAccepts(fromBoard) == None
  {
    ConRoundTrip(PackCon(Con(SENDER_HOST, m)), Con(SENDER_HOST, m));
    ConRoundTrip(PackCon(Con(SENDER_BOARD, m)), Con(SENDER_BOARD, m));
  }

  lemma MsgBytes(b: Byte, m: Msg)
    ensures b <= 5 <==> MsgOf(b).Some?
    ensures MsgOf(b) == Some(m) <==> b == MsgByte(m)
  {}

  /** The payloads in numbers: sender, protocol 3, message 0 to 5, version 1. */
  lemma ConLayout(sender: Byte)
    ensures PackCon(Con(sender, EnableRequest)) == [sender, 3, 0, 1]
    ensures PackCon(Con(sender, EnableResponse)) == [sender, 3, 1, 1]
    ensures PackCon(Con(sender, DisableRequest)) == [sender, 3, 2, 1]
    ensures PackCon(Con(sender, DisableResponse)) == [sender, 3, 3, 1]
    ensures PackCon(Con(sender, PingRequest)) == [sender, 3, 4, 1]
    ensures PackCon(Con(sender, PingResponse)) == [sender, 3, 5, 1]
    ensures HostAccepts([1, 3, 1, 1]) == Some(EnableResponse) && BoardAccepts([2, 3, 4, 1]) == Some(PingRequest)
  {}

  /** A payload is accepted as c exactly when it is the image of c. */
  lemma {:induction false} ConRoundTrip(payload: seq<Byte>, c: Con)
    ensures UnpackCon(payload) == Some(c) <==> payload == PackCon(c)
  {
    MsgBytes(MsgByte(c.msg), c.msg);
    if |payload| == 4 {
      MsgBytes(payload[2], c.msg);
    }
  }
}
