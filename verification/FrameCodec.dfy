/** Frames, packFrame, and the streaming parser that resynchronises on a damaged line. */
module FrameCodec {
  import opened Crc

  const HEAD0: Byte := 0xAA
  const HEAD1: Byte := 0x55
  const OVERHEAD: nat := 7
  const MAX_PAYLOAD: nat := 32

  datatype Frame = Frame(kind: Byte, seqNo: Byte, payload: seq<Byte>)

  /** The length byte is a cast: longer payloads wrap modulo 256. */
  function LenByte(n: nat): Byte { (n % 256) as bv8 }

  function LenOf(b: Byte): nat { b as nat }

  lemma LenOfLenByte(n: nat)
    requires n < 256
    ensures LenOf(LenByte(n)) == n
  {}

  lemma {:induction false} LenByteOfLen(b: Byte)
    ensures LenOf(b) < 256 && LenByte(LenOf(b)) == b
  {
    var n := b as nat;
    assert n as bv8 == b;
    assert n % 256 == n;
  }

  /** What the checksum covers: type, length, sequence number and payload. */
  function Covered(f: Frame): seq<Byte> {
    [f.kind, LenByte(|f.payload|), f.seqNo] + f.payload
  }

  function Sum(body: seq<Byte>): bv16 { CrcFrom(INIT, body) }

  function Pack(f: Frame): (r: seq<Byte>)
    ensures |r| == OVERHEAD + |f.payload|
  {
    [HEAD0, HEAD1] + Covered(f) + [Low(Sum(Covered(f))), High(Sum(Covered(f)))]
  }

  /** The sender's counter, modulo 256. */
  function NextSeq(n: Byte): Byte { n + 1 }

  /** packFrame: pushes the bytes one group at a time and advances the caller's counter. */
  method PackFrame(kind: Byte, payload: seq<Byte>, seqNo: Byte) returns (out: seq<Byte>, next: Byte)
    ensures out == Pack(Frame(kind, seqNo, payload))
    ensures next == NextSeq(seqNo)
  {
    hide LenByte, Low, High;
    out := [HEAD0];
    out := out + [HEAD1];
    out := out + [kind];
    out := out + [LenByte(|payload|)];
    out := out + [seqNo];
    next := seqNo + 1;
    out := out + payload;
    assert out[2..] == Covered(Frame(kind, seqNo, payload));
    var crc := Crc16Modbus(out[2..]);
    out := out + [Low(crc)];
    out := out + [High(crc)];
  }

  /** The image in numbers: AA 55, type, length, sequence number, payload, and the checksum of
      all but the header, low byte first. */
  lemma {:induction false} PackLayout(f: Frame)
    requires |f.payload| <= 255
    ensures var raw := Pack(f); var n := |f.payload|; var crc := CrcFrom(0xFFFF, raw[2..n + 5]);
      && |raw| == n + 7
      && raw[0] == 0xAA && raw[1] == 0x55 && raw[2] == f.kind && raw[3] as nat == n && raw[4] == f.seqNo
      && raw[5..n + 5] == f.payload
      && (raw[n + 5] as bv16) | ((raw[n + 6] as bv16) << 8) == crc
  {
    hide LenByte, Low, High, CrcFrom;
    LenOfLenByte(|f.payload|);
    var raw, n := Pack(f), |f.payload|;
    assert raw[2..n + 5] == Covered(f);
    JoinOfParts(Sum(Covered(f)));
  }

  // ---------------------------------------------------------------- reference parser

  /** One maximal piece of the input, as the parser accounts for it. */
  datatype Item =
    | Skipped(b: Byte)        // dropped, counted once
    | Pseudo                  // AA 55 with an impossible length: two bytes, counted once
    | Good(frame: Frame)
    | Bad(raw: seq<Byte>)     // a whole frame whose checksum is wrong

  function ItemBytes(i: Item): seq<Byte> {
    match i
    case Skipped(b) => [b]
    case Pseudo => [HEAD0, HEAD1]
    case Good(f) => Pack(f)
    case Bad(raw) => raw
  }

  function Bytes(items: seq<Item>): seq<Byte> {
    if items == [] then [] else ItemBytes(items[0]) + Bytes(items[1..])
  }

  /** What a parser call reports: the frames, and the growth of its two error counters. */
  datatype Tally = Tally(frames: seq<Frame>, crcErr: nat, drop: nat)

  const NOTHING := Tally([], 0, 0)

  function Add(a: Tally, b: Tally): Tally {
    Tally(a.frames + b.frames, a.crcErr + b.crcErr, a.drop + b.drop)
  }

  function TallyOf(i: Item): Tally {
    match i
    case Skipped(_) => Tally([], 0, 1)
    case Pseudo => Tally([], 0, 1)
    case Good(f) => Tally([f], 0, 0)
    case Bad(_) => Tally([], 1, 0)
  }

  function Count(items: seq<Item>): Tally {
    if items == [] then NOTHING else Add(TallyOf(items[0]), Count(items[1..]))
  }

  predicate HasHeader(buf: seq<Byte>) { |buf| >= 2 && buf[0] == HEAD0 && buf[1] == HEAD1 }

  function FrameLen(buf: seq<Byte>): nat
    requires |buf| >= 4
  {
    OVERHEAD + LenOf(buf[3])
  }

  predicate LenLegal(buf: seq<Byte>)
    requires |buf| >= 4
  {
    LenOf(buf[3]) <= MAX_PAYLOAD
  }

  /** Nothing can be decided about buf until more bytes arrive. */
  predicate Waiting(buf: seq<Byte>) {
    || buf == []
    || buf == [HEAD0]
    || (HasHeader(buf) && (|buf| < 5 || (LenLegal(buf) && |buf| < FrameLen(buf))))
  }

  /** A whole frame at the front of buf, taken apart. */
  function FrontFrame(raw: seq<Byte>): Frame
    requires |raw| >= OVERHEAD
  {
    Frame(raw[2], raw[4], raw[5..|raw| - 2])
  }

  predicate FrontSumOk(raw: seq<Byte>)
    requires |raw| >= OVERHEAD
  {
    Sum(raw[2..|raw| - 2]) == Join(raw[|raw| - 2], raw[|raw| - 1])
  }

  function FrontItem(buf: seq<Byte>): (i: Item)
    requires !Waiting(buf)
  {
    if !HasHeader(buf) then Skipped(buf[0])
    else if !LenLegal(buf) then Pseudo
    else
      var raw := buf[..FrameLen(buf)];
      if FrontSumOk(raw) then Good(FrontFrame(raw)) else Bad(raw)
  }

  function FrontSize(buf: seq<Byte>): (n: nat)
    requires !Waiting(buf)
    ensures 0 < n <= |buf|
  {
    if !HasHeader(buf) then 1 else if !LenLegal(buf) then 2 else FrameLen(buf)
  }

  datatype Parsed = Parsed(items: seq<Item>, rest: seq<Byte>)

  /** The stream cut into items one at a time, byte by byte where no header is found. */
  function Parse(buf: seq<Byte>): (p: Parsed)
    ensures Waiting(p.rest)
    decreases |buf|
  {
    if Waiting(buf) then Parsed([], buf)
    else
      var p := Parse(buf[FrontSize(buf)..]);
      Parsed([FrontItem(buf)] + p.items, p.rest)
  }

  // ---------------------------------------------------------------- soundness

  lemma {:induction false} SplitRaw(raw: seq<Byte>)
    requires |raw| >= OVERHEAD && HasHeader(raw) && |raw| == OVERHEAD + LenOf(raw[3])
    ensures raw[2..|raw| - 2] == Covered(FrontFrame(raw))
    ensures raw == [HEAD0, HEAD1] + Covered(FrontFrame(raw)) + [raw[|raw| - 2], raw[|raw| - 1]]
  {
    hide LenByte, LenOf;
    LenByteOfLen(raw[3]);
  }

  /** The checksum of a cut-out frame holds exactly when the slice is the image packFrame
      makes of the fields read from it. */
  lemma {:induction false} SumOkIffPacked(raw: seq<Byte>)
    requires |raw| >= OVERHEAD && HasHeader(raw) && |raw| == OVERHEAD + LenOf(raw[3])
    ensures FrontSumOk(raw) <==> raw == Pack(FrontFrame(raw))
  {
    hide Join, Low, High, Sum, LenByte, LenOf;
    SplitRaw(raw);
    var f := FrontFrame(raw);
    var crc := Sum(Covered(f));
    var lo, hi := raw[|raw| - 2], raw[|raw| - 1];
    JoinOfParts(crc);
    PartsOfJoin(lo, hi);
    assert Pack(f)[|raw| - 2] == Low(crc) && Pack(f)[|raw| - 1] == High(crc);
  }

  lemma {:induction false} FrontItemBytes(buf: seq<Byte>)
    requires !Waiting(buf)
    ensures ItemBytes(FrontItem(buf)) == buf[..FrontSize(buf)]
  {
    hide FrontSumOk, Pack, LenOf;
    if HasHeader(buf) && LenLegal(buf) {
      SumOkIffPacked(buf[..FrameLen(buf)]);
    }
  }

  /** Soundness and conservation: the items, in order, are disjoint slices that together with
      the residual make up the whole input; a good item's slice is a packFrame image. */
  lemma {:induction false} ParseConserves(buf: seq<Byte>)
    ensures Bytes(Parse(buf).items) + Parse(buf).rest == buf
    decreases |buf|
  {
    hide FrontItem, FrontSize, ItemBytes, Waiting;
    if !Waiting(buf) {
      var n := FrontSize(buf);
      FrontItemBytes(buf);
      ParseConserves(buf[n..]);
      var p := Parse(buf[n..]);
      assert ([FrontItem(buf)] + p.items)[1..] == p.items;
      assert buf == buf[..n] + buf[n..];
    }
  }

  /** Total length of the frames among the items, good and bad. */
  function FrameBytes(items: seq<Item>): nat {
    if items == [] then 0
    else (if items[0].Good? || items[0].Bad? then |ItemBytes(items[0])| else 0) + FrameBytes(items[1..])
  }

  function Pseudos(items: seq<Item>): nat {
    if items == [] then 0 else (if items[0].Pseudo? then 1 else 0) + Pseudos(items[1..])
  }

  /** The byte accounts: a pseudo header takes two bytes off the stream but adds one to drop. */
  lemma {:induction false} ByteAccounts(buf: seq<Byte>)
    ensures var p := Parse(buf);
      |buf| == |p.rest| + FrameBytes(p.items) + Count(p.items).drop + Pseudos(p.items)
  {
    hide Parse, Pack;
    ParseConserves(buf);
    ItemAccounts(Parse(buf).items);
  }

  lemma {:induction false} ItemAccounts(items: seq<Item>)
    ensures |Bytes(items)| == FrameBytes(items) + Count(items).drop + Pseudos(items)
  {
    hide Pack;
    if items != [] {
      ItemAccounts(items[1..]);
    }
  }
}
