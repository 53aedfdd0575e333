/** From the operator to the board: every velocity frame the board's parser can hold was asked
    for by a command that was still in force when it was sent. */
module EndToEnd {
  import opened Optional
  import opened Crc
  import opened FrameCodec
  import opened Parser
  import Line
  import SerialPort
  import ConCodec
  import ConSm
  import ChassisHost
  import HostRuns

  type Float = ChassisHost.Float
  type Speeds = ChassisHost.Speeds
  type Out = ChassisHost.Out
  type Moment = ChassisHost.Moment
  type Options = ChassisHost.Options

  // ---------------------------------------------------------------- frames of the host

  const CON: Byte := 0x06
  const CMD_VEL: Byte := 0x81
  const CMD_STOP: Byte := 0x82
  const CMD_EN: Byte := 0x83
  const CMD_PID: Byte := 0x84
  const CMD_SIGN: Byte := 0x85
  const CMD_TWIST: Byte := 0x86
  const CMD_PING: Byte := 0x8F

  function Word(x: bv32): (r: seq<Byte>)
    ensures |r| == 4
  {
    [(x & 0xFF) as bv8, ((x >> 8) & 0xFF) as bv8, ((x >> 16) & 0xFF) as bv8, ((x >> 24) & 0xFF) as bv8]
  }

  function WordOf(p: seq<Byte>): bv32
    requires |p| == 4
  {
    (p[0] as bv32) | ((p[1] as bv32) << 8) | ((p[2] as bv32) << 16) | ((p[3] as bv32) << 24)
  }

  lemma WordRoundTrip(x: bv32)
    ensures WordOf(Word(x)) == x
  {}

  function HalfWord(x: bv16): seq<Byte> { [Low(x), High(x)] }

  function Sign(forward: bool): Byte { if forward then 0x01 else 0xFF }

  function Words(v: Speeds): (r: seq<Byte>)
    ensures |r| == 12
  {
    Word(v.a) + Word(v.b) + Word(v.c)
  }

  function KindOf(f: Out): Byte {
    match f
    case CmdTwist(_) => CMD_TWIST
    case CmdVel(_) => CMD_VEL
    case CmdStop => CMD_STOP
    case CmdEn(_) => CMD_EN
    case CmdPid(_) => CMD_PID
    case CmdSign(_) => CMD_SIGN
    case CmdPing(_) => CMD_PING
    case ConFrame(_) => CON
  }

  /** The payload; round is the scaling of a wheel speed to a 16-bit number of tenths. */
  function PayloadOf(f: Out, round: Float -> bv16): (r: seq<Byte>)
    ensures |r| <= MAX_PAYLOAD
  {
    match f
    case CmdTwist(v) => Words(v)
    case CmdVel(v) => HalfWord(round(v.a)) + HalfWord(round(v.b)) + HalfWord(round(v.c))
    case CmdStop => []
    case CmdEn(on) => [if on then 1 else 0]
    case CmdPid(gains) => Words(gains)
    case CmdSign(s) => [Sign(s.a), Sign(s.b), Sign(s.c)]
    case CmdPing(id) => Word((id % 0x1_0000_0000) as bv32)
    case ConFrame(m) => ConCodec.PackCon(ConCodec.Con(ConCodec.SENDER_HOST, m))
  }

  predicate Images(g: Frame, f: Out, round: Float -> bv16) {
    g.kind == KindOf(f) && g.payload == PayloadOf(f, round)
  }

  /** What a board makes of a frame, by its kind and length. */
  datatype Order =
    | Wheels(a: bv16, b: bv16, c: bv16)
    | Move(v: Speeds)
    | Brake
    | Enable(on: bool)
    | Gains(v: Speeds)
    | Directions(first: Byte, second: Byte, third: Byte)
    | Echo(id: bv32)
    | Link(msg: ConSm.Msg)
    | Nothing

  function SpeedsOf(p: seq<Byte>): Speeds
    requires |p| == 12
  {
    ChassisHost.Speeds(WordOf(p[..4]), WordOf(p[4..8]), WordOf(p[8..]))
  }

  function HalfOf(lo: Byte, hi: Byte): bv16 { (lo as bv16) | ((hi as bv16) << 8) }

  function OrderOf(g: Frame): Order {
    var p := g.payload;
    if g.kind == 0x81 && |p| == 6 then Wheels(HalfOf(p[0], p[1]), HalfOf(p[2], p[3]), HalfOf(p[4], p[5]))
    else if g.kind == 0x82 then Brake
    else if g.kind == 0x83 && |p| == 1 then Enable(p[0] == 1)
    else if g.kind == 0x84 && |p| == 12 then Gains(SpeedsOf(p))
    else if g.kind == 0x85 && |p| == 3 then Directions(p[0], p[1], p[2])
    else if g.kind == 0x86 && |p| == 12 then Move(SpeedsOf(p))
    else if g.kind == 0x8F && |p| == 4 then Echo(WordOf(p))
    else if g.kind == 0x06 then
      match ConCodec.BoardAccepts(p)
      case Some(m) => Link(m)
      case None => Nothing
    else Nothing
  }

  /** The order a frame of the host is meant to give. */
  function Meant(f: Out, round: Float -> bv16): Order {
    match f
    case CmdTwist(v) => Move(v)
    case CmdVel(v) => Wheels(round(v.a), round(v.b), round(v.c))
    case CmdStop => Brake
    case CmdEn(on) => Enable(on)
    case CmdPid(gains) => Gains(gains)
    case CmdSign(s) =>
      Directions(if s.a then 0x01 else 0xFF, if s.b then 0x01 else 0xFF, if s.c then 0x01 else 0xFF)
    case CmdPing(id) => Echo((id % 0x1_0000_0000) as bv32)
    case ConFrame(m) => Link(m)
  }

  lemma HalfRoundTrip(x: bv16)
    ensures HalfOf(Low(x), High(x)) == x
  {}

  lemma {:induction false} WordsArrive(v: Speeds)
    ensures SpeedsOf(Words(v)) == v
  {
    hide Word, WordOf;
    var p := Words(v);
    assert p[..4] == Word(v.a) && p[4..8] == Word(v.b) && p[8..] == Word(v.c);
    WordRoundTrip(v.a);
    WordRoundTrip(v.b);
    WordRoundTrip(v.c);
  }

  lemma {:induction false} WheelsArrive(g: Frame, v: Speeds, round: Float -> bv16)
    requires Images(g, ChassisHost.CmdVel(v), round)
    ensures OrderOf(g) == Wheels(round(v.a), round(v.b), round(v.c))
  {
    hide Word, WordOf, Words, SpeedsOf, HalfOf, Low, High, ConCodec.BoardAccepts;
    HalfRoundTrip(round(v.a));
    HalfRoundTrip(round(v.b));
    HalfRoundTrip(round(v.c));
  }

  lemma {:induction false} PingArrives(g: Frame, id: nat, round: Float -> bv16)
    requires Images(g, ChassisHost.CmdPing(id), round)
    ensures OrderOf(g) == Echo((id % 0x1_0000_0000) as bv32)
  {
    hide Word, WordOf, Words, SpeedsOf, HalfOf, ConCodec.BoardAccepts;
    WordRoundTrip((id % 0x1_0000_0000) as bv32);
  }

  lemma {:induction false} ConArrives(g: Frame, m: ConSm.Msg, round: Float -> bv16)
    requires Images(g, ChassisHost.ConFrame(m), round)
    ensures OrderOf(g) == Link(m)
  {
    hide Word, WordOf, Words, SpeedsOf, HalfOf, ConCodec.BoardAccepts, ConCodec.PackCon;
    ConCodec.EachHearsTheOther(m);
  }

  lemma {:induction false} VectorArrives(g: Frame, v: Speeds)
    requires g.payload == Words(v) && (g.kind == CMD_TWIST || g.kind == CMD_PID)
    ensures OrderOf(g) == if g.kind == CMD_TWIST then Move(v) else Gains(v)
  {
    hide Word, WordOf, Words, SpeedsOf, HalfOf, ConCodec.BoardAccepts;
    WordsArrive(v);
  }

  lemma {:induction false} SmallArrives(g: Frame, f: Out, round: Float -> bv16)
    requires Images(g, f, round) && (f.CmdStop? || f.CmdEn? || f.CmdSign?)
    ensures OrderOf(g) == Meant(f, round)
  {
    hide Word, WordOf, Words, SpeedsOf, HalfOf, ConCodec.BoardAccepts, ConCodec.PackCon;
  }

  /** Every frame of the host is read by the board as what it was meant to say. */
  lemma {:induction false} OrderArrives(g: Frame, f: Out, round: Float -> bv16)
    requires Images(g, f, round)
    ensures OrderOf(g) == Meant(f, round)
  {
    hide OrderOf, Word, Words, Low, High, HalfWord, ConCodec.PackCon;
    match f
    case CmdTwist(v) => VectorArrives(g, v);
    case CmdPid(gains) => VectorArrives(g, gains);
    case CmdVel(v) => WheelsArrive(g, v, round);
    case CmdPing(id) => PingArrives(g, id, round);
    case ConFrame(m) => ConArrives(g, m, round);
    case _ => SmallArrives(g, f, round);
  }

  // ---------------------------------------------------------------- host and port together

  /** Event j of the run handed over f. */
  datatype Origin = Origin(j: nat, f: Out)

  lemma {:induction false} StateOfPrefix(past: seq<Moment>, m: Moment, i: nat, opts: Options)
    requires i <= |past|
    ensures HostRuns.StateAt(ChassisHost.START, past + [m], i, opts) == HostRuns.StateAt(ChassisHost.START, past, i, opts)
    ensures i < |past| ==>
      HostRuns.OutAt(ChassisHost.START, past + [m], i, opts) == HostRuns.OutAt(ChassisHost.START, past, i, opts)
    decreases i
  {
    hide ChassisHost.Handle;
    if i > 0 {
      StateOfPrefix(past, m, i - 1, opts);
    }
  }

  lemma {:induction false} RunGrows(past: seq<Moment>, m: Moment, opts: Options)
    requires HostRuns.Feasible(ChassisHost.START, past, opts)
    requires ChassisHost.Possible(HostRuns.StateAt(ChassisHost.START, past, |past|, opts), m.event)
    ensures var h := HostRuns.StateAt(ChassisHost.START, past, |past|, opts); var ms := past + [m];
      && HostRuns.Feasible(ChassisHost.START, ms, opts)
      && HostRuns.StateAt(ChassisHost.START, ms, |ms|, opts) == ChassisHost.Handle(h, m, opts).host
      && HostRuns.OutAt(ChassisHost.START, ms, |past|, opts) == ChassisHost.Handle(h, m, opts).out
  {
    hide ChassisHost.Handle, ChassisHost.Possible;
    var ms := past + [m];
    forall i | 0 <= i <= |past|
      ensures HostRuns.StateAt(ChassisHost.START, ms, i, opts) == HostRuns.StateAt(ChassisHost.START, past, i, opts)
    {
      StateOfPrefix(past, m, i, opts);
    }
  }

  function Tagged(j: nat, out: seq<Out>): seq<Origin> {
    seq(|out|, i requires 0 <= i < |out| => Origin(j, out[i]))
  }

  /** All frames handed over by the events from a up to b, in order. */
  function Handover(past: seq<Moment>, a: nat, b: nat, opts: Options): seq<Origin>
    requires b <= |past|
    decreases b
  {
    if b <= a then []
    else Handover(past, a, b - 1, opts) + Tagged(b - 1, HostRuns.OutAt(ChassisHost.START, past, b - 1, opts))
  }

  lemma {:induction false} HandoverGrows(past: seq<Moment>, m: Moment, a: nat, b: nat, opts: Options)
    requires b <= |past|
    ensures Handover(past + [m], a, b, opts) == Handover(past, a, b, opts)
    decreases b
  {
    hide HostRuns.OutAt, Tagged;
    if b > a {
      HandoverGrows(past, m, a, b - 1, opts);
      StateOfPrefix(past, m, b - 1, opts);
    }
  }

  ghost predicate Handed(past: seq<Moment>, o: Origin, opts: Options) {
    o.j < |past| && o.f in HostRuns.OutAt(ChassisHost.START, past, o.j, opts)
  }

  lemma {:induction false} HandoverIsHanded(past: seq<Moment>, a: nat, b: nat, opts: Options)
    requires b <= |past|
    ensures forall o :: o in Handover(past, a, b, opts) ==> Handed(past, o, opts) && a <= o.j < b
    ensures forall j, f :: a <= j < b && f in HostRuns.OutAt(ChassisHost.START, past, j, opts) ==>
              Origin(j, f) in Handover(past, a, b, opts)
    decreases b
  {
    hide HostRuns.OutAt;
    if b > a {
      HandoverIsHanded(past, a, b - 1, opts);
      var out := HostRuns.OutAt(ChassisHost.START, past, b - 1, opts);
      forall f | f in out
        ensures Origin(b - 1, f) in Tagged(b - 1, out)
      {
        var i :| 0 <= i < |out| && out[i] == f;
        assert Tagged(b - 1, out)[i] == Origin(b - 1, f);
      }
    }
  }

  class Station {
    const opts: Options
    const round: Float -> bv16
    const uplink: SerialPort.Uplink
    var host: ChassisHost.Host
    ghost var past: seq<Moment>
    ghost var since: nat             // how many events preceded the opening of the port
    ghost var origins: seq<Origin>   // where the frames on the open port come from

    ghost predicate Valid()
      reads this, uplink, uplink.port
    {
      && uplink.Valid()
      && HostRuns.Feasible(ChassisHost.START, past, opts)
      && host == HostRuns.StateAt(ChassisHost.START, past, |past|, opts)
      && since <= |past|
      && (uplink.port.open ==>
            Traced() && origins == Handover(past, since, |past|, opts))
    }

    /** The frames sent since the port was opened are the images of origins, in order. */
    ghost predicate Traced()
      reads this, uplink
    {
      && |origins| == |uplink.frames|
      && forall i :: 0 <= i < |origins| ==> Images(uplink.frames[i], origins[i].f, round)
    }

    constructor (o: Options, r: Float -> bv16, u: SerialPort.Uplink)
      requires u.Valid() && !u.port.open
      ensures Valid() && opts == o && round == r && uplink == u
    {
      opts, round, uplink := o, r, u;
      host, past, origins, since := ChassisHost.START, [], [], 0;
    }

    /** One event of the host: the frames it hands over go to the port in their order. */
    method Event(m: Moment, ws: seq<SerialPort.WriteResult>)
      requires Valid() && ChassisHost.Possible(host, m.event)
      requires var out := ChassisHost.Handle(host, m, opts).out;
        |ws| == |out| && forall i :: 0 <= i < |ws| ==> SerialPort.WriteFits(ws[i], OVERHEAD + |PayloadOf(out[i], round)|)
      modifies this, uplink, uplink.port
      ensures Valid() && past == old(past) + [m]
      ensures host == ChassisHost.Handle(old(host), m, opts).host
    {
      hide ChassisHost.Handle, HostRuns.Feasible, HostRuns.OutAt, HostRuns.StateAt, PayloadOf, KindOf, Handover, Tagged;
      var r := ChassisHost.Handle(host, m, opts);
      RunGrows(past, m, opts);
      ghost var j := |past|;
      ghost var before := origins;
      ghost var out := HostRuns.OutAt(ChassisHost.START, past + [m], j, opts);
      HandoverStep(past, m, since, opts);
      host := r.host;
      past := past + [m];
      TaggedStart(j);
      for i := 0 to |r.out|
        invariant uplink.Valid() && host == r.host && past == old(past) + [m] && since == old(since)
        invariant uplink.port.open ==> old(uplink.port.open) && Traced() && origins == before + Tagged(j, out[..i])
      {
        TaggedNext(j, out, i);
        Forward(r.out[i], ws[i], j);
      }
      assert out[..|out|] == out;
    }

    /** One frame, handed over by event j, on its way to the port. */
    method Forward(f: Out, w: SerialPort.WriteResult, ghost j: nat)
      requires uplink.Valid() && (uplink.port.open ==> Traced())
      requires SerialPort.WriteFits(w, OVERHEAD + |PayloadOf(f, round)|)
      modifies this`origins, uplink, uplink.port
      ensures uplink.Valid()
      ensures uplink.port.open ==> old(uplink.port.open) && Traced() && origins == old(origins) + [Origin(j, f)]
    {
      hide PayloadOf, KindOf;
      var sent := uplink.SendFrame(KindOf(f), PayloadOf(f, round), w);
      if sent {
        origins := origins + [Origin(j, f)];
      }
    }

    method Open(available: bool) returns (ok: bool)
      requires Valid()
      modifies this`origins, this`since, uplink, uplink.port
      ensures Valid() && ok == uplink.port.open == (old(uplink.port.open) || available)
    {
      hide HostRuns.Feasible, HostRuns.StateAt;
      if !uplink.port.open {
        origins := [];
        since := |past|;
      }
      ok := uplink.Open(available);
    }

    method Writable(w: SerialPort.WriteResult)
      requires Valid() && SerialPort.WriteFits(w, |uplink.port.outputBuffer|)
      modifies uplink.port
      ensures Valid()
    {
      hide HostRuns.Feasible, HostRuns.StateAt;
      uplink.Writable(w);
    }
  }

  lemma {:induction false} HandoverStep(past: seq<Moment>, m: Moment, since: nat, opts: Options)
    requires since <= |past|
    ensures Handover(past + [m], since, |past| + 1, opts)
         == Handover(past, since, |past|, opts)
            + Tagged(|past|, HostRuns.OutAt(ChassisHost.START, past + [m], |past|, opts))
  {
    hide HostRuns.OutAt, Tagged;
    HandoverGrows(past, m, since, |past|, opts);
  }

  lemma TaggedStart(j: nat)
    ensures Tagged(j, []) == []
  {}

  lemma TaggedNext(j: nat, out: seq<Out>, i: nat)
    requires i < |out|
    ensures Tagged(j, out[..i + 1]) == Tagged(j, out[..i]) + [Origin(j, out[i])]
  {}

  // ---------------------------------------------------------------- what the board holds

  lemma {:induction false} GoodsAt(fs: seq<Frame>, n: nat)
    ensures |Line.Goods(fs)| == |fs|
    ensures n < |fs| ==> Line.Goods(fs)[n] == Good(fs[n])
  {
    if fs != [] {
      GoodsAt(fs[1..], if n > 0 then n - 1 else 0);
    }
  }

  /** Item n of the board is the image of frame n handed over since the port was opened, and
      reads as it was meant; and once all has drained and arrived it has an item for each. */
  lemma {:induction false} BoardHoldsHandover(st: Station, chunks: seq<seq<Byte>>)
    requires st.Valid() && st.uplink.port.open && Concat(chunks) <= st.uplink.port.accepted
    ensures var items := FeedChunks([], chunks).items; var os := Handover(st.past, st.since, |st.past|, st.opts);
      && |items| <= |os|
      && (forall n :: 0 <= n < |items| ==>
            items[n].Good? && Images(items[n].frame, os[n].f, st.round)
            && OrderOf(items[n].frame) == Meant(os[n].f, st.round))
      && (st.uplink.port.outputBuffer == [] && Concat(chunks) == st.uplink.port.accepted ==> |items| == |os|)
  {
    hide HostRuns.StateAt, HostRuns.Feasible, FeedChunks, Concat, Handover, Images, OrderOf, Meant;
    SerialPort.Delivery(st.uplink, chunks);
    var k := Line.WholeFrames(st.uplink.frames, |Concat(chunks)|);
    var fs := st.uplink.frames[..k];
    var items := FeedChunks([], chunks).items;
    GoodsAt(fs, 0);
    forall n | 0 <= n < |items|
      ensures items[n].Good? && Images(items[n].frame, st.origins[n].f, st.round)
      ensures OrderOf(items[n].frame) == Meant(st.origins[n].f, st.round)
    {
      GoodsAt(fs, n);
      OrderArrives(fs[n], st.origins[n].f, st.round);
    }
  }

  /** d, set by connection c in event i, is in force at event j: nothing has revoked it, its
      connection is open, the link is ready and the motors are not disabled. */
  ghost predicate InForce(past: seq<Moment>, i: nat, j: nat, c: ChassisHost.Conn, d: ChassisHost.Drive, opts: Options)
    requires j <= |past|
  {
    var s := HostRuns.StateAt(ChassisHost.START, past, j, opts);
    && HostRuns.Stands(ChassisHost.START, past, i, j, c, d, opts)
    && c in s.conns && s.link.IsReady() && !s.disabled
  }

  /** The order o is a velocity command that was in force in event j. */
  ghost predicate Justified(past: seq<Moment>, i: nat, j: nat, c: ChassisHost.Conn, d: ChassisHost.Drive,
                            o: Order, round: Float -> bv16, opts: Options)
  {
    && j < |past| && past[j].event == ChassisHost.RepeatTimer
    && InForce(past, i, j, c, d, opts)
    && match d
       case Rest => false
       case Twist(v) => o == Move(v)
       case Rpm(v) => o == Wheels(round(v.a), round(v.b), round(v.c))
  }

  lemma {:induction false} HandedIsJustified(past: seq<Moment>, o: Origin, round: Float -> bv16, opts: Options)
    requires HostRuns.Feasible(ChassisHost.START, past, opts) && Handed(past, o, opts)
    requires Meant(o.f, round).Move? || Meant(o.f, round).Wheels?
    ensures exists i: nat, c: ChassisHost.Conn, d: ChassisHost.Drive ::
      Justified(past, i, o.j, c, d, Meant(o.f, round), round, opts)
  {
    hide HostRuns.StateAt, HostRuns.Stands, HostRuns.Feasible, HostRuns.ControlAfter, HostRuns.OutAt;
    HostRuns.VelocityJustified(past, o.j, o.f, opts);
    HostRuns.StepAt(ChassisHost.START, past, o.j, opts);
    var i: nat, c: ChassisHost.Conn, d: ChassisHost.Drive :|
      HostRuns.Stands(ChassisHost.START, past, i, o.j, c, d, opts) && d != ChassisHost.Rest
      && o.f == HostRuns.FrameOf(d) && c in HostRuns.StateAt(ChassisHost.START, past, o.j, opts).conns;
    assert Justified(past, i, o.j, c, d, Meant(o.f, round), round, opts);
  }

  /** However its wire is cut and however far it has got, whatever velocity command a board
      that listens since the port was opened holds was sent at a moment when it was in force;
      a twist is read back bit for bit. */
  lemma {:induction false} BoardIsJustified(st: Station, chunks: seq<seq<Byte>>, n: nat)
    requires st.Valid() && st.uplink.port.open && Concat(chunks) <= st.uplink.port.accepted
    requires n < |FeedChunks([], chunks).items|
    ensures var item := FeedChunks([], chunks).items[n];
      && item.Good?
      && (OrderOf(item.frame).Move? || OrderOf(item.frame).Wheels? ==>
            exists i: nat, j: nat, c: ChassisHost.Conn, d: ChassisHost.Drive ::
              Justified(st.past, i, j, c, d, OrderOf(item.frame), st.round, st.opts))
  {
    hide HostRuns.StateAt, HostRuns.Feasible, FeedChunks, Concat, Handover, Handed, Images, Justified, OrderOf, Meant;
    BoardHoldsHandover(st, chunks);
    HandoverIsHanded(st.past, st.since, |st.past|, st.opts);
    var o := Handover(st.past, st.since, |st.past|, st.opts)[n];
    assert Handed(st.past, o, st.opts);
    if Meant(o.f, st.round).Move? || Meant(o.f, st.round).Wheels? {
      HandedIsJustified(st.past, o, st.round, st.opts);
    }
  }

  /** Sticky disable, as the board sees it: nothing it holds that was handed over after an
      accepted en 0 or flash, and before an en 1 was accepted again, enables or moves it. */
  lemma {:induction false} BoardStaysDisabled(st: Station, chunks: seq<seq<Byte>>, n: nat, i: nat)
    requires st.Valid() && st.uplink.port.open && Concat(chunks) <= st.uplink.port.accepted
    requires n < |FeedChunks([], chunks).items|
    requires n < |Handover(st.past, st.since, |st.past|, st.opts)|
    requires var j := Handover(st.past, st.since, |st.past|, st.opts)[n].j;
      && i < j < |st.past| && HostRuns.Off(ChassisHost.START, st.past, i, st.opts)
      && forall k :: i < k <= j ==> !HostRuns.On(ChassisHost.START, st.past, k, st.opts)
    ensures var item := FeedChunks([], chunks).items[n];
      item.Good? && OrderOf(item.frame) != Enable(true) && !OrderOf(item.frame).Move? && !OrderOf(item.frame).Wheels?
  {
    hide HostRuns.StateAt, HostRuns.Feasible, HostRuns.Off, HostRuns.On, HostRuns.OutAt;
    hide FeedChunks, Concat, Handover, Images, OrderOf;
    BoardHoldsHandover(st, chunks);
    HandoverIsHanded(st.past, st.since, |st.past|, st.opts);
    var o := Handover(st.past, st.since, |st.past|, st.opts)[n];
    assert Handed(st.past, o, st.opts);
    HostRuns.StickyDisable(st.past, i, o.j, o.f, st.opts);
  }

  /** And the brake arrives: once all has drained and arrived, the board holds a frame it reads
      as a brake for every CMD_STOP handed over since the port was opened. */
  lemma {:induction false} BrakeArrives(st: Station, chunks: seq<seq<Byte>>, j: nat)
    requires st.Valid() && st.uplink.port.open
    requires st.uplink.port.outputBuffer == [] && Concat(chunks) == st.uplink.port.accepted
    requires st.since <= j < |st.past| && ChassisHost.CmdStop in HostRuns.OutAt(ChassisHost.START, st.past, j, st.opts)
    ensures exists n: nat :: n < |FeedChunks([], chunks).items| && FeedChunks([], chunks).items[n].Good?
                             && OrderOf(FeedChunks([], chunks).items[n].frame) == Brake
  {
    hide HostRuns.StateAt, HostRuns.Feasible, HostRuns.OutAt, FeedChunks, Concat, Handover, Images, OrderOf;
    BoardHoldsHandover(st, chunks);
    HandoverIsHanded(st.past, st.since, |st.past|, st.opts);
    var os := Handover(st.past, st.since, |st.past|, st.opts);
    assert Origin(j, ChassisHost.CmdStop) in os;
    var n: nat :| n < |os| && os[n] == Origin(j, ChassisHost.CmdStop);
    assert FeedChunks([], chunks).items[n].Good?;
  }
}
