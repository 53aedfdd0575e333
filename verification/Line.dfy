/** What the parser recovers from a line: whole frames, damaged frames, cut-off streams, and
    frames after noise. */
module Line {
  import opened Crc
  import opened FrameCodec
  import opened Parser

  // ---------------------------------------------------------------- one frame at the front

  /** raw has a header, a legal length byte, and the length that byte announces. */
  predicate Framed(raw: seq<Byte>) {
    HasHeader(raw) && |raw| >= OVERHEAD && LenLegal(raw) && |raw| == FrameLen(raw)
  }

  lemma {:induction false} ParseFramed(raw: seq<Byte>, tail: seq<Byte>)
    requires Framed(raw)
    ensures
      var i := if FrontSumOk(raw) then Good(FrontFrame(raw)) else Bad(raw);
      Parse(raw + tail) == Parsed([i] + Parse(tail).items, Parse(tail).rest)
  {
    hide LenOf, FrontSumOk, FrontFrame;
    var buf := raw + tail;
    assert !Waiting(buf) && FrontSize(buf) == |raw|;
    assert buf[..|raw|] == raw && buf[|raw|..] == tail;
  }

  lemma {:induction false} PackedIsFramed(f: Frame)
    requires |f.payload| <= MAX_PAYLOAD
    ensures Framed(Pack(f)) && FrontSumOk(Pack(f)) && FrontFrame(Pack(f)) == f
  {
    hide LenOf, LenByte, Low, High, Sum, FrontSumOk;
    LenOfLenByte(|f.payload|);
    assert FrontFrame(Pack(f)).payload == f.payload;
    SumOkIffPacked(Pack(f));
  }

  lemma {:induction false} GoodFits(buf: seq<Byte>)
    ensures Parse(buf).items != [] && Parse(buf).items[0].Good?
            ==> |Parse(buf).items[0].frame.payload| <= MAX_PAYLOAD
  {
    hide LenOf, FrontSumOk;
    if !Waiting(buf) {
      assert Parse(buf).items[0] == FrontItem(buf);
    }
  }

  /** The image of a frame, alone, is parsed back to that frame exactly when its payload
      fits; packFrame itself does not refuse longer ones. */
  lemma {:induction false} RoundTrip(f: Frame)
    ensures Parse(Pack(f)) == Parsed([Good(f)], []) <==> |f.payload| <= 32
  {
    hide LenOf, LenByte, Low, High, Sum, FrontSumOk;
    if |f.payload| <= MAX_PAYLOAD {
      PackedIsFramed(f);
      ParseFramed(Pack(f), []);
      assert Pack(f) + [] == Pack(f);
    } else {
      GoodFits(Pack(f));
    }
  }

  // ---------------------------------------------------------------- a stream of frames

  function PackAll(fs: seq<Frame>): seq<Byte> {
    if fs == [] then [] else Pack(fs[0]) + PackAll(fs[1..])
  }

  function Goods(fs: seq<Frame>): seq<Item> {
    if fs == [] then [] else [Good(fs[0])] + Goods(fs[1..])
  }

  predicate Fit(fs: seq<Frame>) { forall f :: f in fs ==> |f.payload| <= MAX_PAYLOAD }

  /** The number of whole frames among the first n bytes of the stream. */
  function WholeFrames(fs: seq<Frame>, n: nat): (k: nat)
    ensures k <= |fs|
  {
    if fs == [] || n < |Pack(fs[0])| then 0 else 1 + WholeFrames(fs[1..], n - |Pack(fs[0])|)
  }

  lemma {:induction false} CutFrameWaits(f: Frame, n: nat)
    requires |f.payload| <= MAX_PAYLOAD && n < |Pack(f)|
    ensures Waiting(Pack(f)[..n])
  {
    PackedIsFramed(f);
    hide LenOf, LenByte, Low, High, Sum, FrontSumOk, Pack;
    if n == 1 {
      assert Pack(f)[..1] == [HEAD0];
    }
  }

  /** Whatever prefix of a stream has arrived, payload contents notwithstanding, a fresh parser
      holds exactly the frames that are complete in it, and waits for the rest of the next. */
  lemma {:induction false} PrefixDelivery(fs: seq<Frame>, n: nat)
    requires Fit(fs) && n <= |PackAll(fs)|
    ensures
      var k := WholeFrames(fs, n); var p := Parse(PackAll(fs)[..n]);
      && p.items == Goods(fs[..k])
      && PackAll(fs)[..n] == PackAll(fs[..k]) + p.rest
      && (n == |PackAll(fs)| ==> k == |fs| && p.rest == [])
      && (k < |fs| ==> |p.rest| < |Pack(fs[k])|)
    decreases fs
  {
    hide Parse, Waiting, Pack, FrontSumOk, FrontFrame, Framed;
    if fs == [] {
      ParseWaiting([]);
    } else if n < |Pack(fs[0])| {
      assert PackAll(fs)[..n] == Pack(fs[0])[..n];
      CutFrameWaits(fs[0], n);
      ParseWaiting(Pack(fs[0])[..n]);
    } else {
      var h := Pack(fs[0]);
      PackedIsFramed(fs[0]);
      PrefixDelivery(fs[1..], n - |h|);
      var t := PackAll(fs[1..])[..n - |h|];
      assert PackAll(fs)[..n] == h + t;
      ParseFramed(h, t);
      var k := WholeFrames(fs[1..], n - |h|);
      assert fs[..k + 1][0] == fs[0] && fs[..k + 1][1..] == fs[1..][..k];
      assert h + t == h + PackAll(fs[1..][..k]) + Parse(t).rest;
    }
  }

  lemma {:induction false} ParseWaiting(buf: seq<Byte>)
    ensures Waiting([])
    ensures Waiting(buf) ==> Parse(buf) == Parsed([], buf)
  {
    hide LenOf;
  }

  lemma {:induction false} ParseAll(fs: seq<Frame>)
    requires Fit(fs)
    ensures Parse(PackAll(fs)) == Parsed(Goods(fs), [])
  {
    hide Parse, Pack;
    PrefixDelivery(fs, |PackAll(fs)|);
    assert PackAll(fs)[..|PackAll(fs)|] == PackAll(fs);
    assert fs[..|fs|] == fs;
  }

  // ---------------------------------------------------------------- resynchronisation

  lemma {:induction false} QuietIsSkipped(z: seq<Byte>)
    requires HEAD0 !in z
    ensures Parse(z).rest == []
    decreases z
  {
    hide LenOf;
    if z != [] {
      QuietIsSkipped(z[1..]);
    }
  }

  /** Whatever was fed before, 38 bytes without AA empty the buffer. */
  lemma {:induction false} Resync(p: seq<Byte>, z: seq<Byte>)
    requires HEAD0 !in z && |z| >= 38
    ensures Parse(p + z).rest == []
    decreases |p|
  {
    hide LenOf;
    var buf := p + z;
    if p == [] {
      assert buf == z;
      QuietIsSkipped(z);
    } else {
      assert !Waiting(buf);
      var n := FrontSize(buf);
      if n <= |p| {
        assert buf[n..] == p[n..] + z;
        Resync(p[n..], z);
      } else {
        assert buf[n..] == z[n - |p|..];
        QuietIsSkipped(z[n - |p|..]);
      }
    }
  }

  /** ... and every frame sent after them is recovered. */
  lemma {:induction false} FramesAfterResync(p: seq<Byte>, z: seq<Byte>, fs: seq<Frame>)
    requires HEAD0 !in z && |z| >= 38 && Fit(fs)
    ensures Parse(p + z + PackAll(fs)) == Parsed(Parse(p + z).items + Goods(fs), [])
  {
    hide Parse;
    Resync(p, z);
    ParseAppend(p + z, PackAll(fs));
    assert [] + PackAll(fs) == PackAll(fs);
    ParseAll(fs);
  }

  /** 38 is the least such number: after a lone AA, 37 bytes can leave a frame open. */
  lemma {:induction false} ResyncIsTight(t: Byte, z: seq<Byte>)
    requires t != HEAD0 && |z| == 34 && HEAD0 !in z
    ensures var quiet := [HEAD1, t, 32] + z;
      && Parse([HEAD0]).rest == [HEAD0] && |quiet| == 37 && HEAD0 !in quiet
      && Parse([HEAD0] + quiet).rest == [HEAD0] + quiet
  {
    LenIs32();
    var buf := [HEAD0] + ([HEAD1, t, 32] + z);
    hide LenOf;
    assert buf[3] == 32;
    assert Waiting(buf);
  }

  lemma LenIs32()
    ensures LenOf(32) == 32
  {}

  // ---------------------------------------------------------------- damage

  /** A frame on the line, with the noise that is added to its bytes. */
  datatype Sent = Sent(frame: Frame, noise: seq<Byte>)

  /** The noise leaves the header and the length byte alone. */
  predicate Placed(s: Sent) {
    && |s.frame.payload| <= MAX_PAYLOAD
    && |s.noise| == |Pack(s.frame)|
    && s.noise[0] == 0 && s.noise[1] == 0 && s.noise[3] == 0
  }

  predicate Clean(s: Sent) { forall i :: 0 <= i < |s.noise| ==> s.noise[i] == 0 }

  function OnLine(s: Sent): seq<Byte>
    requires Placed(s)
  {
    XorBytes(Pack(s.frame), s.noise)
  }

  lemma {:induction false} HeaderNoise(noise: seq<Byte>)
    requires |noise| >= 2 && noise[0] == 0 && noise[1] == 0
    ensures CrcFrom(0, noise) == CrcFrom(0, noise[2..])
  {
    assert Absorb(0, 0) == 0;
    hide Absorb;
    assert noise[1..][1..] == noise[2..];
    assert CrcFrom(0, noise) == CrcFrom(0, noise[1..]);
  }

  lemma {:induction false} XorSlice(a: seq<Byte>, e: seq<Byte>, i: nat, j: nat)
    requires |a| == |e| && i <= j <= |a|
    ensures XorBytes(a, e)[i..j] == XorBytes(a[i..j], e[i..j])
  {}

  /** The checksum test, as a statement about the whole protected part. */
  lemma {:induction false} SumOkIffResidue(raw: seq<Byte>)
    requires |raw| >= OVERHEAD
    ensures FrontSumOk(raw) <==> CrcFrom(INIT, raw[2..]) == 0
  {
    hide CrcFrom, Join, Low, High;
    var body := raw[2..|raw| - 2];
    var lo, hi := raw[|raw| - 2], raw[|raw| - 1];
    assert raw[2..] == body + [lo, hi];
    Residue(INIT, body, lo, hi);
    JoinOfParts(CrcFrom(INIT, body));
    PartsOfJoin(lo, hi);
  }

  lemma {:induction false} NoiseKeepsFraming(s: Sent)
    requires Placed(s)
    ensures Framed(OnLine(s))
  {
    PackedIsFramed(s.frame);
    var raw, line := Pack(s.frame), OnLine(s);
    assert raw[0] ^ 0 == raw[0] && raw[1] ^ 0 == raw[1] && raw[3] ^ 0 == raw[3];
    assert line[0] == raw[0] && line[1] == raw[1] && line[3] == raw[3];
  }

  /** A damaged frame passes the check exactly when the noise is itself a codeword. */
  lemma {:induction false} AcceptedIffCodeword(s: Sent)
    requires Placed(s)
    ensures FrontSumOk(OnLine(s)) <==> CrcFrom(0, s.noise) == 0
  {
    hide CrcFrom, FrontSumOk, Pack, Xor;
    var raw, line := Pack(s.frame), OnLine(s);
    PackedIsFramed(s.frame);
    SumOkIffResidue(raw);
    SumOkIffResidue(line);
    XorSlice(raw, s.noise, 2, |raw|);
    assert line[2..] == XorBytes(raw[2..], s.noise[2..]);
    CrcLinear(INIT, 0, raw[2..], s.noise[2..]);
    XorZero(INIT, 0);
    XorZero(CrcFrom(0, s.noise[2..]), 0);
    HeaderNoise(s.noise);
  }

  lemma ZeroNoise(b: Byte)
    ensures b ^ 0 == b
  {}

  lemma {:induction false} CleanIsFrame(s: Sent)
    requires Placed(s) && Clean(s)
    ensures OnLine(s) == Pack(s.frame) && CrcFrom(0, s.noise) == 0
  {
    PackedIsFramed(s.frame);
    AcceptedIffCodeword(s);
    hide CrcFrom, FrontSumOk, Pack;
    var raw := Pack(s.frame);
    forall i | 0 <= i < |raw|
      ensures OnLine(s)[i] == raw[i]
    {
      ZeroNoise(raw[i]);
    }
  }

  function Wire(ss: seq<Sent>): seq<Byte>
    requires forall s :: s in ss ==> Placed(s)
  {
    if ss == [] then [] else OnLine(ss[0]) + Wire(ss[1..])
  }

  function Undamaged(ss: seq<Sent>): (r: seq<Frame>)
    ensures |r| <= |ss|
  {
    if ss == [] then []
    else (if Clean(ss[0]) then [ss[0].frame] else []) + Undamaged(ss[1..])
  }

  /** Noise the checksum is sure to see: a burst of at most 16 bits, or two wrong bits or any
      odd number of them, wherever they are. */
  ghost predicate Seen(e: seq<Byte>) {
    Burst(e) || Ones(BitStream(e)) == 2 || Ones(BitStream(e)) % 2 == 1
  }

  lemma {:induction false} SeenDetected(s: Sent)
    requires Placed(s) && Seen(s.noise)
    ensures CrcFrom(0, s.noise) != 0
  {
    hide CrcFrom, Burst, Ones, Pack;
    if Burst(s.noise) {
      BurstDetected(s.noise);
    } else {
      ScatterDetected(s.noise);
    }
  }

  lemma {:induction false} OneReceived(s: Sent, tail: seq<Byte>)
    requires Placed(s) && (Clean(s) || Seen(s.noise))
    ensures Parse(OnLine(s) + tail).rest == Parse(tail).rest
    ensures Count(Parse(OnLine(s) + tail).items)
         == Add(if Clean(s) then Tally([s.frame], 0, 0) else Tally([], 1, 0), Count(Parse(tail).items))
  {
    hide Parse, Pack, OnLine, FrontSumOk, FrontFrame, Seen, Clean, Framed, CrcFrom, Placed;
    var line := OnLine(s);
    NoiseKeepsFraming(s);
    AcceptedIffCodeword(s);
    ParseFramed(line, tail);
    if Clean(s) {
      CleanIsFrame(s);
      PayloadFits(s);
      PackedIsFramed(s.frame);
    } else {
      SeenDetected(s);
    }
    var i := if FrontSumOk(line) then Good(FrontFrame(line)) else Bad(line);
    assert ([i] + Parse(tail).items)[1..] == Parse(tail).items;
  }

  lemma PayloadFits(s: Sent)
    requires Placed(s)
    ensures |s.frame.payload| <= MAX_PAYLOAD
  {}

  /** Corruption containment: any frames of a stream may be hit, each by noise the checksum is
      sure to see that spares its header and length byte; the parser delivers exactly the
      others, in order, counts the damaged ones, and drops nothing else. */
  lemma {:induction false} Containment(ss: seq<Sent>)
    requires forall s :: s in ss ==> Placed(s) && (Clean(s) || Seen(s.noise))
    ensures Parse(Wire(ss)).rest == []
    ensures Count(Parse(Wire(ss)).items) == Tally(Undamaged(ss), |ss| - |Undamaged(ss)|, 0)
    decreases ss
  {
    hide Parse, OnLine, Seen, Clean, Placed;
    if ss == [] {
      ParseWaiting([]);
    } else {
      OneReceived(ss[0], Wire(ss[1..]));
      Containment(ss[1..]);
    }
  }

  lemma {:induction false} BitOfByte(e: seq<Byte>, m: nat)
    requires m < 8 * |e|
    ensures BitStream(e)[m] == Bits(e[m / 8])[m % 8]
  {
    hide Bits;
    if m >= 8 {
      BitOfByte(e[1..], m - 8);
    }
  }

  lemma {:induction false} BitsOfZero(b: Byte)
    ensures (forall i :: 0 <= i < 8 ==> !Bits(b)[i]) <==> b == 0
  {
    var w := Bits(b);
    assert w[0] || w[1] || w[2] || w[3] || w[4] || w[5] || w[6] || w[7] <==> b != 0;
  }

  /** Any damage within two adjacent bytes is such a burst. */
  lemma {:induction false} TwoBytesAreABurst(e: seq<Byte>, i: nat)
    requires i < |e| && (e[i] != 0 || (i + 1 < |e| && e[i + 1] != 0))
    requires forall j :: 0 <= j < |e| && j != i && j != i + 1 ==> e[j] == 0
    ensures Burst(e)
  {
    hide Bits;
    var bits := BitStream(e);
    var j := if e[i] != 0 then i else i + 1;
    BitsOfZero(e[j]);
    var k :| 0 <= k < 8 && Bits(e[j])[k];
    BitOfByte(e, 8 * j + k);
    assert bits[8 * j + k];
    forall m | 0 <= m < |bits| && bits[m]
      ensures 8 * i <= m < 8 * i + 16
    {
      BitOfByte(e, m);
      BitsOfZero(e[m / 8]);
    }
    assert BurstAt(bits, 8 * i);
  }
}
