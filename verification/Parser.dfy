/** The streaming parser object, and its independence from the way its input is cut up. */
module Parser {
  import opened Crc
  import opened FrameCodec

  // ---------------------------------------------------------------- appending input

  lemma {:induction false} FrontIgnoresTail(a: seq<Byte>, b: seq<Byte>)
    requires !Waiting(a)
    ensures !Waiting(a + b)
    ensures FrontSize(a + b) == FrontSize(a) && FrontItem(a + b) == FrontItem(a)
  {
    hide LenOf, FrontSumOk, FrontFrame;
    if HasHeader(a) && LenLegal(a) {
      assert (a + b)[..FrameLen(a)] == a[..FrameLen(a)];
    }
  }

  /** Parsing a, and then the residual followed by b, is parsing a + b. */
  lemma {:induction false} ParseAppend(a: seq<Byte>, b: seq<Byte>)
    ensures Parse(a + b).items == Parse(a).items + Parse(Parse(a).rest + b).items
    ensures Parse(a + b).rest == Parse(Parse(a).rest + b).rest
    decreases |a|
  {
    hide Waiting, FrontSize, FrontItem;
    if !Waiting(a) {
      var n := FrontSize(a);
      FrontIgnoresTail(a, b);
      assert (a + b)[n..] == a[n..] + b;
      ParseAppend(a[n..], b);
    }
  }

  function Concat(chunks: seq<seq<Byte>>): seq<Byte> {
    if chunks == [] then [] else chunks[0] + Concat(chunks[1..])
  }

  /** Feeding chunk after chunk: each call parses the residual with the new chunk. */
  function FeedChunks(rest: seq<Byte>, chunks: seq<seq<Byte>>): Parsed
    decreases chunks
  {
    if chunks == [] then Parsed([], rest)
    else
      var p := Parse(rest + chunks[0]);
      var q := FeedChunks(p.rest, chunks[1..]);
      Parsed(p.items + q.items, q.rest)
  }

  /** Chunk independence: however the stream is cut, the same items and the same residual. */
  lemma {:induction false} ChunkIndependence(rest: seq<Byte>, chunks: seq<seq<Byte>>)
    requires Waiting(rest)
    ensures FeedChunks(rest, chunks) == Parse(rest + Concat(chunks))
    decreases chunks
  {
    hide Waiting, FrontSize, FrontItem;
    if chunks == [] {
      assert rest + Concat(chunks) == rest;
      WaitingStays(rest);
    } else {
      var p := Parse(rest + chunks[0]);
      ChunkIndependence(p.rest, chunks[1..]);
      ParseAppend(rest + chunks[0], Concat(chunks[1..]));
      assert rest + Concat(chunks) == rest + chunks[0] + Concat(chunks[1..]);
    }
  }

  /** The residuals are exactly the inputs that parse to themselves, and are under 39 bytes. */
  lemma {:induction false} WaitingStays(rest: seq<Byte>)
    ensures Waiting(rest) <==> Parse(rest) == Parsed([], rest)
    ensures Waiting(rest) ==> |rest| <= 38
  {
    hide FrontItem, LenOf;
  }

  // ---------------------------------------------------------------- progress of one call

  lemma {:induction false} AddLaws(a: Tally, b: Tally, c: Tally)
    ensures Add(NOTHING, a) == a && Add(a, NOTHING) == a
    ensures Add(Add(a, b), c) == Add(a, Add(b, c))
  {
    assert (a.frames + b.frames) + c.frames == a.frames + (b.frames + c.frames);
  }

  lemma {:induction false} CountAppend(x: seq<Item>, y: seq<Item>)
    ensures Count(x + y) == Add(Count(x), Count(y))
  {
    hide TallyOf, Add;
    AddLaws(Count(y), NOTHING, NOTHING);
    if x == [] {
      assert x + y == y;
    } else {
      assert (x + y)[1..] == x[1..] + y;
      CountAppend(x[1..], y);
      AddLaws(TallyOf(x[0]), Count(x[1..]), Count(y));
    }
  }

  /** Working on a, having reported t, leaves the work that is in b. */
  ghost predicate Leads(a: seq<Byte>, t: Tally, b: seq<Byte>) {
    && Parse(a).rest == Parse(b).rest
    && Count(Parse(a).items) == Add(t, Count(Parse(b).items))
  }

  lemma {:induction false} LeadsSelf(a: seq<Byte>)
    ensures Leads(a, NOTHING, a)
  {
    hide Parse, Count;
  }

  lemma {:induction false} LeadsOn(a: seq<Byte>, t: Tally, b: seq<Byte>, u: Tally, c: seq<Byte>)
    requires Leads(a, t, b) && Leads(b, u, c)
    ensures Leads(a, Add(t, u), c)
  {
    hide Parse, Count, Add;
    AddLaws(t, u, Count(Parse(c).items));
  }

  lemma {:induction false} LeadsToEnd(a: seq<Byte>, t: Tally, b: seq<Byte>)
    requires Leads(a, t, b) && Waiting(b)
    ensures Parse(a).rest == b && Count(Parse(a).items) == t
  {
    hide Waiting, Parse, Add;
    WaitingStays(b);
    AddLaws(t, NOTHING, NOTHING);
  }

  /** One item of the reference parser. */
  lemma {:induction false} LeadsFront(a: seq<Byte>)
    requires !Waiting(a)
    ensures Leads(a, TallyOf(FrontItem(a)), a[FrontSize(a)..])
  {
    hide Waiting, FrontItem, FrontSize, TallyOf;
    assert Parse(a).items[1..] == Parse(a[FrontSize(a)..]).items;
  }

  predicate NoHeaderBefore(buf: seq<Byte>, n: nat)
    requires n <= |buf|
  {
    forall i :: 0 <= i < n && i + 1 < |buf| ==> !(buf[i] == HEAD0 && buf[i + 1] == HEAD1)
  }

  lemma {:induction false} FrontSkipped(buf: seq<Byte>)
    requires |buf| > 0 && !HasHeader(buf) && (|buf| == 1 ==> buf[0] != HEAD0)
    ensures Leads(buf, Tally([], 0, 1), buf[1..])
  {
    hide Leads, Parse, Count;
    assert !Waiting(buf) && FrontSize(buf) == 1 && TallyOf(FrontItem(buf)) == Tally([], 0, 1);
    hide Waiting, FrontItem, FrontSize, TallyOf;
    LeadsFront(buf);
  }

  lemma {:induction false} NoHeaderInTail(buf: seq<Byte>, n: nat)
    requires 0 < n <= |buf| && NoHeaderBefore(buf, n)
    ensures !HasHeader(buf) && NoHeaderBefore(buf[1..], n - 1)
  {
    assert forall i :: 0 <= i < |buf| - 1 ==> buf[1..][i] == buf[i + 1];
  }

  /** The bytes before the first header are dropped, and each is counted. */
  lemma {:induction false} LeadsToHeader(buf: seq<Byte>, n: nat)
    requires n <= |buf| && NoHeaderBefore(buf, n)
    requires n == |buf| && n > 0 ==> buf[n - 1] != HEAD0
    ensures Leads(buf, Tally([], 0, n), buf[n..])
    decreases n
  {
    hide Parse, Count, Leads, HasHeader, NoHeaderBefore;
    LeadsSelf(buf);
    if n == 0 {
      assert buf[0..] == buf;
    } else {
      NoHeaderInTail(buf, n);
      FrontSkipped(buf);
      LeadsToHeader(buf[1..], n - 1);
      assert buf[1..][n - 1..] == buf[n..];
      LeadsOn(buf, Tally([], 0, 1), buf[1..], Tally([], 0, n - 1), buf[n..]);
      assert Add(Tally([], 0, 1), Tally([], 0, n - 1)) == Tally([], 0, n);
    }
  }

  lemma {:induction false} SkipOn(a: seq<Byte>, t: Tally, buf: seq<Byte>, n: nat)
    requires Leads(a, t, buf) && n <= |buf| && NoHeaderBefore(buf, n)
    requires n == |buf| && n > 0 ==> buf[n - 1] != HEAD0
    ensures Leads(a, Tally(t.frames, t.crcErr, t.drop + n), buf[n..])
  {
    hide Leads;
    LeadsToHeader(buf, n);
    LeadsOn(a, t, buf, Tally([], 0, n), buf[n..]);
    assert Add(t, Tally([], 0, n)) == Tally(t.frames, t.crcErr, t.drop + n);
  }

  lemma {:induction false} FrontPseudo(buf: seq<Byte>)
    requires HasHeader(buf) && |buf| >= 5 && !LenLegal(buf)
    ensures Leads(buf, Tally([], 0, 1), buf[2..])
  {
    hide Leads, Parse, Count;
    assert !Waiting(buf) && FrontSize(buf) == 2 && TallyOf(FrontItem(buf)) == Tally([], 0, 1);
    hide Waiting, FrontItem, FrontSize, TallyOf;
    LeadsFront(buf);
  }

  lemma {:induction false} PseudoOn(a: seq<Byte>, t: Tally, buf: seq<Byte>)
    requires Leads(a, t, buf) && HasHeader(buf) && |buf| >= 5 && !LenLegal(buf)
    ensures Leads(a, Tally(t.frames, t.crcErr, t.drop + 1), buf[2..])
  {
    hide Leads, LenLegal;
    FrontPseudo(buf);
    LeadsOn(a, t, buf, Tally([], 0, 1), buf[2..]);
    assert Add(t, Tally([], 0, 1)) == Tally(t.frames, t.crcErr, t.drop + 1);
  }

  lemma {:induction false} FrontWhole(buf: seq<Byte>, raw: seq<Byte>)
    requires HasHeader(buf) && |buf| >= 5 && LenLegal(buf) && |buf| >= FrameLen(buf)
    requires raw == buf[..FrameLen(buf)]
    ensures Leads(buf, if FrontSumOk(raw) then Tally([FrontFrame(raw)], 0, 0) else Tally([], 1, 0), buf[|raw|..])
  {
    hide FrontSumOk, FrontFrame, LenOf, Leads, Parse, Count;
    assert !Waiting(buf) && FrontSize(buf) == |raw|;
    assert FrontItem(buf) == if FrontSumOk(raw) then Good(FrontFrame(raw)) else Bad(raw);
    hide Waiting, FrontItem, FrontSize, HasHeader, LenLegal, FrameLen;
    LeadsFront(buf);
  }

  lemma {:induction false} WholeOn(a: seq<Byte>, t: Tally, buf: seq<Byte>, raw: seq<Byte>)
    requires Leads(a, t, buf) && HasHeader(buf) && |buf| >= 5 && LenLegal(buf) && |buf| >= FrameLen(buf)
    requires raw == buf[..FrameLen(buf)]
    ensures FrontSumOk(raw) ==> Leads(a, Tally(t.frames + [FrontFrame(raw)], t.crcErr, t.drop), buf[|raw|..])
    ensures !FrontSumOk(raw) ==> Leads(a, Tally(t.frames, t.crcErr + 1, t.drop), buf[|raw|..])
  {
    hide Leads, LenLegal, FrontSumOk, FrontFrame;
    FrontWhole(buf, raw);
    var u := if FrontSumOk(raw) then Tally([FrontFrame(raw)], 0, 0) else Tally([], 1, 0);
    LeadsOn(a, t, buf, u, buf[|raw|..]);
    assert Add(t, u) == if FrontSumOk(raw) then Tally(t.frames + [FrontFrame(raw)], t.crcErr, t.drop)
                        else Tally(t.frames, t.crcErr + 1, t.drop);
  }

  // ---------------------------------------------------------------- the parser object

  class FrameParser {
    var buf: seq<Byte>
    var frames: nat
    var crcErr: nat
    var drop: nat
    ghost var fed: seq<Byte>   // everything fed since construction

    /** The whole state is a function of the bytes fed, not of how they arrived. */
    ghost predicate Valid()
      reads this
    {
      var t := Count(Parse(fed).items);
      && buf == Parse(fed).rest
      && frames == |t.frames| && crcErr == t.crcErr && drop == t.drop
    }

    constructor ()
      ensures Valid() && fed == [] && buf == []
    {
      buf, frames, crcErr, drop, fed := [], 0, 0, 0, [];
    }

    /** The scan for AA 55; |buf| when there is none. */
    method FindHeader() returns (idx: nat)
      ensures idx <= |buf| && NoHeaderBefore(buf, idx)
      ensures idx < |buf| ==> HasHeader(buf[idx..])
    {
      idx := |buf|;
      var i := 0;
      while i + 1 < |buf|
        invariant 0 <= i <= |buf| && NoHeaderBefore(buf, i)
      {
        if buf[i] == HEAD0 && buf[i + 1] == HEAD1 {
          return i;
        }
        i := i + 1;
      }
    }

    /** Append, then drop, cut out and check until more bytes are needed. */
    method Drain() returns (out: seq<Frame>)
      modifies this`buf, this`frames, this`crcErr, this`drop
      ensures buf == Parse(old(buf)).rest && out == Count(Parse(old(buf)).items).frames
      ensures frames == old(frames) + |out|
      ensures crcErr == old(crcErr) + Count(Parse(old(buf)).items).crcErr
      ensures drop == old(drop) + Count(Parse(old(buf)).items).drop
    {
      hide Parse, Count, Leads, Waiting, LenOf, FrontSumOk, FrontFrame, Join, NoHeaderBefore, CrcFrom, HasHeader;
      out := [];
      ghost var whole := buf;
      ghost var crcErr0, drop0, frames0 := crcErr, drop, frames;
      LeadsSelf(buf);
      while true
        invariant crcErr >= crcErr0 && drop >= drop0 && frames == frames0 + |out|
        invariant Leads(whole, Tally(out, crcErr - crcErr0, drop - drop0), buf)
        decreases |buf|
      {
        ghost var t := Tally(out, crcErr - crcErr0, drop - drop0);
        var idx := FindHeader();
        if idx == |buf| {
          var keep := if |buf| > 0 && buf[|buf| - 1] == HEAD0 then 1 else 0;
          if |buf| > keep {
            NoneBefore(buf, |buf| - keep);
            SkipOn(whole, t, buf, |buf| - keep);
            drop := drop + |buf| - keep;
            buf := buf[|buf| - keep..];
          }
          AtEnd(buf, keep);
          LeadsToEnd(whole, Tally(out, crcErr - crcErr0, drop - drop0), buf);
          return;
        }
        if idx > 0 {
          SkipOn(whole, t, buf, idx);
          drop := drop + idx;
          buf := buf[idx..];
        } else {
          assert buf[0..] == buf;
        }
        t := Tally(out, crcErr - crcErr0, drop - drop0);
        if |buf| < 5 {
          ShortHeader(buf);
          LeadsToEnd(whole, t, buf);
          return;
        }
        var plen := LenOf(buf[3]);
        if plen > MAX_PAYLOAD {
          PseudoOn(whole, t, buf);
          drop := drop + 1;
          buf := buf[2..];
          continue;
        }
        var flen := OVERHEAD + plen;
        if |buf| < flen {
          ShortHeader(buf);
          LeadsToEnd(whole, t, buf);
          return;
        }
        var raw := buf[..flen];
        var crcRx := Join(raw[flen - 2], raw[flen - 1]);
        var crcCalc := Crc16Modbus(raw[2..flen - 2]);
        SumOkMeans(raw, crcCalc, crcRx);
        WholeOn(whole, t, buf, raw);
        buf := buf[flen..];
        if crcCalc == crcRx {
          frames := frames + 1;
          out := out + [FrontFrame(raw)];
        } else {
          crcErr := crcErr + 1;
        }
      }
    }

    /** One call: the frames completed by data, in order. */
    method Feed(data: seq<Byte>) returns (out: seq<Frame>)
      requires Valid()
      modifies this
      ensures Valid() && fed == old(fed) + data
      ensures Count(Parse(fed).items).frames == Count(Parse(old(fed)).items).frames + out
      ensures buf == Parse(old(buf) + data).rest
    {
      hide Parse, Count;
      ParseAppend(fed, data);
      CountAppend(Parse(fed).items, Parse(buf + data).items);
      buf := buf + data;
      fed := fed + data;
      out := Drain();
    }
  }

  lemma NoneBefore(buf: seq<Byte>, n: nat)
    requires NoHeaderBefore(buf, |buf|) && n <= |buf|
    ensures NoHeaderBefore(buf, n)
  {}

  lemma AtEnd(buf: seq<Byte>, keep: nat)
    requires |buf| <= keep && keep <= 1 && (|buf| == 1 ==> buf[0] == HEAD0)
    ensures Waiting(buf)
  {}

  lemma {:induction false} ShortHeader(buf: seq<Byte>)
    requires HasHeader(buf)
    requires |buf| < 5 || (LenLegal(buf) && |buf| < FrameLen(buf))
    ensures Waiting(buf)
  {
    hide LenOf;
  }

  lemma {:induction false} SumOkMeans(raw: seq<Byte>, own: bv16, rx: bv16)
    requires |raw| >= OVERHEAD
    requires own == CrcFrom(INIT, raw[2..|raw| - 2]) && rx == Join(raw[|raw| - 2], raw[|raw| - 1])
    ensures FrontSumOk(raw) <==> own == rx
  {
    hide Join, CrcFrom;
  }
}
