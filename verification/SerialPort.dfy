/** The transmit path: frames, the port's output buffer, and what the peer's parser can hold. */
module SerialPort {
  import opened Crc
  import opened FrameCodec
  import opened Parser
  import opened Line

  const TX_OVERFLOW_LIMIT: nat := 1024 * 1024

  /** The outcome of one write(2) on the non-blocking descriptor. */
  datatype WriteResult = Wrote(n: nat) | Again | Fatal | OtherError

  predicate WriteFits(w: WriteResult, len: nat) { w.Wrote? ==> w.n <= len }

  class SerialPort {
    var open: bool               // fd_ >= 0, with its channel
    var writing: bool            // POLLOUT requested
    var outputBuffer: seq<Byte>
    ghost var accepted: seq<Byte>   // taken by the kernel since the port was opened
    ghost var offered: seq<Byte>    // handed to Send since the port was opened

    /** First in, first out, nothing lost and nothing repeated while the port is open. */
    ghost predicate Valid()
      reads this
    {
      open ==>
        && accepted + outputBuffer == offered
        && (writing <==> outputBuffer != [])
        && |outputBuffer| <= TX_OVERFLOW_LIMIT
    }

    constructor ()
      ensures Valid() && !open
    {
      open, writing, outputBuffer, accepted, offered := false, false, [], [], [];
    }

    /** Opening discards what an earlier connection left behind; reopening is a no-op. */
    method OpenDevice(available: bool) returns (ok: bool)
      requires Valid()
      modifies this
      ensures Valid() && open == ok == (old(open) || available)
      ensures old(open) ==> unchanged(this)
      ensures !old(open) && open ==> offered == [] && accepted == [] && outputBuffer == []
    {
      if open { return true; }
      if !available { return false; }
      open := true;
      outputBuffer := [];
      accepted, offered := [], [];
      writing := false;
      ok := true;
    }

    method CloseInLoop()
      modifies this`open, this`writing
      ensures !open
    {
      if !open { return; }
      writing := false;
      open := false;
    }

    /** sendInLoop: try to write directly, keep what is left, close if far too much piles up. */
    method Send(data: seq<Byte>, w: WriteResult)
      requires Valid() && WriteFits(w, |data|)
      modifies this
      ensures Valid()
      ensures !old(open) ==> unchanged(this)
      ensures open ==> offered == old(offered) + data
      ensures open ==> accepted == old(accepted) + (if old(outputBuffer) == [] && w.Wrote? then data[..w.n] else [])
      ensures old(open) ==>
        (!open <==> (old(outputBuffer) == [] && w == Fatal)
                    || |old(outputBuffer)| + |data|
                       - (if old(outputBuffer) == [] && w.Wrote? then w.n else 0) > 1048576)
    {
      if !open { return; }
      var remaining := |data|;
      offered := offered + data;
      if !writing && |outputBuffer| == 0 {
        match w {
          case Wrote(n) =>
            remaining := |data| - n;
            accepted := accepted + data[..n];
          case Again =>
          case OtherError =>
          case Fatal =>
            CloseInLoop();
            return;
        }
      }
      if remaining > 0 {
        outputBuffer := outputBuffer + data[|data| - remaining..];
        if !writing {
          writing := true;
        }
        if |outputBuffer| > TX_OVERFLOW_LIMIT {
          CloseInLoop();
        }
      }
    }

    /** POLLOUT: continue from the front of the buffer, and stop asking once it is empty. */
    method HandleWrite(w: WriteResult)
      requires Valid() && WriteFits(w, |outputBuffer|)
      modifies this
      ensures Valid()
      ensures !old(open) || !old(writing) ==> unchanged(this)
      ensures old(open) && old(writing) && w.Wrote? ==>
        open && offered == old(offered) && accepted == old(accepted) + old(outputBuffer)[..w.n]
      ensures old(open) && old(writing) && w == Again ==> unchanged(this)
      ensures old(open) && old(writing) && (w == Fatal || w == OtherError) ==> !open
    {
      if !open { return; }
      if !writing { return; }
      match w {
        case Wrote(n) =>
          accepted := accepted + outputBuffer[..n];
          outputBuffer := outputBuffer[n..];
          if |outputBuffer| == 0 {
            writing := false;
          }
        case Again =>
        case Fatal => CloseInLoop();
        case OtherError => CloseInLoop();
      }
    }
  }

  // ---------------------------------------------------------------- frames on the port

  /** Each frame carries the number after its predecessor's, modulo 256. */
  predicate Consecutive(fs: seq<Frame>) {
    forall i, j :: 0 <= i && j == i + 1 < |fs| ==> fs[j].seqNo == NextSeq(fs[i].seqNo)
  }

  lemma {:induction false} PackAllAppend(fs: seq<Frame>, f: Frame)
    ensures PackAll(fs + [f]) == PackAll(fs) + Pack(f)
  {
    hide Pack;
    if fs == [] {
      assert fs + [f] == [f];
      assert PackAll([f]) == Pack(f) + PackAll([]);
    } else {
      assert (fs + [f])[1..] == fs[1..] + [f];
      PackAllAppend(fs[1..], f);
    }
  }

  lemma {:induction false} SentInSequence(fs: seq<Frame>, f: Frame)
    requires Fit(fs) && Consecutive(fs) && |f.payload| <= MAX_PAYLOAD
    requires fs != [] ==> NextSeq(fs[|fs| - 1].seqNo) == f.seqNo
    ensures Fit(fs + [f]) && Consecutive(fs + [f]) && PackAll(fs + [f]) == PackAll(fs) + Pack(f)
  {
    hide Pack, NextSeq, PackAll;
    PackAllAppend(fs, f);
  }

  /** The host's sending side: the sequence counter and the port. */
  class Uplink {
    const port: SerialPort
    var txSeq: Byte
    ghost var frames: seq<Frame>   // sent since the port was opened

    ghost predicate Valid()
      reads this, port
    {
      && port.Valid() && Fit(frames)
      && (port.open ==>
            && port.offered == PackAll(frames) && Consecutive(frames)
            && (frames != [] ==> NextSeq(frames[|frames| - 1].seqNo) == txSeq))
    }

    constructor (p: SerialPort)
      requires p.Valid() && !p.open
      ensures Valid() && port == p
    {
      port, txSeq, frames := p, 0, [];
    }

    method Open(available: bool) returns (ok: bool)
      requires Valid()
      modifies this, port
      ensures Valid() && ok == port.open == (old(port.open) || available)
      ensures frames == if old(port.open) then old(frames) else []
    {
      ghost var wasOpen := port.open;
      ok := port.OpenDevice(available);
      if !wasOpen { frames := []; }
    }

    /** sendFrameToBoard: nothing is packed, and no number is used up, while the port is shut. */
    method SendFrame(kind: Byte, payload: seq<Byte>, w: WriteResult) returns (sent: bool)
      requires Valid() && |payload| <= MAX_PAYLOAD && WriteFits(w, OVERHEAD + |payload|)
      modifies this, port
      ensures Valid() && sent == old(port.open)
      ensures !sent ==> unchanged(this) && unchanged(port)
      ensures port.open ==> frames == old(frames) + [Frame(kind, old(txSeq), payload)]
      ensures sent ==> txSeq == NextSeq(old(txSeq))
    {
      hide PackAll, Pack, Fit, Consecutive, NextSeq;
      if !port.open { return false; }
      var bytes, next := PackFrame(kind, payload, txSeq);
      ghost var f := Frame(kind, txSeq, payload);
      SentInSequence(frames, f);
      frames := frames + [f];
      txSeq := next;
      port.Send(bytes, w);
      sent := true;
    }

    method Writable(w: WriteResult)
      requires Valid() && WriteFits(w, |port.outputBuffer|)
      modifies port
      ensures Valid()
      ensures port.open ==> old(port.open) && port.offered == old(port.offered)
    {
      hide PackAll;
      port.HandleWrite(w);
    }
  }

  lemma PrefixOfConsecutive(fs: seq<Frame>, k: nat)
    requires Consecutive(fs) && k <= |fs|
    ensures Consecutive(fs[..k])
  {}

  /** End to end: while the port is open, however the wire cuts up whatever part of the
      accepted bytes has reached the peer, its parser holds an initial run of the frames sent,
      consecutively numbered, having seen no error; and all of them once everything has drained
      and arrived. */
  lemma {:induction false} Delivery(link: Uplink, chunks: seq<seq<Byte>>)
    requires link.Valid() && link.port.open
    requires Concat(chunks) <= link.port.accepted
    ensures var k := WholeFrames(link.frames, |Concat(chunks)|); var p := FeedChunks([], chunks);
      && p.items == Goods(link.frames[..k]) && Consecutive(link.frames[..k])
      && (link.port.outputBuffer == [] && Concat(chunks) == link.port.accepted
          ==> k == |link.frames| && p.rest == [])
  {
    hide Parse, PackAll, Pack, FeedChunks, Goods, Concat, WholeFrames;
    var arrived := Concat(chunks);
    var stream := PackAll(link.frames);
    assert arrived == stream[..|arrived|];
    ChunkIndependence([], chunks);
    assert [] + arrived == arrived;
    PrefixDelivery(link.frames, |arrived|);
    PrefixOfConsecutive(link.frames, WholeFrames(link.frames, |arrived|));
  }
}
