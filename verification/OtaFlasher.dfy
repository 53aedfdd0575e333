/** The flashing child process: its line stream, and its life from spawn to exit callback. */
module OtaFlasher {
  import opened Crc
  import opened Optional

  const LINE_LIMIT: nat := 8192

  // ---------------------------------------------------------------- the line stream

  predicate IsBreak(c: Byte) { c == 0x0A || c == 0x0D }

  /** The text between breaks, empty pieces and the unfinished last one included. */
  function Pieces(s: seq<Byte>): (p: seq<seq<Byte>>)
    ensures |p| > 0
  {
    if s == [] then [[]]
    else
      var p, c := Pieces(s[..|s| - 1]), s[|s| - 1];
      if IsBreak(c) then p + [[]] else p[..|p| - 1] + [p[|p| - 1] + [c]]
  }

  /** Over-long text is thrown away each time it reaches 8193 bytes; this is what is left. */
  function Kept(piece: seq<Byte>): seq<Byte> {
    piece[|piece| - |piece| % (LINE_LIMIT + 1)..]
  }

  /** The lines delivered for finished pieces: what is left of each, unless nothing is. */
  function Delivered(pieces: seq<seq<Byte>>): seq<seq<Byte>> {
    if pieces == [] then []
    else
      var d := Delivered(pieces[..|pieces| - 1]);
      var k := Kept(pieces[|pieces| - 1]);
      if k == [] then d else d + [k]
  }

  function NonEmpty(pieces: seq<seq<Byte>>): seq<seq<Byte>> {
    if pieces == [] then []
    else
      var d := NonEmpty(pieces[..|pieces| - 1]);
      if pieces[|pieces| - 1] == [] then d else d + [pieces[|pieces| - 1]]
  }

  /** With no piece over the limit, the lines are the non-empty pieces, unchanged. */
  lemma {:induction false} ShortPiecesUnchanged(pieces: seq<seq<Byte>>)
    requires forall p :: p in pieces ==> |p| <= 8192
    ensures Delivered(pieces) == NonEmpty(pieces)
  {
    if pieces != [] {
      ShortPiecesUnchanged(pieces[..|pieces| - 1]);
      var p := pieces[|pieces| - 1];
      assert p in pieces;
      assert |p| % (LINE_LIMIT + 1) == |p|;
      assert Kept(p) == p;
    }
  }

  /** Puts the breaks back: pieces joined by the breaks of s, in order. */
  function Woven(pieces: seq<seq<Byte>>, breaks: seq<Byte>): seq<Byte>
    requires |pieces| == |breaks| + 1
  {
    if breaks == [] then pieces[0]
    else Woven(pieces[..|pieces| - 1], breaks[..|breaks| - 1]) + [breaks[|breaks| - 1]] + pieces[|pieces| - 1]
  }

  function Breaks(s: seq<Byte>): seq<Byte> {
    if s == [] then []
    else Breaks(s[..|s| - 1]) + (if IsBreak(s[|s| - 1]) then [s[|s| - 1]] else [])
  }

  lemma {:induction false} NoBreakInside(s: seq<Byte>)
    ensures forall p, c :: p in Pieces(s) && c in p ==> !IsBreak(c)
  {
    hide IsBreak;
    if s != [] {
      NoBreakInside(s[..|s| - 1]);
    }
  }

  lemma {:induction false} WeaveBack(s: seq<Byte>)
    ensures |Pieces(s)| == |Breaks(s)| + 1 && Woven(Pieces(s), Breaks(s)) == s
  {
    hide IsBreak;
    if s != [] {
      var t, c := s[..|s| - 1], s[|s| - 1];
      WeaveBack(t);
      var p, b := Pieces(t), Breaks(t);
      assert s == t + [c];
      if IsBreak(c) {
        assert (p + [[]])[..|p|] == p && (b + [c])[..|b|] == b;
      } else {
        assert b + [] == b;
        WeaveLonger(p, b, c);
      }
    }
  }

  lemma {:induction false} WeaveLonger(p: seq<seq<Byte>>, b: seq<Byte>, c: Byte)
    requires |p| == |b| + 1
    ensures Woven(p[..|p| - 1] + [p[|p| - 1] + [c]], b) == Woven(p, b) + [c]
  {
    var q := p[..|p| - 1] + [p[|p| - 1] + [c]];
    assert q[..|q| - 1] == p[..|p| - 1];
    if b != [] {
      var w := Woven(p[..|p| - 1], b[..|b| - 1]) + [b[|b| - 1]];
      assert w + (p[|p| - 1] + [c]) == (w + p[|p| - 1]) + [c];
    }
  }

  /** Pieces is the split at the breaks: no piece holds one, and weaving them restores s. */
  lemma {:induction false} PiecesSplit(s: seq<Byte>)
    ensures |Pieces(s)| == |Breaks(s)| + 1 && Woven(Pieces(s), Breaks(s)) == s
    ensures forall p, c: Byte :: p in Pieces(s) && c in p ==> c != 0x0A && c != 0x0D
    ensures forall c :: c in Breaks(s) ==> c == 0x0A || c == 0x0D
  {
    WeaveBack(s);
    NoBreakInside(s);
    OnlyBreaks(s);
  }

  lemma {:induction false} OnlyBreaks(s: seq<Byte>)
    ensures forall c :: c in Breaks(s) ==> IsBreak(c)
  {
    hide IsBreak;
    if s != [] {
      OnlyBreaks(s[..|s| - 1]);
    }
  }

  lemma {:induction false} KeptGrows(piece: seq<Byte>, c: Byte)
    ensures Kept(piece + [c]) == if |Kept(piece)| == LINE_LIMIT then [] else Kept(piece) + [c]
    ensures Kept([]) == []
  {
    var r := |piece| % 8193;
    assert (|piece| + 1) % 8193 == if r == 8192 then 0 else r + 1;
  }

  /** The lines due for s before it ends, and the text held back for the next one. */
  datatype Flow = Flow(lines: seq<seq<Byte>>, held: seq<Byte>)

  function Emit(f: Flow): seq<seq<Byte>> {
    if f.held == [] then f.lines else f.lines + [f.held]
  }

  function FlowOf(s: seq<Byte>): (f: Flow)
    ensures |f.held| <= LINE_LIMIT
  {
    var p := Pieces(s);
    Flow(Delivered(p[..|p| - 1]), Kept(p[|p| - 1]))
  }

  lemma FlowStart()
    ensures FlowOf([]) == Flow([], [])
  {}

  lemma {:induction false} FlowNext(s: seq<Byte>, c: Byte)
    ensures FlowOf(s + [c]) ==
      if c == 0x0A || c == 0x0D then Flow(Emit(FlowOf(s)), [])
      else if |FlowOf(s).held| == 8192 then Flow(FlowOf(s).lines, [])
      else Flow(FlowOf(s).lines, FlowOf(s).held + [c])
  {
    hide Kept;
    var p := Pieces(s);
    assert (s + [c])[..|s|] == s;
    if IsBreak(c) {
      assert (p + [[]])[..|p|] == p;
      KeptGrows([], c);
    } else {
      KeptGrows(p[|p| - 1], c);
    }
  }

  /** When the stream ends, what was held back is a line too. */
  lemma {:induction false} FlowEnd(s: seq<Byte>)
    ensures Emit(FlowOf(s)) == Delivered(Pieces(s))
  {
    hide Kept;
  }

  /** How much text follows the last break. */
  function Trailing(s: seq<Byte>): nat {
    if s == [] || IsBreak(s[|s| - 1]) then 0 else 1 + Trailing(s[..|s| - 1])
  }

  lemma {:induction false} TrailingIsLastPiece(s: seq<Byte>)
    ensures |Pieces(s)[|Pieces(s)| - 1]| == Trailing(s)
  {
    hide IsBreak;
    if s != [] {
      TrailingIsLastPiece(s[..|s| - 1]);
    }
  }

  // ---------------------------------------------------------------- the child

  datatype ReadResult = Got(data: seq<Byte>) | Eof | WouldBlock | Interrupted | ReadError

  /** waitpid(WNOHANG), and the blocking wait that backs it up. */
  datatype WaitResult = Reaped(status: int) | Running | WaitInterrupted | WaitError

  /** What start is asked for, and what the system makes of it. */
  datatype StartRequest = StartRequest(argvEmpty: bool, pipeOk: bool, spawned: nat)

  predicate Startable(r: StartRequest) { !r.argvEmpty && r.pipeOk && r.spawned > 0 }

  /** What one child wrote: the bytes read before its detach was scheduled, those read after
      it, and whether it has been. */
  datatype Output = Output(read: seq<Byte>, late: seq<Byte>, tail: bool)

  const NO_OUTPUT := Output([], [], false)

  /** The lines due: scheduling the detach completes the unfinished one. What is read late
      starts afresh, and its own unfinished line is never completed. */
  function Lines(o: Output): seq<seq<Byte>> {
    if o.tail then Delivered(Pieces(o.read)) + FlowOf(o.late).lines else FlowOf(o.read).lines
  }

  function Held(o: Output): seq<Byte> {
    FlowOf(if o.tail then o.late else o.read).held
  }

  function Take(o: Output, data: seq<Byte>): Output {
    if o.tail then o.(late := o.late + data) else o.(read := o.read + data)
  }

  /** What the callbacks are told; each call is numbered by the start it was handed to. */
  datatype Call = LineCall(start: nat, line: seq<Byte>) | ExitCall(start: nat, ok: bool, status: int)

  /** Exited by itself with code zero, in the encoding of wait(2). */
  predicate Succeeded(status: int) { status % 128 == 0 && status / 256 % 256 == 0 }

  /** A child whose exit callback has run. */
  datatype Ended = Ended(out: Output, status: int)

  datatype Phase = Vacant | Reading | Detaching | Reaping(tries: nat)

  /** The flasher between two callbacks of the event loop. What the loop still owes is part of
      the phase: nothing, nothing, one detach step, one reap timer. */
  datatype Child = Child(phase: Phase, pid: nat, starts: nat, out: Output, ended: seq<Ended>)

  const NO_CHILD := Child(Vacant, 0, 0, NO_OUTPUT, [])

  predicate Sound(c: Child) {
    && (c.phase.Vacant? <==> c.pid == 0)
    && c.starts == |c.ended| + (if c.phase.Vacant? then 0 else 1)
    && (c.phase.Reading? ==> !c.out.tail && c.out.late == [])
    && (c.phase.Detaching? || c.phase.Reaping? ==> c.out.tail)
    && (c.phase.Reaping? ==> 1 <= c.phase.tries <= 200)
    && (forall e :: e in c.ended ==> e.out.tail)
  }

  function Calls(n: nat, lines: seq<seq<Byte>>): seq<Call> {
    seq(|lines|, i requires 0 <= i < |lines| => LineCall(n, lines[i]))
  }

  /** The callbacks of the children that have ended, each child's lines before its exit. */
  function Told(ended: seq<Ended>): seq<Call> {
    if ended == [] then []
    else
      var n := |ended| - 1;
      Told(ended[..n]) + Calls(n, Lines(ended[n].out))
        + [ExitCall(n, Succeeded(ended[n].status), ended[n].status)]
  }

  function Story(c: Child): seq<Call> {
    Told(c.ended) + (if c.phase.Vacant? then [] else Calls(|c.ended|, Lines(c.out)))
  }

  // ---------------------------------------------------------------- what each callback does

  /** Refused while a child runs; a failed pipe or spawn leaves everything as it was. */
  function Begin(c: Child, r: StartRequest): Child {
    if c.pid == 0 && Startable(r) then Child(Reading, r.spawned, c.starts + 1, NO_OUTPUT, c.ended) else c
  }

  predicate PipeOpen(c: Child) { c.phase.Reading? || c.phase.Detaching? }

  function Schedule(c: Child): Child {
    if c.phase.Reading? then c.(phase := Detaching, out := c.out.(tail := true)) else c
  }

  /** Reads until the pipe is drained, ends or fails. */
  function Read(c: Child, results: seq<ReadResult>): Child {
    if !PipeOpen(c) then c
    else
      var d := c.(out := Take(c.out, BytesRead(results)));
      if EndsPipe(results) then Schedule(d) else d
  }

  /** The exit callback runs once the child is gone, and may start the next one. */
  function Finished(c: Child, status: int, restart: Option<StartRequest>): Child {
    var v := c.(phase := Vacant, pid := 0, ended := c.ended + [Ended(c.out, status)]);
    if restart.Some? then Begin(v, restart.value) else v
  }

  /** Whether a look for the child settles its fate, and how: the 200th try blocks. */
  function Fate(tries: nat, w: WaitResult, last: WaitResult): Option<int> {
    match w
    case Reaped(status) => Some(status)
    case WaitError => Some(-1)
    case _ => if tries < 200 then None else if last.Reaped? then Some(last.status) else Some(-1)
  }

  function Poll(c: Child, tries: nat, w: WaitResult, last: WaitResult, restart: Option<StartRequest>): Child {
    match Fate(tries, w, last)
    case None => c.(phase := Reaping(tries + 1))
    case Some(status) => Finished(c, status, restart)
  }

  class Flasher {
    var pid: nat            // 0 is none
    var pipeOpen: bool
    var lineBuf: seq<Byte>
    var detachScheduled: bool
    var exited: bool
    var lineCb: nat         // which start the stored callbacks belong to
    var exitCb: Option<nat>

    var starts: nat         // successful starts so far; numbers the callbacks

    // what the event loop still owes
    var detachTasks: nat
    var reapTimers: seq<nat>

    ghost var out: Output          // of the current child, or the last one
    ghost var ended: seq<Ended>
    ghost var trace: seq<Call>     // every callback made

    /** Exactly one thing is outstanding for a running child: its pipe, its detach step, or its
        reap timer. For no child, nothing is. */
    ghost predicate Life()
      reads this
    {
      && (pid == 0 ==> !pipeOpen && !detachScheduled && detachTasks == 0 && reapTimers == [] && exitCb == None)
      && (pid > 0 ==> !exited && lineCb == |ended| && exitCb == Some(|ended|))
      && (pid > 0 ==>
            || (pipeOpen && !detachScheduled && detachTasks == 0 && reapTimers == [])
            || (pipeOpen && detachScheduled && detachTasks == 1 && reapTimers == [])
            || (!pipeOpen && !detachScheduled && detachTasks == 0 && |reapTimers| == 1))
    }

    ghost function View(): Child
      reads this
    {
      var phase := if pid == 0 then Vacant
                   else if !pipeOpen then Reaping(if reapTimers == [] then 0 else reapTimers[0])
                   else if detachScheduled then Detaching else Reading;
      Child(phase, pid, starts, out, ended)
    }

    ghost predicate Valid()
      reads this
    {
      Life() && Sound(View()) && lineBuf == Held(out) && trace == Story(View())
    }

    constructor ()
      ensures Valid() && View() == NO_CHILD && trace == []
    {
      FlowStart();
      pid, pipeOpen, lineBuf, detachScheduled, exited, lineCb, exitCb := 0, false, [], false, false, 0, None;
      detachTasks, reapTimers, starts := 0, [], 0;
      out, ended, trace := NO_OUTPUT, [], [];
    }

    /** The parent's side of a successful spawn: nothing of an earlier child is kept. */
    method Adopt(child: nat)
      requires Valid() && pid == 0 && child > 0
      modifies this
      ensures Valid() && View() == Child(Reading, child, old(starts) + 1, NO_OUTPUT, old(ended))
      ensures trace == old(trace)
    {
      hide Told;
      FlowStart();
      NothingCalled(|ended|);
      pid := child;
      pipeOpen := true;
      lineBuf := [];
      lineCb := starts;
      exitCb := Some(starts);
      exited := false;
      detachScheduled := false;
      starts := starts + 1;
      out := NO_OUTPUT;
    }

    method Start(r: StartRequest) returns (ok: bool)
      requires Valid()
      modifies this
      ensures Valid() && View() == Begin(old(View()), r)
      ensures ok == (old(pid) == 0 && Startable(r)) && (!ok ==> unchanged(this))
    {
      hide Sound, Story, Held;
      if pid > 0 { return false; }
      if r.argvEmpty { return false; }
      if !r.pipeOk { return false; }
      if r.spawned == 0 { return false; }
      Adopt(r.spawned);
      ok := true;
    }

    method OnLine()
      requires lineBuf != []
      modifies this`lineBuf, this`trace
      ensures lineBuf == [] && trace == old(trace) + [LineCall(lineCb, old(lineBuf))]
    {
      trace := trace + [LineCall(lineCb, lineBuf)];
      lineBuf := [];
    }

    method OnChar(c: Byte)
      requires Valid() && pipeOpen
      modifies this`lineBuf, this`out, this`trace
      ensures Valid() && out == Take(old(out), [c])
    {
      hide FlowOf, IsBreak, Told, Pieces, Delivered;
      TakeOne(out, c);
      CallsAppend(|ended|, Lines(out), lineBuf);
      if IsBreak(c) {
        if |lineBuf| > 0 {
          OnLine();
        }
      } else {
        lineBuf := lineBuf + [c];
        if |lineBuf| > LINE_LIMIT {
          lineBuf := [];
        }
      }
      out := Take(out, [c]);
    }

    method OnChunk(data: seq<Byte>)
      requires Valid() && pipeOpen
      modifies this`lineBuf, this`out, this`trace
      ensures Valid() && out == Take(old(out), data)
    {
      hide Sound, Story, Held;
      assert Take(out, []) == out;
      for i := 0 to |data|
        invariant Valid() && out == Take(old(out), data[..i])
      {
        OnChar(data[i]);
        assert data[..i] + [data[i]] == data[..i + 1];
      }
      assert data[..|data|] == data;
    }

    method OnReadable(results: seq<ReadResult>)
      requires Valid()
      modifies this
      ensures Valid() && View() == Read(old(View()), results)
    {
      hide Sound, Story, Held;
      if !pipeOpen { return; }
      var i := 0;
      while i < |results|
        invariant 0 <= i <= |results| && Valid() && pipeOpen
        invariant View() == old(View()).(out := out)
        invariant Take(out, BytesRead(results[i..])) == Take(old(out), BytesRead(results))
        invariant EndsPipe(results[i..]) == EndsPipe(results)
      {
        var r := results[i];
        assert results[i..][1..] == results[i + 1..];
        match r {
          case Got(data) => OnChunk(data);
          case Interrupted =>
          case WouldBlock =>
            return;
          case Eof =>
            ScheduleDetachPipe();
            return;
          case ReadError =>
            ScheduleDetachPipe();
            return;
        }
        i := i + 1;
      }
    }

    /** End of file, hang-up or error: the unfinished line goes out, the teardown is queued. */
    method ScheduleDetachPipe()
      requires Valid()
      modifies this
      ensures Valid() && View() == Schedule(old(View()))
    {
      hide FlowOf, Pieces, Delivered, Told;
      if !pipeOpen || detachScheduled { return; }
      FlowEnd(out.read);
      FlowStart();
      CallsAppend(|ended|, Lines(out), lineBuf);
      detachScheduled := true;
      if |lineBuf| > 0 {
        OnLine();
      }
      out := out.(tail := true);
      detachTasks := detachTasks + 1;
    }

    /** The queued teardown: after it the pipe is gone and the child is being reaped. */
    method DetachPipe(w: WaitResult, restart: Option<StartRequest>)
      requires Valid() && detachTasks > 0
      modifies this
      ensures Valid() && View() == Poll(old(View()), 0, w, WaitError, restart)
    {
      hide Held, Told, Lines;
      detachTasks := detachTasks - 1;
      pipeOpen := false;
      detachScheduled := false;
      PollReap(0, w, WaitError, restart);
    }

    /** A due reap timer. */
    method ReapTimer(w: WaitResult, last: WaitResult, restart: Option<StartRequest>)
      requires Valid() && reapTimers != []
      modifies this
      ensures Valid() && View() == Poll(old(View()), old(reapTimers)[0], w, last, restart)
    {
      hide Held, Told, Lines;
      var tries := reapTimers[0];
      reapTimers := reapTimers[1..];
      PollReap(tries, w, last, restart);
    }

    /** Nothing is outstanding for the child but the step being taken. */
    ghost predicate Closing()
      reads this
    {
      && pid > 0 && !exited && !pipeOpen && !detachScheduled && detachTasks == 0 && reapTimers == []
      && starts == |ended| + 1 && lineCb == |ended| && exitCb == Some(|ended|)
      && out.tail && (forall e :: e in ended ==> e.out.tail)
      && lineBuf == Held(out) && trace == Told(ended) + Calls(|ended|, Lines(out))
    }

    /** Looks for the child; rearms itself up to the 200th try, and then blocks. */
    method PollReap(tries: nat, w: WaitResult, last: WaitResult, restart: Option<StartRequest>)
      requires Closing() && tries <= 200
      modifies this
      ensures Valid() && View() == Poll(old(View()), tries, w, last, restart)
    {
      hide Held, Told, Lines;
      if pid <= 0 || exited { return; }
      match w {
        case Reaped(status) =>
          Finish(status, restart);
        case WaitError =>
          Finish(-1, restart);
        case _ =>
          if tries < 200 {
            reapTimers := reapTimers + [tries + 1];
          } else if last.Reaped? {
            Finish(last.status, restart);
          } else {
            Finish(-1, restart);
          }
      }
    }

    /** The exit callback, taken out before it is called, may start the next child. */
    method Finish(status: int, restart: Option<StartRequest>)
      requires Closing()
      modifies this
      ensures Valid() && View() == Finished(old(View()), status, restart)
    {
      hide Held, Lines, Calls;
      exited := true;
      pid := 0;
      if exitCb.Some? {
        var cb := exitCb.value;
        exitCb := None;
        trace := trace + [ExitCall(cb, Succeeded(status), status)];
        ended := ended + [Ended(out, status)];
        assert ended[..cb] == old(ended);
        if restart.Some? {
          var ok := Start(restart.value);
        }
      }
    }
  }

  lemma NothingCalled(n: nat)
    ensures Calls(n, []) == []
  {}

  lemma CallsAppend(n: nat, lines: seq<seq<Byte>>, line: seq<Byte>)
    ensures Calls(n, lines + [line]) == Calls(n, lines) + [LineCall(n, line)]
  {}

  lemma {:induction false} TakeOne(o: Output, c: Byte)
    ensures var p := Take(o, [c]); var held := Held(o);
      if IsBreak(c) then Held(p) == [] && Lines(p) == if held == [] then Lines(o) else Lines(o) + [held]
      else Lines(p) == Lines(o) && Held(p) == if |held| == LINE_LIMIT then [] else held + [c]
  {
    hide FlowOf, Pieces, Delivered;
    FlowNext(if o.tail then o.late else o.read, c);
  }

  function BytesRead(results: seq<ReadResult>): seq<Byte> {
    if results == [] then []
    else match results[0]
      case Got(data) => data + BytesRead(results[1..])
      case Interrupted => BytesRead(results[1..])
      case _ => []
  }

  predicate EndsPipe(results: seq<ReadResult>) {
    results != [] &&
    match results[0]
    case Got(_) => EndsPipe(results[1..])
    case Interrupted => EndsPipe(results[1..])
    case WouldBlock => false
    case Eof => true
    case ReadError => true
  }
}
