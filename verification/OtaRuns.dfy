/** Whole lives of flashing children, over every sequence of callbacks and every answer of the
    system: which callbacks are made, that each child's exit is reported once and in time, and
    which output is lost. */
module OtaRuns {
  import opened Crc
  import opened Optional
  import opened OtaFlasher

  // ---------------------------------------------------------------- runs

  datatype Event =
    | Begun(r: StartRequest)                                // start called from outside
    | Readable(results: seq<ReadResult>)
    | Trouble                                               // the pipe's close or error callback
    | Detach(w: WaitResult, restart: Option<StartRequest>)
    | Reap(w: WaitResult, last: WaitResult, restart: Option<StartRequest>)

  /** A turn of the event loop that runs a step it owes. */
  predicate Turn(e: Event) { e.Detach? || e.Reap? }

  /** The loop runs only what it owes. */
  predicate Owed(c: Child, e: Event) {
    && (e.Detach? ==> c.phase.Detaching?)
    && (e.Reap? ==> c.phase.Reaping?)
  }

  function Step(c: Child, e: Event): Child
    requires Owed(c, e)
  {
    match e
    case Begun(r) => Begin(c, r)
    case Readable(results) => Read(c, results)
    case Trouble => Schedule(c)
    case Detach(w, restart) => Poll(c, 0, w, WaitError, restart)
    case Reap(w, last, restart) => Poll(c, c.phase.tries, w, last, restart)
  }

  predicate Runs(c: Child, es: seq<Event>)
    decreases es
  {
    es == [] || (Owed(c, es[0]) && Runs(Step(c, es[0]), es[1..]))
  }

  function End(c: Child, es: seq<Event>): Child
    requires Runs(c, es)
    decreases es
  {
    if es == [] then c else End(Step(c, es[0]), es[1..])
  }

  function Turns(es: seq<Event>): nat {
    if es == [] then 0 else (if Turn(es[0]) then 1 else 0) + Turns(es[1..])
  }

  /** The object under one callback. */
  method Dispatch(f: Flasher, e: Event)
    requires f.Valid() && Owed(f.View(), e)
    modifies f
    ensures f.Valid() && f.View() == Step(old(f.View()), e)
  {
    hide Begin, Read, Schedule, Poll, Sound, Held, Story;
    match e {
      case Begun(r) => var _ := f.Start(r);
      case Readable(results) => f.OnReadable(results);
      case Trouble => f.ScheduleDetachPipe();
      case Detach(w, restart) => f.DetachPipe(w, restart);
      case Reap(w, last, restart) => f.ReapTimer(w, last, restart);
    }
  }

  // ---------------------------------------------------------------- what one callback can do

  /** Either no child has ended; or the running one has, and the flasher is vacant or runs a
      new child of which nothing has been read and for which nothing is scheduled. */
  predicate Moved(c: Child, d: Child) {
    if d.ended == c.ended then
      && d.starts >= c.starts
      && (!c.phase.Vacant? ==> d.starts == c.starts && d.pid == c.pid && !d.phase.Vacant?)
    else
      && !c.phase.Vacant? && |d.ended| == |c.ended| + 1
      && d.ended[..|c.ended|] == c.ended && d.ended[|c.ended|].out == c.out
      && ((d.phase.Vacant? && d.starts == c.starts)
          || (d.phase.Reading? && d.starts == c.starts + 1 && d.out == NO_OUTPUT))
  }

  lemma {:induction false} FinishedMoves(c: Child, status: int, restart: Option<StartRequest>)
    requires Sound(c) && !c.phase.Vacant? && c.out.tail
    ensures var d := Finished(c, status, restart); Sound(d) && Moved(c, d) && d.ended != c.ended
  {
    assert (c.ended + [Ended(c.out, status)])[..|c.ended|] == c.ended;
    assert |c.ended + [Ended(c.out, status)]| == |c.ended| + 1;
  }

  lemma {:induction false} PollMoves(c: Child, tries: nat, w: WaitResult, last: WaitResult, restart: Option<StartRequest>)
    requires Sound(c) && !c.phase.Vacant? && c.out.tail && tries <= 200
    ensures var d := Poll(c, tries, w, last, restart);
      && Sound(d) && Moved(c, d)
      && (d.ended == c.ended ==> tries < 200 && d == c.(phase := Reaping(tries + 1)))
  {
    hide Finished;
    if Fate(tries, w, last).Some? {
      FinishedMoves(c, Fate(tries, w, last).value, restart);
    }
  }

  lemma {:induction false} StepSound(c: Child, e: Event)
    requires Sound(c) && Owed(c, e)
    ensures Sound(Step(c, e)) && Moved(c, Step(c, e))
  {
    hide BytesRead, EndsPipe, Poll;
    match e
    case Detach(w, restart) => PollMoves(c, 0, w, WaitError, restart);
    case Reap(w, last, restart) => PollMoves(c, c.phase.tries, w, last, restart);
    case _ =>
  }

  lemma {:induction false} RunSound(c: Child, es: seq<Event>)
    requires Sound(c) && Runs(c, es)
    ensures Sound(End(c, es))
    ensures c.ended <= End(c, es).ended && c.starts <= End(c, es).starts
    decreases es
  {
    hide Sound, Owed, Step;
    if es != [] {
      StepSound(c, es[0]);
      RunSound(Step(c, es[0]), es[1..]);
    }
  }

  // ---------------------------------------------------------------- exit callbacks

  function ExitsOf(calls: seq<Call>, n: nat): nat {
    if calls == [] then 0
    else
      var last := calls[|calls| - 1];
      ExitsOf(calls[..|calls| - 1], n) + (if last.ExitCall? && last.start == n then 1 else 0)
  }

  lemma {:induction false} ExitsAppend(a: seq<Call>, b: seq<Call>, n: nat)
    ensures ExitsOf(a + b, n) == ExitsOf(a, n) + ExitsOf(b, n)
  {
    if b == [] {
      assert a + b == a;
    } else {
      assert (a + b)[..|a + b| - 1] == a + b[..|b| - 1];
      ExitsAppend(a, b[..|b| - 1], n);
    }
  }

  lemma {:induction false} LinesAreNoExits(k: nat, lines: seq<seq<Byte>>, n: nat)
    ensures ExitsOf(Calls(k, lines), n) == 0
  {
    if lines != [] {
      assert Calls(k, lines)[..|lines| - 1] == Calls(k, lines[..|lines| - 1]);
      LinesAreNoExits(k, lines[..|lines| - 1], n);
    }
  }

  lemma {:induction false} OneExitEach(ended: seq<Ended>, n: nat)
    ensures ExitsOf(Told(ended), n) == if n < |ended| then 1 else 0
  {
    hide Calls, Lines;
    if ended != [] {
      var k := |ended| - 1;
      var lines := Lines(ended[k].out);
      var exit := ExitCall(k, Succeeded(ended[k].status), ended[k].status);
      OneExitEach(ended[..k], n);
      LinesAreNoExits(k, lines, n);
      ExitsAppend(Told(ended[..k]), Calls(k, lines), n);
      ExitsAppend(Told(ended[..k]) + Calls(k, lines), [exit], n);
      assert ExitsOf([exit], n) == ExitsOf([], n) + if k == n then 1 else 0;
    }
  }

  lemma {:induction false} ExitsSoFar(c: Child, n: nat)
    ensures ExitsOf(Story(c), n) == if n < |c.ended| then 1 else 0
  {
    hide Told, Calls, Lines;
    OneExitEach(c.ended, n);
    LinesAreNoExits(|c.ended|, Lines(c.out), n);
    ExitsAppend(Told(c.ended), Calls(|c.ended|, Lines(c.out)), n);
    assert Told(c.ended) + [] == Told(c.ended);
  }

  /** Over any run, each start that has succeeded has had its exit callback exactly once,
      except the one whose child is still running, which has not had it; and no other start
      number is ever used. */
  lemma {:induction false} ExitsOnce(es: seq<Event>, n: nat)
    requires Runs(NO_CHILD, es)
    ensures var c := End(NO_CHILD, es);
      ExitsOf(Story(c), n) == if n < c.starts && !(n == c.starts - 1 && c.pid > 0) then 1 else 0
  {
    hide Runs, End, ExitsOf, Story;
    RunSound(NO_CHILD, es);
    ExitsSoFar(End(NO_CHILD, es), n);
  }

  // ---------------------------------------------------------------- within 201 turns

  /** How many turns may pass before the running child has been reported. */
  function TurnsLeft(c: Child): (n: nat)
    requires Sound(c) && (c.phase.Detaching? || c.phase.Reaping?)
    ensures n > 0
  {
    if c.phase.Detaching? then 201 else 201 - c.phase.tries
  }

  lemma {:induction false} TurnCounts(c: Child, e: Event)
    requires Sound(c) && Owed(c, e) && (c.phase.Detaching? || c.phase.Reaping?)
    ensures var d := Step(c, e);
      if Turn(e) && TurnsLeft(c) == 1 then d.ended != c.ended
      else d.ended != c.ended
           || ((d.phase.Detaching? || d.phase.Reaping?) && Sound(d)
               && TurnsLeft(d) == TurnsLeft(c) - (if Turn(e) then 1 else 0))
  {
    hide BytesRead, EndsPipe, Poll;
    StepSound(c, e);
    match e
    case Detach(w, restart) => PollMoves(c, 0, w, WaitError, restart);
    case Reap(w, last, restart) => PollMoves(c, c.phase.tries, w, last, restart);
    case _ =>
  }

  /** The running child of c has just been reported: all earlier reports stand, and the flasher
      is vacant or runs a new child that carries nothing over. */
  predicate Reported(c: Child, d: Child) {
    && |d.ended| == |c.ended| + 1 && d.ended[..|c.ended|] == c.ended
    && ((d.phase.Vacant? && d.starts == c.starts)
        || (d.phase.Reading? && d.starts == c.starts + 1 && d.out == NO_OUTPUT))
  }

  /** Once the end of its output has been seen, a child is reported within 201 turns of the
      loop (one detach step and 200 reap timers), whatever waitpid answers and whatever else
      happens in between. */
  lemma {:induction false} ReportedInTime(c: Child, es: seq<Event>)
    requires Sound(c) && (c.phase.Detaching? || c.phase.Reaping?)
    requires Runs(c, es) && Turns(es) >= TurnsLeft(c)
    ensures exists k: nat :: k <= |es| && Runs(c, es[..k]) && Turns(es[..k]) <= TurnsLeft(c)
                             && Reported(c, End(c, es[..k]))
    ensures c.ended < End(c, es).ended
    decreases es
  {
    hide Turn, Owed, Step, Sound;
    var e, d := es[0], Step(c, es[0]);
    StepSound(c, e);
    TurnCounts(c, e);
    if d.ended != c.ended {
      OneEvent(c, e);
      assert es[..1] == [e];
      assert Reported(c, End(c, es[..1]));
      RunSound(d, es[1..]);
    } else {
      ReportedInTime(d, es[1..]);
      var k: nat :| k <= |es| - 1 && Runs(d, es[1..][..k]) && Turns(es[1..][..k]) <= TurnsLeft(d)
                    && Reported(d, End(d, es[1..][..k]));
      FirstEvent(c, es[..k + 1]);
      assert es[..k + 1][1..] == es[1..][..k];
    }
  }

  lemma {:induction false} OneEvent(c: Child, e: Event)
    requires Owed(c, e)
    ensures Runs(c, [e]) && End(c, [e]) == Step(c, e) && Turns([e]) <= 1
  {
    assert [e][1..] == [];
    assert Runs(Step(c, e), []);
  }

  lemma FirstEvent(c: Child, es: seq<Event>)
    requires es != [] && Owed(c, es[0])
    ensures Runs(c, es) <==> Runs(Step(c, es[0]), es[1..])
    ensures Runs(c, es) ==> End(c, es) == End(Step(c, es[0]), es[1..])
    ensures Turns(es) == (if Turn(es[0]) then 1 else 0) + Turns(es[1..])
  {}

  predicate EndsOutput(e: Event) { e.Trouble? || (e.Readable? && EndsPipe(e.results)) }

  /** Exactly once under a fair loop: after any history, if the running child's output ends and
      201 turns follow, its exit callback has run once; before, it had not run at all. */
  lemma {:induction false} ReportedExactlyOnce(es: seq<Event>, e: Event, fs: seq<Event>, n: nat)
    requires Runs(NO_CHILD, es) && End(NO_CHILD, es).pid > 0 && End(NO_CHILD, es).starts == n + 1
    requires EndsOutput(e) && Runs(End(NO_CHILD, es), [e] + fs) && Turns(fs) >= 201
    ensures var c := End(NO_CHILD, es);
      && ExitsOf(Story(c), n) == 0
      && ExitsOf(Story(End(c, [e] + fs)), n) == 1
  {
    hide Runs, End, ExitsOf, Story, Turns, EndsPipe, BytesRead;
    var c := End(NO_CHILD, es);
    RunSound(NO_CHILD, es);
    ExitsOnce(es, n);
    FirstEvent(c, [e] + fs);
    assert ([e] + fs)[1..] == fs;
    var d := Step(c, e);
    StepSound(c, e);
    ReportedInTime(d, fs);
    RunSound(d, fs);
    ExitsSoFar(End(d, fs), n);
  }

  // ---------------------------------------------------------------- what is reported

  /** Exactly the turns that settle a child's fate: it was reaped or waiting for it failed, or
      it was the 200th timer, which waits until it can tell. */
  predicate Final(c: Child, e: Event) {
    match e
    case Detach(w, _) => w.Reaped? || w.WaitError?
    case Reap(w, _, _) => w.Reaped? || w.WaitError? || c.phase == Reaping(200)
    case _ => false
  }

  /** What the wait that settled it returned; -1 if waiting failed. */
  function Verdict(e: Event): int
    requires Turn(e)
  {
    match e
    case Detach(Reaped(status), _) => status
    case Reap(Reaped(status), _, _) => status
    case Reap(Running, Reaped(status), _) => status
    case Reap(WaitInterrupted, Reaped(status), _) => status
    case _ => -1
  }

  function Restart(e: Event): Option<StartRequest>
    requires Turn(e)
  {
    match e
    case Detach(_, restart) => restart
    case Reap(_, _, restart) => restart
  }

  /** A turn that does not settle it owes one timer more; one that does reports the verdict and
      leaves the child asked for by the callback, if it can be started, or none. */
  lemma {:induction false} FinalTurn(c: Child, e: Event)
    requires Sound(c) && Owed(c, e) && Turn(e)
    ensures var d := Step(c, e);
      if !Final(c, e) then
        d == c.(phase := Reaping(if e.Detach? then 1 else c.phase.tries + 1))
      else
        var ended := c.ended + [Ended(c.out, Verdict(e))];
        match Restart(e)
        case Some(r) =>
          if !r.argvEmpty && r.pipeOk && r.spawned > 0
          then d == Child(Reading, r.spawned, c.starts + 1, Output([], [], false), ended)
          else d == Child(Vacant, 0, c.starts, c.out, ended)
        case None => d == Child(Vacant, 0, c.starts, c.out, ended)
  {}

  /** A start succeeds exactly on a vacant flasher, with arguments, a pipe and a process. */
  lemma StartTurn(c: Child, r: StartRequest)
    requires Sound(c)
    ensures Step(c, Begun(r)) ==
      if c.phase.Vacant? && !r.argvEmpty && r.pipeOk && r.spawned > 0
      then Child(Reading, r.spawned, c.starts + 1, Output([], [], false), c.ended) else c
  {}

  /** Over any run, the status of every ended child is the verdict of the turn that settled it,
      and nothing ended in between. */
  lemma {:induction false} StatusReported(c: Child, es: seq<Event>, n: nat)
    requires Sound(c) && Runs(c, es) && |c.ended| <= n < |End(c, es).ended|
    ensures exists k: nat :: SettledBy(c, es, k, n, End(c, es).ended[n].status)
    decreases es
  {
    hide Sound, Turn, Owed, Step, Final, Verdict;
    var d := Step(c, es[0]);
    StepSound(c, es[0]);
    RunSound(d, es[1..]);
    NotATurn(c, es[0]);
    if |d.ended| <= n {
      StatusReported(d, es[1..], n);
      var k: nat :| SettledBy(d, es[1..], k, n, End(d, es[1..]).ended[n].status);
      FirstEvent(c, es[..k + 1]);
      assert es[..k + 1][1..] == es[1..][..k];
      assert SettledBy(c, es, k + 1, n, End(c, es).ended[n].status);
    } else {
      assert es[..0] == [];
      SettlesNow(c, es[0]);
      assert d.ended[n] == End(d, es[1..]).ended[n];
      assert SettledBy(c, es, 0, n, End(c, es).ended[n].status);
    }
  }

  /** Event k settles the fate of child n, with the given status. */
  ghost predicate SettledBy(c: Child, es: seq<Event>, k: nat, n: nat, status: int) {
    && k < |es| && Runs(c, es[..k]) && |End(c, es[..k]).ended| == n
    && Turn(es[k]) && Final(End(c, es[..k]), es[k]) && status == Verdict(es[k])
  }

  lemma {:induction false} NotATurn(c: Child, e: Event)
    requires Sound(c) && Owed(c, e)
    ensures |Step(c, e).ended| <= |c.ended| + 1
    ensures !Turn(e) ==> Step(c, e).ended == c.ended
  {
    hide BytesRead, EndsPipe, Poll;
    StepSound(c, e);
  }

  lemma {:induction false} SettlesNow(c: Child, e: Event)
    requires Sound(c) && Owed(c, e) && Step(c, e).ended != c.ended
    ensures Turn(e) && Final(c, e) && Step(c, e).ended == c.ended + [Ended(c.out, Verdict(e))]
  {
    hide Sound, Final, Verdict;
    NotATurn(c, e);
    FinalTurn(c, e);
  }

  /** A child counts as successful exactly if it exited by itself with code 0: of the statuses
      an exit with code n leaves only that for 0, none a signal leaves, core dump or not, and
      not the -1 of a failed wait. */
  lemma {:induction false} SuccessMeans(n: nat, k: nat, signal: nat)
    requires n < 256 && 1 <= signal <= 127
    ensures Succeeded(256 * n) <==> n == 0
    ensures !Succeeded(256 * k + signal) && !Succeeded(256 * k + 128 + signal)
    ensures !Succeeded(-1)
  {
    LowSeven(2 * n, 0);
    LowSeven(2 * k, signal);
    LowSeven(2 * k + 1, signal);
    assert 256 * n / 256 % 256 == n by { ExitCode(n); }
  }

  lemma LowSeven(q: nat, r: nat)
    requires r < 128
    ensures (128 * q + r) % 128 == r
  {}

  lemma ExitCode(n: nat)
    requires n < 256
    ensures 256 * n / 256 % 256 == n
  {}

  // ---------------------------------------------------------------- the bytes of a child

  function Joined(parts: seq<ReadResult>): seq<Byte> {
    if parts == [] then []
    else Joined(parts[..|parts| - 1]) + (if parts[|parts| - 1].Got? then parts[|parts| - 1].data else [])
  }

  predicate GoesOn(r: ReadResult) { r.Got? || r.Interrupted? }

  lemma {:induction false} JoinedFirst(r: ReadResult, parts: seq<ReadResult>)
    ensures Joined([r] + parts) == (if r.Got? then r.data else []) + Joined(parts)
  {
    var head: seq<Byte> := if r.Got? then r.data else [];
    if parts == [] {
      assert [r] + parts == [r] && [r][..0] == [];
      assert Joined([]) == [] && [] + head == head + [];
    } else {
      var p := parts[..|parts| - 1];
      JoinedFirst(r, p);
      assert ([r] + parts)[..|parts|] == [r] + p;
      var tail: seq<Byte> := if parts[|parts| - 1].Got? then parts[|parts| - 1].data else [];
      assert (head + Joined(p)) + tail == head + (Joined(p) + tail);
    }
  }

  /** One wake-up reads everything up to the first result that is neither data nor an
      interruption, and the pipe has ended exactly if that is an end of file or an error. */
  lemma {:induction false} OneWakeUp(before: seq<ReadResult>, r: ReadResult, after: seq<ReadResult>)
    requires (forall x :: x in before ==> GoesOn(x)) && !GoesOn(r)
    ensures BytesRead(before + [r] + after) == Joined(before)
    ensures EndsPipe(before + [r] + after) <==> r == Eof || r == ReadError
    decreases before
  {
    var all := before + [r] + after;
    if before == [] {
      assert all[0] == r;
    } else {
      assert all[1..] == before[1..] + [r] + after;
      assert all[0] == before[0] && before[0] in before;
      OneWakeUp(before[1..], r, after);
      assert [before[0]] + before[1..] == before;
      JoinedFirst(before[0], before[1..]);
      assert [] + Joined(before[1..]) == Joined(before[1..]);
    }
  }

  /** All that the wake-ups of the child running at c read, up to its end. */
  function Heard(c: Child, es: seq<Event>): seq<Byte>
    requires Runs(c, es)
    decreases es
  {
    if es == [] then []
    else
      var d := Step(c, es[0]);
      if d.ended != c.ended then []
      else (if es[0].Readable? && (c.phase.Reading? || c.phase.Detaching?) then BytesRead(es[0].results) else [])
           + Heard(d, es[1..])
  }

  /** What is kept of a child's output is all its wake-ups read, in order: of the one still
      running at the end, and of one that has ended. */
  lemma {:induction false} OutputIsHeard(c: Child, es: seq<Event>)
    requires Sound(c) && !c.phase.Vacant? && Runs(c, es)
    ensures var d := End(c, es); var n := |c.ended|;
      var out := if |d.ended| <= n then d.out else d.ended[n].out;
      out.read + out.late == c.out.read + c.out.late + Heard(c, es)
    decreases es
  {
    hide Sound, Step, Owed, BytesRead;
    if es == [] {
      assert c.out.read + c.out.late + [] == c.out.read + c.out.late;
    } else {
      var e, d := es[0], Step(c, es[0]);
      StepSound(c, e);
      RunSound(d, es[1..]);
      if d.ended != c.ended {
        SettlesNow(c, e);
        assert End(c, es).ended[|c.ended|] == d.ended[|c.ended|];
        assert c.out.read + c.out.late + [] == c.out.read + c.out.late;
      } else {
        OutputGrows(c, e);
        OutputIsHeard(d, es[1..]);
        var now := if e.Readable? && PipeOpen(c) then BytesRead(e.results) else [];
        var all := c.out.read + c.out.late;
        assert (all + now) + Heard(d, es[1..]) == all + (now + Heard(d, es[1..]));
      }
    }
  }

  lemma {:induction false} OutputGrows(c: Child, e: Event)
    requires Sound(c) && !c.phase.Vacant? && Owed(c, e) && Step(c, e).ended == c.ended
    ensures var o := Step(c, e).out;
      o.read + o.late == c.out.read + c.out.late + if e.Readable? && PipeOpen(c) then BytesRead(e.results) else []
  {
    hide BytesRead, EndsPipe;
    var all := c.out.read + c.out.late;
    if Turn(e) {
      hide Poll;
      FinalTurn(c, e);
      assert all + [] == all;
    } else if e.Readable? {
      var b := BytesRead(e.results);
      assert c.out.read + (c.out.late + b) == all + b;
      assert c.out.late == [] ==> (c.out.read + b) + c.out.late == all + b;
      assert all + [] == all;
    } else {
      assert all + [] == all;
    }
  }

  // ---------------------------------------------------------------- the lines of a child

  /** The pipe is never read once its end or a failure has been seen. */
  predicate NoLateRead(c: Child, es: seq<Event>)
    requires Runs(c, es)
    decreases es
  {
    es == [] ||
    (!(c.phase.Detaching? && es[0].Readable?) && NoLateRead(Step(c, es[0]), es[1..]))
  }

  predicate Punctual(c: Child) {
    c.out.late == [] && forall e :: e in c.ended ==> e.out.late == []
  }

  lemma {:induction false} PunctualRun(c: Child, es: seq<Event>)
    requires Sound(c) && Punctual(c) && Runs(c, es) && NoLateRead(c, es)
    ensures Punctual(End(c, es))
    decreases es
  {
    hide Sound;
    if es != [] {
      StepSound(c, es[0]);
      PunctualStep(c, es[0]);
      PunctualRun(Step(c, es[0]), es[1..]);
    }
  }

  lemma {:induction false} PunctualStep(c: Child, e: Event)
    requires Sound(c) && Punctual(c) && Owed(c, e) && !(c.phase.Detaching? && e.Readable?)
    ensures Punctual(Step(c, e))
  {
    hide BytesRead, EndsPipe, Startable;
  }

  /** A child's callbacks are exactly the lines of all it wrote, the unfinished last one
      included, however the reads cut it up, followed by its exit. */
  lemma {:induction false} EndedChildTold(es: seq<Event>, n: nat)
    requires Runs(NO_CHILD, es) && NoLateRead(NO_CHILD, es) && n < |End(NO_CHILD, es).ended|
    ensures var x := End(NO_CHILD, es).ended;
      Told(x[..n + 1]) == Told(x[..n]) + Calls(n, Delivered(Pieces(x[n].out.read)))
                          + [ExitCall(n, Succeeded(x[n].status), x[n].status)]
  {
    hide Runs, End, NoLateRead, Delivered, Pieces, FlowOf;
    RunSound(NO_CHILD, es);
    PunctualRun(NO_CHILD, es);
    FlowStart();
    var x := End(NO_CHILD, es).ended;
    assert x[n] in x;
    assert x[..n + 1][..n] == x[..n];
    assert Lines(x[n].out) == Delivered(Pieces(x[n].out.read)) + [];
  }

  /** The lines of both parts are delivered in full exactly when the late part leaves nothing
      over: its text after the last break is empty, or was thrown away as over-long. Unless
      8193 bytes or more come without a break: when it is empty or ends in a break. */
  lemma {:induction false} LateTailIsLost(o: Output)
    requires o.tail
    ensures var whole := Lines(o) == Delivered(Pieces(o.read)) + Delivered(Pieces(o.late));
      && (whole <==> Trailing(o.late) % (LINE_LIMIT + 1) == 0)
      && (Trailing(o.late) <= LINE_LIMIT ==> (whole <==> o.late == [] || IsBreak(o.late[|o.late| - 1])))
  {
    TrailingIsLastPiece(o.late);
    FlowEnd(o.late);
    HeldIsTrailing(o.late);
    hide FlowOf, Pieces, Delivered, IsBreak;
    var d, f := Delivered(Pieces(o.read)), FlowOf(o.late);
    assert d + (f.lines + [f.held]) == (d + f.lines) + [f.held];
  }

  lemma {:induction false} HeldIsTrailing(s: seq<Byte>)
    ensures FlowOf(s).held == [] <==> Trailing(s) % (LINE_LIMIT + 1) == 0
  {
    hide Delivered, Pieces;
    TrailingIsLastPiece(s);
  }

  /** It can happen: an error is reported, then one more byte is read before the detach. */
  lemma {:induction false} LateTailExample(r: StartRequest)
    requires Startable(r)
    ensures var es := [Begun(r), Trouble, Readable([Got([0x78]), WouldBlock]), Detach(Reaped(0), None)];
      && Runs(NO_CHILD, es)
      && End(NO_CHILD, es).ended == [Ended(Output([], [0x78], true), 0)]
      && Story(End(NO_CHILD, es)) == [ExitCall(0, true, 0)]
  {
    hide Told, Lines, Held;
    var results := [Got([0x78]), WouldBlock];
    assert results[1..] == [WouldBlock];
    assert BytesRead(results) == [0x78];
    assert !EndsPipe(results);
    var e1, e2, e3, e4 := Begun(r), Trouble, Readable(results), Detach(Reaped(0), None);
    var c1 := Step(NO_CHILD, e1);
    var c2 := Step(c1, e2);
    var c3 := Step(c2, e3);
    assert c3.out == Output([], [0x78], true);
    OneEvent(c3, e4);
    hide Step, BytesRead, EndsPipe;
    assert [e3, e4][1..] == [e4] && [e2, e3, e4][1..] == [e3, e4];
    assert [e1, e2, e3, e4][1..] == [e2, e3, e4];
    FirstEvent(c2, [e3, e4]);
    FirstEvent(c1, [e2, e3, e4]);
    FirstEvent(NO_CHILD, [e1, e2, e3, e4]);
    OneLostByte();
  }

  lemma {:induction false} OneLostByte()
    ensures Told([Ended(Output([], [0x78], true), 0)]) == [ExitCall(0, true, 0)]
  {
    assert !IsBreak(0x78);
    hide IsBreak, FlowOf, Pieces, Delivered;
    var o := Output([], [0x78], true);
    FlowStart();
    FlowEnd([]);
    FlowNext([], 0x78);
    assert [] + [0x78 as Byte] == [0x78];
    assert Lines(o) == [];
    hide Lines;
    NothingCalled(0);
    OneEndedTold(o, 0);
  }

  lemma {:induction false} OneEndedTold(o: Output, status: int)
    ensures Told([Ended(o, status)]) == Calls(0, Lines(o)) + [ExitCall(0, Succeeded(status), status)]
  {
    hide Lines, Calls, Succeeded;
    assert [Ended(o, status)][..0] == [];
    assert Told([]) == [];
  }
}
