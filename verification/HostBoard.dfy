/** The CON client against the board's server: with bounded tick gaps and answer times, and
    no more than two unanswered pings in a row, neither side ever gives the link up. */
module HostBoard {
  import opened ConSm
  import opened ConRuns
  import opened Optional

  const WATCHDOG: nat := 3000

  // ---------------------------------------------------------------- the board's server

  datatype Board = Board(ready: bool, lastCon: nat)

  function BoardAfter(b: Board, msg: Msg, now: nat): Board {
    match msg
    case EnableRequest => Board(true, now)
    case PingRequest => Board(true, now)
    case DisableRequest => b.(ready := false)
    case _ => b
  }

  function BoardReply(msg: Msg): Option<Msg> {
    match msg
    case EnableRequest => Some(EnableResponse)
    case PingRequest => Some(PingResponse)
    case DisableRequest => Some(DisableResponse)
    case _ => None
  }

  function BoardWatch(b: Board, now: nat): Board {
    if b.ready && b.lastCon > 0 && now - b.lastCon > WATCHDOG then b.(ready := false) else b
  }

  class ConServer {
    var conReady: bool
    var lastCon: nat

    function Abs(): Board
      reads this
    {
      Board(conReady, lastCon)
    }

    constructor ()
      ensures Abs() == Board(false, 0)
    {
      conReady, lastCon := false, 0;
    }

    method Handle(msg: Msg, now: nat) returns (reply: Option<Msg>)
      modifies this
      ensures Abs() == BoardAfter(old(Abs()), msg, now) && reply == BoardReply(msg)
    {
      reply := None;
      if msg == EnableRequest {
        reply := Some(EnableResponse);
        conReady := true;
        lastCon := now;
      } else if msg == DisableRequest {
        reply := Some(DisableResponse);
        conReady := false;
      } else if msg == PingRequest {
        reply := Some(PingResponse);
        conReady := true;
        lastCon := now;
      }
    }

    method Watchdog(now: nat)
      modifies this
      ensures Abs() == BoardWatch(old(Abs()), now)
    {
      if conReady && lastCon > 0 && now - lastCon > WATCHDOG {
        conReady := false;
      }
    }
  }

  // ---------------------------------------------------------------- the two together

  /** A ping that will be answered, on its way to the board or its answer on the way back. */
  datatype Flight = NoPing | ToBoard(sentAt: nat) | ToHost(sentAt: nat)

  datatype Sys = Sys(host: Link, board: Board, wire: Flight, missed: nat, lastTick: nat, now: nat)

  datatype Action =
    | HostTick(answered: bool)   // if a ping goes out, whether it will be answered
    | BoardGets
    | HostGets
    | Stray                      // a ping whose answer is lost still reaches the board
    | BoardPump

  function Pinged(fx: seq<Effect>): bool { Send(PingRequest, true) in fx }

  function Act(s: Sys, t: nat, a: Action): Sys {
    match a
    case HostTick(answered) =>
      var o := OnTick(s.host, t, true, true);
      s.(host := o.link, lastTick := t, now := t,
         wire := if Pinged(o.fx) && answered then ToBoard(t) else s.wire,
         missed := if !Pinged(o.fx) then s.missed else if answered then 0 else s.missed + 1)
    case BoardGets =>
      if s.wire.ToBoard?
      then s.(board := BoardAfter(s.board, PingRequest, t), wire := ToHost(s.wire.sentAt), now := t)
      else s.(now := t)
    case HostGets =>
      if s.wire.ToHost? && BoardReply(PingRequest).Some?
      then s.(host := OnReceive(s.host, BoardReply(PingRequest).value, t, true).link, wire := NoPing, now := t)
      else s.(now := t)
    case Stray =>
      s.(board := BoardAfter(s.board, PingRequest, t), now := t)
    case BoardPump =>
      s.(board := BoardWatch(s.board, t), now := t)
  }

  /** The environment's promises: the timer fires at least every delta, an answered ping is
      back within d, and no three pings in a row go unanswered. */
  predicate Allowed(s: Sys, t: nat, a: Action, delta: nat, d: nat) {
    && s.now <= t <= s.lastTick + delta
    && (s.wire != NoPing ==> t <= s.wire.sentAt + d)
    && Act(s, t, a).missed <= 2
  }

  datatype Dated = Dated(t: nat, a: Action)

  predicate AllowedRun(s: Sys, ms: seq<Dated>, delta: nat, d: nat)
    decreases ms
  {
    ms == [] ||
    (Allowed(s, ms[0].t, ms[0].a, delta, d) && AllowedRun(Act(s, ms[0].t, ms[0].a), ms[1..], delta, d))
  }

  function After(s: Sys, ms: seq<Dated>): Sys
    decreases ms
  {
    if ms == [] then s else After(Act(s, ms[0].t, ms[0].a), ms[1..])
  }

  /** How stale the board's view of the host can get. */
  function Staleness(delta: nat, d: nat): nat { 1600 + 3 * delta + 2 * d }

  ghost predicate Healthy(s: Sys, delta: nat, d: nat) {
    && s.host.Up? && s.host.Sound() && s.board.ready && s.board.lastCon > 0
    && s.missed <= 2
    && s.lastTick < s.host.ping && s.lastTick <= s.now <= s.lastTick + delta
    && s.board.lastCon <= s.now
    && (s.wire != NoPing ==> s.missed == 0)
    && match s.wire
       case NoPing =>
         && s.host.lost == s.missed
         && s.host.ping <= s.board.lastCon + d + PING_TIME + s.host.lost * (REPEAT_PING_TIME + delta)
       case ToBoard(at) =>
         && s.host.ping == at + REPEAT_PING_TIME && at <= s.now <= at + d
         && at <= s.board.lastCon + d + 1600 + 3 * delta
       case ToHost(at) =>
         && s.host.ping == at + REPEAT_PING_TIME
         && at <= s.board.lastCon && s.now <= at + d
  }

  lemma {:induction false} TickWhileUp(l: Link, t: nat)
    requires l.Up? && l.Sound()
    ensures var o := OnTick(l, t, true, true);
      if t < l.ping then o == Outcome(l, [])
      else if l.lost <= 2 then o.link == Up(t + REPEAT_PING_TIME, l.lost + 1) && Pinged(o.fx)
      else o.link.Down?
  {
    assert RspOverdue(l, t, true) == Outcome(l, []);
  }

  lemma {:induction false} HealthyTick(s: Sys, t: nat, answered: bool, delta: nat, d: nat)
    requires Healthy(s, delta, d) && Allowed(s, t, HostTick(answered), delta, d)
    requires d < REPEAT_PING_TIME
    ensures Healthy(Act(s, t, HostTick(answered)), delta, d)
  {
    hide OnTick, Pinged;
    TickWhileUp(s.host, t);
    NothingPinged();
    assert s.host.lost == 0 || s.host.lost == 1 || s.host.lost == 2 || s.host.lost == 3;
  }

  lemma NothingPinged()
    ensures !Pinged([])
  {}

  lemma {:induction false} HealthyStep(s: Sys, t: nat, a: Action, delta: nat, d: nat)
    requires Healthy(s, delta, d) && Allowed(s, t, a, delta, d)
    requires d < REPEAT_PING_TIME && Staleness(delta, d) <= WATCHDOG
    ensures Healthy(Act(s, t, a), delta, d)
  {
    hide OnTick;
    match a
    case HostTick(answered) =>
      HealthyTick(s, t, answered, delta, d);
    case BoardPump =>
      HealthyIsFresh(s.(now := t), delta, d);
    case _ =>
  }

  lemma {:induction false} HealthyIsFresh(s: Sys, delta: nat, d: nat)
    requires Healthy(s, delta, d)
    ensures s.now <= s.board.lastCon + Staleness(delta, d)
  {
    assert s.wire.NoPing? ==> s.host.lost == 0 || s.host.lost == 1 || s.host.lost == 2;
  }

  /** The state when the host has received the answer to its ENABLE_REQUEST: the board heard
      the request at seen, and the answer arrived no more than d after the request was sent. */
  function Established(seen: nat, t: nat, lastTick: nat): Sys {
    var board := BoardAfter(Board(false, 0), EnableRequest, seen);
    var host := OnReceive(Opening(1, 0), EnableResponse, t, true).link;
    Sys(host, board, NoPing, 0, lastTick, t)
  }

  /** Over every allowed run from there: the host never leaves CONNECTED, the board's view of
      it is never older than 1600 + 3 delta + 2 d, and its watchdog never trips. */
  lemma {:induction false} NeitherSideGivesUp(seen: nat, t: nat, lastTick: nat, ms: seq<Dated>, delta: nat, d: nat)
    requires 0 < seen <= t <= seen + d && lastTick <= t <= lastTick + delta
    requires d < REPEAT_PING_TIME && Staleness(delta, d) <= WATCHDOG
    requires AllowedRun(Established(seen, t, lastTick), ms, delta, d)
    ensures var s := After(Established(seen, t, lastTick), ms);
      && s.host.Up? && s.board.ready
      && s.now <= s.board.lastCon + Staleness(delta, d)
      && BoardWatch(s.board, s.now) == s.board
  {
    HealthyRun(Established(seen, t, lastTick), ms, delta, d);
    HealthyIsFresh(After(Established(seen, t, lastTick), ms), delta, d);
  }

  lemma {:induction false} HealthyRun(s: Sys, ms: seq<Dated>, delta: nat, d: nat)
    requires Healthy(s, delta, d) && AllowedRun(s, ms, delta, d)
    requires d < REPEAT_PING_TIME && Staleness(delta, d) <= WATCHDOG
    ensures Healthy(After(s, ms), delta, d)
    decreases ms
  {
    hide Healthy, Allowed, Act;
    if ms != [] {
      HealthyStep(s, ms[0].t, ms[0].a, delta, d);
      HealthyRun(Act(s, ms[0].t, ms[0].a), ms[1..], delta, d);
    }
  }

  /** With the repository's figures, ticks every 100 ms at most and answers in less than 300 ms,
      that is so with no further condition, and the board is never within half a second of its
      watchdog. */
  lemma {:induction false} RepositoryFigures(seen: nat, t: nat, lastTick: nat, ms: seq<Dated>, delta: nat, d: nat)
    requires delta <= 100 && d < 300
    requires 0 < seen <= t <= seen + d && lastTick <= t <= lastTick + delta
    requires AllowedRun(Established(seen, t, lastTick), ms, delta, d)
    ensures var s := After(Established(seen, t, lastTick), ms);
      s.host.Up? && s.board.ready && s.now < s.board.lastCon + WATCHDOG - 500
  {
    NeitherSideGivesUp(seen, t, lastTick, ms, delta, d);
  }

  // ---------------------------------------------------------------- the board alone

  datatype BoardEvent = Hears(t: nat, msg: Msg) | Pump(t: nat)

  function BoardStep(b: Board, e: BoardEvent): Board {
    match e
    case Hears(t, msg) => BoardAfter(b, msg, t)
    case Pump(t) => BoardWatch(b, t)
  }

  function BoardRun(b: Board, es: seq<BoardEvent>): Board {
    if es == [] then b else BoardStep(BoardRun(b, es[..|es| - 1]), es[|es| - 1])
  }

  /** The messages that count as activity of the host. */
  predicate Active(e: BoardEvent) { e.Hears? && (e.msg == EnableRequest || e.msg == PingRequest) }

  /** Event i is the last activity of the host before event j. */
  predicate LastActive(es: seq<BoardEvent>, i: nat, j: nat) {
    && i < j <= |es| && Active(es[i])
    && forall k :: i < k < j ==> !Active(es[k])
  }

  /** After event i the board has not been told to disconnect, and no pump up to event j has
      found the host silent for more than 3000 ms since then. */
  predicate Undisturbed(es: seq<BoardEvent>, i: nat, j: nat) {
    i < |es| && forall k :: i < k < j && k < |es| ==>
      es[k] != Hears(es[k].t, DisableRequest) && (es[k].Pump? ==> es[k].t - es[i].t <= 3000)
  }

  lemma {:induction false} BoardMemory(es: seq<BoardEvent>, j: nat)
    requires j <= |es| && forall k :: 0 <= k < |es| ==> es[k].t > 0
    ensures var b := BoardRun(Board(false, 0), es[..j]);
      && (b.lastCon == 0 ==> !b.ready && forall k :: 0 <= k < j ==> !Active(es[k]))
      && (b.lastCon > 0 ==> exists i: nat ::
            LastActive(es, i, j) && b.lastCon == es[i].t && (b.ready <==> Undisturbed(es, i, j)))
    decreases j
  {
    if j > 0 {
      BoardMemory(es, j - 1);
      var e := es[j - 1];
      assert es[..j][..j - 1] == es[..j - 1];
      var b := BoardRun(Board(false, 0), es[..j - 1]);
      hide BoardRun;
      if Active(e) {
        assert LastActive(es, j - 1, j) && Undisturbed(es, j - 1, j);
      } else if b.lastCon > 0 {
        var i: nat :| LastActive(es, i, j - 1) && b.lastCon == es[i].t && (b.ready <==> Undisturbed(es, i, j - 1));
        MemoryGoesOn(es, i, j);
      }
    }
  }

  lemma {:induction false} MemoryGoesOn(es: seq<BoardEvent>, i: nat, j: nat)
    requires 0 < j <= |es| && LastActive(es, i, j - 1) && !Active(es[j - 1])
    ensures LastActive(es, i, j)
    ensures var e := es[j - 1];
      Undisturbed(es, i, j) <==>
      Undisturbed(es, i, j - 1) && e != Hears(e.t, DisableRequest) && (e.Pump? ==> e.t - es[i].t <= 3000)
  {}

  /** The board regards the link as up exactly if it has heard an ENABLE_REQUEST or a
      PING_REQUEST, and since the last of these has neither heard a DISABLE_REQUEST nor been
      pumped more than 3000 ms after it. */
  lemma {:induction false} BoardReadyIff(es: seq<BoardEvent>)
    requires forall k :: 0 <= k < |es| ==> es[k].t > 0
    ensures BoardRun(Board(false, 0), es).ready <==>
            exists i: nat :: LastActive(es, i, |es|) && Undisturbed(es, i, |es|)
  {
    BoardMemory(es, |es|);
    assert es[..|es|] == es;
    forall i: nat, k: nat | LastActive(es, i, |es|) && LastActive(es, k, |es|)
      ensures i == k
    {}
  }

  // ---------------------------------------------------------------- a cut line

  /** Time does not run backwards, and the board is pumped at least every p. */
  predicate Pumped(lastPump: nat, now: nat, p: nat, es: seq<BoardEvent>)
    decreases es
  {
    es == [] ||
    (now <= es[0].t <= lastPump + p && Pumped(if es[0].Pump? then es[0].t else lastPump, es[0].t, p, es[1..]))
  }

  lemma {:induction false} SilenceFrom(es: seq<BoardEvent>, i: nat, lastPump: nat, now: nat, p: nat, t: nat)
    requires i <= |es| && Pumped(lastPump, now, p, es[i..]) && lastPump <= t + 3000
    requires forall k :: i <= k < |es| && es[k].Pump? ==> es[k].t - t <= 3000
    ensures i < |es| ==> es[|es| - 1].t <= t + 3000 + p
    decreases |es| - i
  {
    if i < |es| {
      assert es[i..][0] == es[i] && es[i..][1..] == es[i + 1..];
      SilenceFrom(es, i + 1, if es[i].Pump? then es[i].t else lastPump, es[i].t, p, t);
    }
  }

  lemma {:induction false} RunAppend(b: Board, before: seq<BoardEvent>, after: seq<BoardEvent>)
    ensures BoardRun(b, before + after) == BoardRun(BoardRun(b, before), after)
  {
    hide BoardStep;
    if after == [] {
      assert before + after == before;
    } else {
      assert (before + after)[..|before + after| - 1] == before + after[..|after| - 1];
      RunAppend(b, before, after[..|after| - 1]);
    }
  }

  lemma {:induction false} SilentBoard(b: Board, es: seq<BoardEvent>)
    requires b.lastCon > 0 && forall k :: 0 <= k < |es| ==> !Active(es[k])
    ensures var c := BoardRun(b, es);
      && c.lastCon == b.lastCon
      && (c.ready <==> b.ready && forall k :: 0 <= k < |es| ==>
            es[k] != Hears(es[k].t, DisableRequest) && (es[k].Pump? ==> es[k].t - b.lastCon <= 3000))
  {
    if es != [] {
      var f := es[..|es| - 1];
      SilentBoard(b, f);
      hide BoardRun;
      assert BoardRun(b, es) == BoardStep(BoardRun(b, f), es[|es| - 1]) by { RunUnfolds(b, es); }
      assert forall k :: 0 <= k < |f| ==> f[k] == es[k];
    }
  }

  lemma RunUnfolds(b: Board, es: seq<BoardEvent>)
    requires es != []
    ensures BoardRun(b, es) == BoardStep(BoardRun(b, es[..|es| - 1]), es[|es| - 1])
  {}

  /** If the host was last heard at t and the board is pumped at least every p, it has dropped
      the link by t + 3000 + p; and unless it is told to, no sooner than a pump after t + 3000. */
  lemma {:induction false} BoardGivesUp(ready: bool, t: nat, es: seq<BoardEvent>, lastPump: nat, p: nat)
    requires t > 0 && lastPump <= t + 3000 && Pumped(lastPump, t, p, es)
    requires forall k :: 0 <= k < |es| ==> !Active(es[k])
    ensures es != [] && es[|es| - 1].t > t + 3000 + p ==> !BoardRun(Board(ready, t), es).ready
    ensures ready && (forall k :: 0 <= k < |es| ==> es[k].t <= t + 3000 && es[k] != Hears(es[k].t, DisableRequest))
            ==> BoardRun(Board(ready, t), es).ready
  {
    hide BoardRun;
    SilentBoard(Board(ready, t), es);
    if BoardRun(Board(ready, t), es).ready {
      assert es[0..] == es;
      SilenceFrom(es, 0, lastPump, t, p, t);
    }
  }

  /** A line that is cut at time t, the host having been refreshed and the board having heard
      the host no later: by t + 3000 + p the board, and by t + 1900 + 4 delta the host, have
      dropped the link. */
  lemma {:induction false} BothGiveUp(t: nat, refreshed: nat, heard: nat, hs: seq<Timed>, bs: seq<BoardEvent>,
                                      lastTick: nat, delta: nat, lastPump: nat, p: nat)
    requires refreshed <= t && 0 < heard <= t
    requires lastTick <= refreshed && Unrefreshed(Fresh(refreshed), hs) && WellTimed(lastTick, refreshed, delta, hs)
    requires lastPump <= heard + 3000 && Pumped(lastPump, heard, p, bs)
    requires forall k :: 0 <= k < |bs| ==> !Active(bs[k])
    ensures hs != [] ==> hs[|hs| - 1].now < t + 1900 + 4 * delta
    ensures bs != [] && bs[|bs| - 1].t > t + 3000 + p ==> !BoardRun(Board(true, heard), bs).ready
  {
    hide BoardRun, Run;
    DeadPeerBound(refreshed, hs, lastTick, delta);
    BoardGivesUp(true, heard, bs, lastPump, p);
  }

  // ---------------------------------------------------------------- both handshakes

  /** A connection attempt that is answered: the board is ready, and on its answer the host is
      connected and reports READY, the next ping due after 1000 ms. */
  lemma {:induction false} Greeting(b: Board, t0: nat, t1: nat, t2: nat, ok: bool)
    ensures var a := Step(Down, t0, Connect(true));
      && a == Outcome(Opening(t0 + 400, 0), [Send(EnableRequest, true)])
      && BoardAfter(b, EnableRequest, t1) == Board(true, t1)
      && BoardReply(EnableRequest) == Some(EnableResponse)
      && Step(a.link, t2, Receive(EnableResponse, ok)) == Outcome(Up(t2 + 1000, 0), [Notify(Ready)])
  {}

  /** A disconnect that is answered: the board is not ready, and on its answer the host is
      disconnected and reports NOT_READY. */
  lemma {:induction false} Farewell(ping: nat, lost: nat, b: Board, t0: nat, t1: nat, t2: nat, ok: bool)
    ensures var a := Step(Up(ping, lost), t0, Disconnect(true));
      && a == Outcome(Closing(t0 + 400, 0, ping, 0), [Send(DisableRequest, true)])
      && BoardAfter(b, DisableRequest, t1) == Board(false, b.lastCon)
      && BoardReply(DisableRequest) == Some(DisableResponse)
      && Step(a.link, t2, Receive(DisableResponse, ok)) == Outcome(Down, [Notify(NotReady)])
  {}
}
