/** Whole runs of the CON link: the callback trace, what is transmitted, and how long each
    phase can last when the timer is driven at least every delta milliseconds. */
module ConRuns {
  import opened ConSm
  import opened Optional

  datatype Timed = At(now: nat, event: Event)

  function Run(l: Link, es: seq<Timed>): Outcome
    decreases es
  {
    if es == [] then Outcome(l, [])
    else
      var s := Step(l, es[0].now, es[0].event);
      var r := Run(s.link, es[1..]);
      Outcome(r.link, s.fx + r.fx)
  }

  // ---------------------------------------------------------------- callbacks

  /** The recogniser of (READY+ NOT_READY)* READY*: its state is the last report, and a
      NOT_READY that follows no READY is refused. */
  function Report(c: Option<Comm>, e: Effect): Option<Comm> {
    match e
    case Send(_, _) => c
    case Notify(Ready) => if c == None then None else Some(Ready)
    case Notify(NotReady) => if c == Some(Ready) then Some(NotReady) else None
  }

  function Reports(c: Option<Comm>, fx: seq<Effect>): Option<Comm>
    decreases fx
  {
    if fx == [] then c else Reports(Report(c, fx[0]), fx[1..])
  }

  lemma {:induction false} ReportsAppend(c: Option<Comm>, x: seq<Effect>, y: seq<Effect>)
    ensures Reports(c, x + y) == Reports(Reports(c, x), y)
    decreases x
  {
    if x == [] {
      assert x + y == y;
    } else {
      assert (x + y)[1..] == x[1..] + y;
      ReportsAppend(Report(c, x[0]), x[1..], y);
    }
  }

  lemma {:induction false} ShortReports(c: Option<Comm>, fx: seq<Effect>)
    requires |fx| <= 3
    ensures fx == [] ==> Reports(c, fx) == c
    ensures |fx| == 1 ==> Reports(c, fx) == Report(c, fx[0])
    ensures |fx| == 2 ==> Reports(c, fx) == Report(Report(c, fx[0]), fx[1])
    ensures |fx| == 3 ==> Reports(c, fx) == Report(Report(Report(c, fx[0]), fx[1]), fx[2])
  {
    if |fx| >= 2 {
      var c1 := Report(c, fx[0]);
      var c2 := Report(c1, fx[1]);
      assert Reports(c, fx) == Reports(c1, fx[1..]);
      assert fx[1..][1..] == fx[2..];
      assert Reports(c1, fx[1..]) == Reports(c2, fx[2..]);
      if |fx| == 3 {
        assert Reports(c2, fx[2..]) == Reports(Report(c2, fx[2]), fx[2..][1..]);
      }
    }
  }

  lemma {:induction false} TickReports(l: Link, now: nat, ok: bool, pingOk: bool)
    ensures var s := OnTick(l, now, ok, pingOk); Reports(Some(l.CommOf()), s.fx) == Some(s.link.CommOf())
    ensures Notify(Ready) !in OnTick(l, now, ok, pingOk).fx
  {
    var a := RspOverdue(l, now, ok);
    var b := PingOverdue(a.link, now, pingOk);
    hide Reports;
    ShortReports(Some(l.CommOf()), a.fx);
    ShortReports(Some(a.link.CommOf()), b.fx);
    ReportsAppend(Some(l.CommOf()), a.fx, b.fx);
  }

  /** One call continues the trace, from the state before to the state after. */
  lemma {:induction false} StepReports(l: Link, now: nat, e: Event)
    ensures var s := Step(l, now, e); Reports(Some(l.CommOf()), s.fx) == Some(s.link.CommOf())
  {
    hide Reports;
    if e.Tick? {
      TickReports(l, now, e.ok, e.pingOk);
    } else {
      ShortReports(Some(l.CommOf()), Step(l, now, e).fx);
    }
  }

  /** READY is reported again only for an ENABLE_REQUEST received while connected, and then
      it always is. */
  lemma {:induction false} RepeatedReady(l: Link, now: nat, e: Event)
    requires l.IsReady()
    ensures Notify(Ready) in Step(l, now, e).fx <==> l.Up? && e.Receive? && e.msg == EnableRequest
  {
    hide OnTick;
    if e.Tick? {
      TickReports(l, now, e.ok, e.pingOk);
    }
  }

  /** One call never reports READY twice. */
  lemma {:induction false} ReadyOncePerCall(l: Link, now: nat, e: Event)
    ensures var fx := Step(l, now, e).fx;
      forall i, j :: 0 <= i < j < |fx| && fx[i] == Notify(Ready) ==> fx[j] == Notify(NotReady)
  {
    hide OnTick;
    if e.Tick? {
      TickReports(l, now, e.ok, e.pingOk);
    }
  }

  /** Over any run the callbacks have that shape, and the last one is the current state. */
  lemma {:induction false} CallbackTrace(l: Link, es: seq<Timed>)
    ensures Reports(Some(l.CommOf()), Run(l, es).fx) == Some(Run(l, es).link.CommOf())
    decreases es
  {
    hide Step;
    if es != [] {
      var s := Step(l, es[0].now, es[0].event);
      StepReports(l, es[0].now, es[0].event);
      CallbackTrace(s.link, es[1..]);
      ReportsAppend(Some(l.CommOf()), s.fx, Run(s.link, es[1..]).fx);
    }
  }

  // ---------------------------------------------------------------- transmissions

  /** Attempts to transmit m, whatever their outcome. */
  function Sends(fx: seq<Effect>, m: Msg): nat {
    multiset(fx)[Send(m, true)] + multiset(fx)[Send(m, false)]
  }

  /** The two handshakes: opening the link, and closing it. */
  datatype Shake = ToOpen | ToClose

  predicate In(l: Link, k: Shake) { if k.ToOpen? then l.Opening? else l.Closing? }

  function Request(k: Shake): Msg { if k.ToOpen? then EnableRequest else DisableRequest }

  /** Every event of es happens during one visit to the handshake state k. */
  predicate During(l: Link, es: seq<Timed>, k: Shake)
    decreases es
  {
    es == [] || (In(l, k) && During(Step(l, es[0].now, es[0].event).link, es[1..], k))
  }

  lemma {:induction false} TickSends(l: Link, now: nat, ok: bool, pingOk: bool, m: Msg)
    ensures var a := RspOverdue(l, now, ok); var b := PingOverdue(a.link, now, pingOk);
      Sends(OnTick(l, now, ok, pingOk).fx, m) == Sends(a.fx, m) + Sends(b.fx, m)
  {
    hide RspOverdue, PingOverdue;
  }

  lemma RspSends(l: Link, now: nat, ok: bool, k: Shake)
    requires In(l, k) && l.Sound()
    ensures
      var a := RspOverdue(l, now, ok); var n := Sends(a.fx, Request(k));
      && Sends(a.fx, PingRequest) == 0 && a.link.Sound()
      && n <= 1 && (n == 1 ==> l.reps < RETRY_MAX && l.rsp <= now)
      && (In(a.link, k) ==> now < a.link.rsp && a.link.reps == l.reps + n
                            && a.link.rsp == if n > 0 then now + RSP_TIMEOUT else l.rsp)
      && (!In(a.link, k) ==> a.link.Down?)
  {}

  lemma PingSends(l: Link, now: nat, ok: bool, k: Shake)
    requires l.Sound()
    ensures
      var b := PingOverdue(l, now, ok); var n := Sends(b.fx, PingRequest);
      && Sends(b.fx, Request(k)) == 0 && b.link.Sound()
      && n <= 1 && (n == 1 ==> l.IsReady() && l.lost <= MAX_PING_REPEAT && l.ping <= now)
      && (b.link.Down? || (In(l, k) ==> In(b.link, k) && b.link.rsp == l.rsp && b.link.reps == l.reps))
      && (l.Up? ==> b.link.Up? || b.link.Down?)
      && (l.Up? && b.link.Up? ==> now < b.link.ping && b.link.lost == l.lost + n
                                  && b.link.ping == if n > 0 then now + REPEAT_PING_TIME else l.ping)
      && (!l.IsReady() ==> b == Outcome(l, []))
  {}

  lemma {:induction false} CallDuringShake(l: Link, now: nat, e: Event, k: Shake)
    requires In(l, k) && !e.Tick?
    ensures var s := Step(l, now, e);
      && Send(Request(k), true) !in s.fx && Send(Request(k), false) !in s.fx
      && (In(s.link, k) ==> s.link.rsp == l.rsp && s.link.reps == l.reps)
  {
    hide OnTick;
  }

  /** One event, while in the handshake: it retransmits only when the answer is overdue. */
  ghost predicate ShakeAfter(l: Link, t: Timed, k: Shake, s: Outcome)
    requires In(l, k)
  {
    var n := Sends(s.fx, Request(k));
    && s.link.Sound()
    && (In(s.link, k) ==> s.link.reps == l.reps + n)
    && (In(s.link, k) ==> s.link.rsp == if n > 0 then t.now + RSP_TIMEOUT else l.rsp)
    && (n > 0 ==> n == 1 && l.reps < RETRY_MAX && t.event.Tick? && l.rsp <= t.now)
    && (In(s.link, k) && t.event.Tick? ==> t.now < s.link.rsp)
  }

  lemma {:induction false} ShakeTick(l: Link, t: Timed, k: Shake)
    requires In(l, k) && l.Sound() && t.event.Tick?
    ensures ShakeAfter(l, t, k, OnTick(l, t.now, t.event.ok, t.event.pingOk))
  {
    hide RspOverdue, PingOverdue, Sends, Request;
    var a := RspOverdue(l, t.now, t.event.ok);
    TickSends(l, t.now, t.event.ok, t.event.pingOk, Request(k));
    RspSends(l, t.now, t.event.ok, k);
    PingSends(a.link, t.now, t.event.pingOk, k);
  }

  lemma {:induction false} ShakeStep(l: Link, t: Timed, k: Shake)
    requires In(l, k) && l.Sound()
    ensures ShakeAfter(l, t, k, Step(l, t.now, t.event))
  {
    if t.event.Tick? {
      hide OnTick, ShakeAfter;
      ShakeTick(l, t, k);
    } else {
      hide Step, Request;
      StepSound(l, t.now, t.event);
      CallDuringShake(l, t.now, t.event, k);
    }
  }

  /** During a visit the request is retransmitted once per unit of the retry counter; with the
      first transmission that is never more than six. */
  lemma {:induction false} ShakeSends(l: Link, es: seq<Timed>, k: Shake)
    requires In(l, k) && l.Sound() && During(l, es, k)
    ensures var r := Run(l, es);
      && (In(r.link, k) ==> Sends(r.fx, Request(k)) == r.link.reps - l.reps)
      && Sends(r.fx, Request(k)) <= RETRY_MAX - l.reps
    decreases es
  {
    hide Step;
    if es != [] {
      var s := Step(l, es[0].now, es[0].event);
      ShakeStep(l, es[0], k);
      if es[1..] != [] {
        ShakeSends(s.link, es[1..], k);
      }
    }
  }

  /** The calls that enter a handshake transmit its request exactly once. */
  lemma {:induction false} ShakeEntry(l: Link, t: Timed, k: Shake)
    requires !In(l, k) && In(Step(l, t.now, t.event).link, k)
    ensures var s := Step(l, t.now, t.event);
      && (if k.ToOpen? then l.Down? && t.event.Connect? else l.Up? && t.event.Disconnect?)
      && s.link.reps == 0 && s.link.rsp == t.now + RSP_TIMEOUT
      && s.fx == [Send(Request(k), true)]
  {
  }

  // ---------------------------------------------------------------- time

  /** Time does not run backwards, and no event is later than delta after the last tick. */
  predicate WellTimed(lastTick: nat, now: nat, delta: nat, es: seq<Timed>)
    decreases es
  {
    es == [] ||
    (now <= es[0].now <= lastTick + delta &&
     WellTimed(if es[0].event.Tick? then es[0].now else lastTick, es[0].now, delta, es[1..]))
  }

  lemma {:induction false} ShakeClock(l: Link, es: seq<Timed>, k: Shake, lastTick: nat, now: nat, delta: nat, limit: int)
    requires In(l, k) && l.Sound() && During(l, es, k)
    requires WellTimed(lastTick, now, delta, es) && lastTick < l.rsp
    requires l.rsp + (RETRY_MAX - l.reps) * (RSP_TIMEOUT + delta) + delta <= limit
    ensures es != [] ==> es[|es| - 1].now < limit
    decreases es
  {
    hide Step;
    if es != [] {
      var s := Step(l, es[0].now, es[0].event);
      ShakeStep(l, es[0], k);
      var step := RSP_TIMEOUT + delta;
      assert 0 <= (RETRY_MAX - l.reps) * step;
      if es[1..] != [] {
        var r := s.link.reps;
        assert r == l.reps || (RETRY_MAX - l.reps) * step == (RETRY_MAX - r) * step + step;
        ShakeClock(s.link, es[1..], k, if es[0].event.Tick? then es[0].now else lastTick, es[0].now, delta, limit);
      }
    }
  }

  /** A visit to CONNECTING or DISCONNECTING, entered at t.now with the timer running, sends
      its request at most six times and is over 6 * (400 + delta) ms later, whatever arrives. */
  lemma {:induction false} HandshakeBound(l: Link, t: Timed, es: seq<Timed>, k: Shake, lastTick: nat, delta: nat)
    requires l.Sound() && !In(l, k) && In(Step(l, t.now, t.event).link, k)
    requires lastTick <= t.now
    requires var m := Step(l, t.now, t.event).link;
             During(m, es, k) && WellTimed(lastTick, t.now, delta, es)
    ensures var r := Run(l, [t] + es);
      && (In(r.link, k) ==> Sends(r.fx, Request(k)) == 1 + r.link.reps)
      && Sends(r.fx, Request(k)) <= 6
    ensures es != [] ==> es[|es| - 1].now < t.now + 6 * (RSP_TIMEOUT + delta)
  {
    hide Step;
    ShakeEntry(l, t, k);
    StepSound(l, t.now, t.event);
    var s := Step(l, t.now, t.event);
    ShakeSends(s.link, es, k);
    ShakeClock(s.link, es, k, lastTick, t.now, delta, t.now + 6 * (RSP_TIMEOUT + delta));
    assert ([t] + es)[1..] == es;
  }

  // ---------------------------------------------------------------- a silent peer

  /** Events that neither refresh the keep-alive nor ask for a disconnect. */
  predicate Silent(e: Event) {
    !e.Disconnect? && !(e.Receive? && (e.msg == PingResponse || e.msg == EnableRequest))
  }

  /** Every event of es is silent and happens while the link is up. */
  predicate Unrefreshed(l: Link, es: seq<Timed>)
    decreases es
  {
    es == [] || (l.Up? && Silent(es[0].event) && Unrefreshed(Step(l, es[0].now, es[0].event).link, es[1..]))
  }

  lemma {:induction false} SilentStep(l: Link, t: Timed)
    requires l.Up? && l.Sound() && Silent(t.event)
    ensures
      var s := Step(l, t.now, t.event); var n := Sends(s.fx, PingRequest);
      && (s.link.Up? || s.link.Down?) && s.link.Sound()
      && (s.link.Up? ==> s.link.lost == l.lost + n)
      && (s.link.Up? ==> s.link.ping == if n > 0 then t.now + REPEAT_PING_TIME else l.ping)
      && (s.link.Up? && t.event.Tick? ==> t.now < s.link.ping)
      && (n > 0 ==> n == 1 && l.lost <= MAX_PING_REPEAT && t.event.Tick? && l.ping <= t.now)
  {
    if t.event.Tick? {
      TickSends(l, t.now, t.event.ok, t.event.pingOk, PingRequest);
      hide PingOverdue;
      PingSends(l, t.now, t.event.pingOk, ToOpen);
    } else {
      hide OnTick;
    }
  }

  lemma {:induction false} SilentClock(l: Link, es: seq<Timed>, lastTick: nat, now: nat, delta: nat, limit: int)
    requires l.Up? && l.Sound() && Unrefreshed(l, es)
    requires WellTimed(lastTick, now, delta, es) && lastTick < l.ping
    requires l.ping + (MAX_PING_REPEAT + 1 - l.lost) * (REPEAT_PING_TIME + delta) + delta <= limit
    ensures es != [] ==> es[|es| - 1].now < limit
    ensures Run(l, es).link.Up? ==> Sends(Run(l, es).fx, PingRequest) == Run(l, es).link.lost - l.lost
    ensures !Run(l, es).link.Up? ==> Run(l, es).link.Down?
    decreases es
  {
    hide Step;
    if es != [] {
      var s := Step(l, es[0].now, es[0].event);
      SilentStep(l, es[0]);
      var step := REPEAT_PING_TIME + delta;
      assert 0 <= (MAX_PING_REPEAT + 1 - l.lost) * step;
      if s.link.Up? {
        var n := s.link.lost;
        assert n == l.lost || (MAX_PING_REPEAT + 1 - l.lost) * step == (MAX_PING_REPEAT + 1 - n) * step + step;
        SilentClock(s.link, es[1..], if es[0].event.Tick? then es[0].now else lastTick, es[0].now, delta, limit);
      } else {
        assert es[1..] == [];
      }
    }
  }

  /** Dead-peer detection: if nothing refreshes the keep-alive after time t, the link is down
      by t + 1900 + 4 * delta, having sent exactly as many pings as it counts unanswered. */
  lemma {:induction false} DeadPeerBound(t: nat, es: seq<Timed>, lastTick: nat, delta: nat)
    requires Unrefreshed(Fresh(t), es) && lastTick <= t && WellTimed(lastTick, t, delta, es)
    ensures es != [] ==> es[|es| - 1].now < t + 1900 + 4 * delta
    ensures var r := Run(Fresh(t), es);
      if r.link.Up? then Sends(r.fx, PingRequest) == r.link.lost else r.link.Down?
  {
    SilentClock(Fresh(t), es, lastTick, t, delta, t + 1900 + 4 * delta);
  }
}
