/** What the CON link does do: when it comes up and goes down, which frames it sends and when,
    and that it gives up only after every retransmission and every ping has been tried. */
module ConProgress {
  import opened ConSm
  import opened ConRuns

  // ---------------------------------------------------------------- one call

  /** The first half of this tick gives the link up: the last answer is overdue, or the
      retransmission cannot be sent. */
  predicate ShakeFails(l: Link, now: nat, ok: bool) {
    l.Shaking() && l.rsp <= now && (l.reps >= 5 || !ok)
  }

  /** The second half does. */
  predicate PingFails(l: Link, now: nat, pingOk: bool) {
    l.IsReady() && l.ping <= now && (l.lost >= 3 || !pingOk)
  }

  /** Exactly the events after which a link that was not ready is. */
  predicate Raises(l: Link, e: Event) {
    e.Receive? && ((e.msg == EnableResponse && l.Opening?) || (e.msg == EnableRequest && e.ok && !l.IsReady()))
  }

  /** Exactly the events after which a link that was ready is not. */
  predicate Lowers(l: Link, now: nat, e: Event) {
    match e
    case Connect(_) => false
    case Disconnect(ok) => l.Up? && !ok
    case Reset => true
    case Receive(msg, ok) =>
      || msg == DisableResponse
      || (msg == DisableRequest && l.Up?)
      || (msg == EnableRequest && l.Up? && !ok)
    case Tick(ok, pingOk) => ShakeFails(l, now, ok) || PingFails(l, now, pingOk)
  }

  lemma {:induction false} ReadyChanges(l: Link, now: nat, e: Event)
    requires l.Sound()
    ensures !l.IsReady() ==> (Step(l, now, e).link.IsReady() <==> Raises(l, e))
    ensures l.IsReady() ==> (!Step(l, now, e).link.IsReady() <==> Lowers(l, now, e))
  {
    if e.Tick? {
      TickOutcome(l, now, e.ok, e.pingOk);
    }
  }

  /** Exactly the events that end a handshake; all but a raise leave the link down. */
  predicate Concludes(l: Link, now: nat, e: Event) {
    match e
    case Connect(_) => false
    case Disconnect(_) => false
    case Reset => true
    case Receive(msg, _) =>
      msg == DisableResponse || (l.Opening? && (msg == EnableResponse || msg == EnableRequest))
    case Tick(ok, pingOk) => ShakeFails(l, now, ok) || PingFails(l, now, pingOk)
  }

  lemma {:induction false} HandshakeEnds(l: Link, now: nat, e: Event)
    requires l.Sound() && l.Shaking()
    ensures var s := Step(l, now, e).link;
      if !Concludes(l, now, e) then (s.Opening? <==> l.Opening?) && (s.Closing? <==> l.Closing?)
      else if Raises(l, e) then s.Up? else s.Down?
  {
    if e.Tick? {
      hide OnTick;
      TickOutcome(l, now, e.ok, e.pingOk);
    }
  }

  lemma {:induction false} TickOutcome(l: Link, now: nat, ok: bool, pingOk: bool)
    requires l.Sound()
    ensures var s := OnTick(l, now, ok, pingOk);
      if ShakeFails(l, now, ok) || PingFails(l, now, pingOk) then s.link.Down?
      else
        && (s.link.Down? <==> l.Down?) && (s.link.Opening? <==> l.Opening?)
        && (s.link.Up? <==> l.Up?) && (s.link.Closing? <==> l.Closing?)
        && (l.Shaking() && l.rsp <= now ==> s.link.rsp == now + 400 && s.link.reps == l.reps + 1)
        && (l.Shaking() && l.rsp > now ==> s.link.rsp == l.rsp && s.link.reps == l.reps)
        && (l.IsReady() && l.ping <= now ==> s.link.ping == now + 300 && s.link.lost == l.lost + 1)
        && (l.IsReady() && l.ping > now ==> s.link.ping == l.ping && s.link.lost == l.lost)
  {
    var a := RspOverdue(l, now, ok);
    assert a.link.Down? || (a.link.IsReady() == l.IsReady());
  }

  /** Exactly when each kind of frame is attempted. */
  predicate Attempts(l: Link, now: nat, e: Event, m: Msg) {
    match m
    case EnableRequest =>
      (e.Connect? && l.Down?) || (e.Tick? && l.Opening? && l.rsp <= now && l.reps < 5)
    case EnableResponse => e.Receive? && e.msg == EnableRequest && !l.Closing?
    case DisableRequest =>
      (e.Disconnect? && l.Up?) || (e.Tick? && l.Closing? && l.rsp <= now && l.reps < 5)
    case DisableResponse => e.Receive? && e.msg == DisableRequest && l.Up?
    case PingRequest =>
      e.Tick? && l.IsReady() && l.ping <= now && l.lost < 3 && !ShakeFails(l, now, e.ok)
    case PingResponse => false
  }

  lemma SendsOfShort(x: Effect, y: Effect, z: Effect, m: Msg)
    ensures Sends([], m) == 0
    ensures Sends([x], m) == Is(x, m)
    ensures Sends([x, y], m) == Is(x, m) + Is(y, m)
    ensures Sends([x, y, z], m) == Is(x, m) + Is(y, m) + Is(z, m)
  {}

  function Is(x: Effect, m: Msg): nat { if x.Send? && x.msg == m then 1 else 0 }

  /** Sends as a count along a short list. */
  lemma {:induction false} SendsAlong(fx: seq<Effect>, m: Msg)
    requires |fx| <= 3
    ensures Sends(fx, m) == (if |fx| > 0 then Is(fx[0], m) else 0) + (if |fx| > 1 then Is(fx[1], m) else 0)
                            + (if |fx| > 2 then Is(fx[2], m) else 0)
  {
    hide Sends, Is;
    var x := if |fx| > 0 then fx[0] else Notify(Ready);
    var y := if |fx| > 1 then fx[1] else Notify(Ready);
    var z := if |fx| > 2 then fx[2] else Notify(Ready);
    SendsOfShort(x, y, z, m);
    assert fx == [] || fx == [x] || fx == [x, y] || fx == [x, y, z];
  }

  lemma {:induction false} SendsExactly(l: Link, now: nat, e: Event, m: Msg)
    requires l.Sound()
    ensures Sends(Step(l, now, e).fx, m) == if Attempts(l, now, e, m) then 1 else 0
  {
    hide Sends;
    if e.Tick? {
      hide OnTick, Attempts;
      TickSendsExactly(l, now, e, m);
    } else {
      hide OnTick;
      SendsAlong(Step(l, now, e).fx, m);
    }
  }

  lemma {:induction false} RspSendsExactly(l: Link, now: nat, ok: bool, m: Msg)
    requires l.Sound()
    ensures Sends(RspOverdue(l, now, ok).fx, m)
         == if l.Shaking() && l.rsp <= now && l.reps < 5 && m == (if l.Opening? then EnableRequest else DisableRequest)
            then 1 else 0
    ensures var a := RspOverdue(l, now, ok).link;
      if ShakeFails(l, now, ok) then a.Down?
      else (a.IsReady() <==> l.IsReady()) && (l.IsReady() ==> a.ping == l.ping && a.lost == l.lost)
  {
    hide Sends;
    SendsAlong(RspOverdue(l, now, ok).fx, m);
  }

  lemma {:induction false} PingSendsExactly(l: Link, now: nat, ok: bool, m: Msg)
    requires l.IsReady() ==> l.lost <= 3
    ensures Sends(PingOverdue(l, now, ok).fx, m)
         == if l.IsReady() && l.ping <= now && l.lost < 3 && m == PingRequest then 1 else 0
  {
    hide Sends;
    SendsAlong(PingOverdue(l, now, ok).fx, m);
  }

  lemma {:induction false} TickSendsExactly(l: Link, now: nat, e: Event, m: Msg)
    requires l.Sound() && e.Tick?
    ensures Sends(OnTick(l, now, e.ok, e.pingOk).fx, m) == if Attempts(l, now, e, m) then 1 else 0
  {
    hide Sends, RspOverdue, PingOverdue, OnTick;
    TickSends(l, now, e.ok, e.pingOk, m);
    RspSendsExactly(l, now, e.ok, m);
    PingSendsExactly(RspOverdue(l, now, e.ok).link, now, e.pingOk, m);
  }

  /** The first deadlines: 400 ms for an answer, 1000 ms until the first ping, which also
      counts from each answer to a ping. */
  lemma FirstDeadlines(l: Link, now: nat, e: Event)
    ensures var s := Step(l, now, e).link;
      && (l.Down? && e == Connect(true) ==> s == Opening(now + 400, 0))
      && (l.Up? && e == Disconnect(true) ==> s == Closing(now + 400, 0, l.ping, 0))
      && (Raises(l, e) ==> s == Up(now + 1000, 0))
      && (l.Up? && e == Receive(EnableRequest, true) ==> s == Up(now + 1000, 0))
      && (l.IsReady() && e.Receive? && e.msg == PingResponse ==> s == l.(ping := now + 1000, lost := 0))
  {}

  // ---------------------------------------------------------------- giving up

  /** Only timer ticks, and every frame can be sent. */
  predicate TicksOnly(es: seq<Timed>) {
    forall t :: t in es ==> t.event == Tick(true, true)
  }

  /** A tick on which every send succeeds. */
  lemma {:induction false} GoodTick(l: Link, now: nat, m: Msg)
    requires l.Sound() && !l.Down?
    ensures var s := Step(l, now, Tick(true, true));
      && s.link.Sound()
      && (s.link.Down? <==> (l.Shaking() && l.rsp <= now && l.reps == 5) || (l.IsReady() && l.ping <= now && l.lost == 3))
      && (!s.link.Down? && l.Shaking() ==>
            if l.rsp <= now then s.link.rsp == now + 400 && s.link.reps == l.reps + 1
            else s.link.rsp == l.rsp && s.link.reps == l.reps)
      && (!s.link.Down? && l.IsReady() ==>
            if l.ping <= now then s.link.ping == now + 300 && s.link.lost == l.lost + 1
            else s.link.ping == l.ping && s.link.lost == l.lost)
      && (!s.link.Down? ==> (s.link.Opening? <==> l.Opening?) && (s.link.Closing? <==> l.Closing?))
      && Sends(s.fx, m) == if Attempts(l, now, Tick(true, true), m) then 1 else 0
  {
    TickOutcome(l, now, true, true);
    SendsExactly(l, now, Tick(true, true), m);
    StepSound(l, now, Tick(true, true));
  }

  lemma {:induction false} FirstEvent(l: Link, es: seq<Timed>)
    requires es != []
    ensures var s := Step(l, es[0].now, es[0].event);
      && Run(l, es).link == Run(s.link, es[1..]).link
      && (forall m :: Sends(Run(l, es).fx, m) == Sends(s.fx, m) + Sends(Run(s.link, es[1..]).fx, m))
      && (es[1..] != [] ==> es[1..][|es[1..]| - 1] == es[|es| - 1])
  {
    hide Step;
  }

  /** A visit to CONNECTING that fails although every send succeeded has used up the remaining
      retransmissions, each no sooner than 400 ms after the one before. */
  lemma {:induction false} OpeningPatience(l: Link, es: seq<Timed>)
    requires l.Opening? && l.Sound() && During(l, es, ToOpen) && TicksOnly(es) && Run(l, es).link.Down?
    ensures es != [] && Sends(Run(l, es).fx, EnableRequest) == 5 - l.reps
    ensures es[|es| - 1].now >= l.rsp + (5 - l.reps) * 400
    decreases es
  {
    hide Step, Sends;
    var s := Step(l, es[0].now, es[0].event);
    GoodTick(l, es[0].now, EnableRequest);
    FirstEvent(l, es);
    if s.link.Down? {
      assert es[1..] == [];
      NothingSent(EnableRequest);
    } else {
      OpeningPatience(s.link, es[1..]);
    }
  }

  lemma NothingSent(m: Msg)
    ensures Sends([], m) == 0
  {}

  /** If only the timer runs and every send succeeds, a connection attempt that fails has sent
      ENABLE_REQUEST exactly six times and lasted 2400 ms at least. */
  lemma {:induction false} ConnectPatience(t: nat, es: seq<Timed>)
    requires During(Step(Down, t, Connect(true)).link, es, ToOpen) && TicksOnly(es)
    requires Run(Step(Down, t, Connect(true)).link, es).link.Down?
    ensures Sends(Run(Down, [At(t, Connect(true))] + es).fx, EnableRequest) == 6
    ensures es != [] && es[|es| - 1].now >= t + 2400
  {
    var e := At(t, Connect(true));
    FirstDeadlines(Down, t, e.event);
    SendsExactly(Down, t, e.event, EnableRequest);
    hide Step, Sends;
    OpeningPatience(Opening(t + 400, 0), es);
    assert ([e] + es)[1..] == es;
    FirstEvent(Down, [e] + es);
  }

  /** The same for a link that is up: the pings run out. */
  lemma {:induction false} UpPatience(l: Link, es: seq<Timed>)
    requires l.Up? && l.Sound() && Unrefreshed(l, es) && TicksOnly(es) && Run(l, es).link.Down?
    ensures es != [] && Sends(Run(l, es).fx, PingRequest) == 3 - l.lost
    ensures es[|es| - 1].now >= l.ping + (3 - l.lost) * 300
    decreases es
  {
    hide Step, Sends;
    var s := Step(l, es[0].now, es[0].event);
    GoodTick(l, es[0].now, PingRequest);
    FirstEvent(l, es);
    if s.link.Down? {
      assert es[1..] == [];
      NothingSent(PingRequest);
    } else {
      UpPatience(s.link, es[1..]);
    }
  }

  /** A peer that falls silent at time t is given up only after exactly three pings, and not
      before t + 1900. */
  lemma {:induction false} PingPatience(t: nat, es: seq<Timed>)
    requires Unrefreshed(Up(t + 1000, 0), es) && TicksOnly(es) && Run(Up(t + 1000, 0), es).link.Down?
    ensures Sends(Run(Up(t + 1000, 0), es).fx, PingRequest) == 3
    ensures es != [] && es[|es| - 1].now >= t + 1900
  {
    UpPatience(Up(t + 1000, 0), es);
  }

  // ---------------------------------------------------------------- leaving without an answer

  /** The last tick of es finds the request out of retransmissions. */
  predicate Exhausted(l: Link, es: seq<Timed>)
    decreases es
  {
    es != [] &&
    if |es| == 1 then ShakeFails(l, es[0].now, true)
    else Exhausted(Step(l, es[0].now, es[0].event).link, es[1..])
  }

  /** DISCONNECTING can also end because the pings run out, which goes on in it; then the
      request has not been exhausted. */
  lemma {:induction false} ClosingPatience(l: Link, es: seq<Timed>)
    requires l.Closing? && l.Sound() && During(l, es, ToClose) && TicksOnly(es) && Run(l, es).link.Down?
    ensures es != []
    ensures var r := Run(l, es); var last := es[|es| - 1].now;
      if Exhausted(l, es) then Sends(r.fx, DisableRequest) == 5 - l.reps && last >= l.rsp + (5 - l.reps) * 400
      else Sends(r.fx, PingRequest) == 3 - l.lost && last >= l.ping + (3 - l.lost) * 300
    decreases es
  {
    hide Step, Sends;
    var s := Step(l, es[0].now, es[0].event);
    GoodTick(l, es[0].now, DisableRequest);
    GoodTick(l, es[0].now, PingRequest);
    FirstEvent(l, es);
    if s.link.Down? {
      assert es[1..] == [];
      NothingSent(PingRequest);
      NothingSent(DisableRequest);
    } else {
      ClosingPatience(s.link, es[1..]);
    }
  }

  /** A disconnect in a link whose next ping is due at p: if only the timer runs and every send
      succeeds, it is over only after six transmissions and 2400 ms, or after three pings and
      900 ms from p. */
  lemma {:induction false} DisconnectPatience(t: nat, p: nat, lost: nat, es: seq<Timed>)
    requires 0 < p && lost <= 3
    requires During(Closing(t + 400, 0, p, 0), es, ToClose) && TicksOnly(es)
    requires Run(Closing(t + 400, 0, p, 0), es).link.Down?
    ensures Step(Up(p, lost), t, Disconnect(true)).link == Closing(t + 400, 0, p, 0)
    ensures es != []
    ensures var fx := Run(Up(p, lost), [At(t, Disconnect(true))] + es).fx; var last := es[|es| - 1].now;
      if Exhausted(Closing(t + 400, 0, p, 0), es) then Sends(fx, DisableRequest) == 6 && last >= t + 2400
      else Sends(fx, PingRequest) == 3 && last >= p + 900
  {
    var e := At(t, Disconnect(true));
    var l := Up(p, lost);
    FirstDeadlines(l, t, e.event);
    SendsExactly(l, t, e.event, DisableRequest);
    SendsExactly(l, t, e.event, PingRequest);
    hide Step, Sends;
    ClosingPatience(Closing(t + 400, 0, p, 0), es);
    assert ([e] + es)[1..] == es;
    FirstEvent(l, [e] + es);
  }

  lemma {:induction false} ClosingClock(l: Link, es: seq<Timed>, lastTick: nat, now: nat, delta: nat, limit: int)
    requires l.Closing? && l.Sound() && During(l, es, ToClose) && TicksOnly(es)
    requires WellTimed(lastTick, now, delta, es) && lastTick < l.ping
    requires l.ping + (3 - l.lost) * (300 + delta) + delta <= limit
    ensures es != [] ==> es[|es| - 1].now < limit
    decreases es
  {
    hide Step, Sends;
    if es != [] {
      var s := Step(l, es[0].now, es[0].event);
      GoodTick(l, es[0].now, PingRequest);
      FirstEvent(l, es);
      var step := 300 + delta;
      assert 0 <= (3 - l.lost) * step;
      if !s.link.Down? {
        var n := s.link.lost;
        assert n == l.lost || (3 - l.lost) * step == (3 - n) * step + step;
        ClosingClock(s.link, es[1..], es[0].now, es[0].now, delta, limit);
      } else {
        assert es[1..] == [];
      }
    }
  }

  /** With ticks at most 100 ms apart the pings always run out first: an unanswered disconnect
      never sends its sixth request. */
  lemma {:induction false} DisconnectEndsByPings(t: nat, p: nat, lost: nat, es: seq<Timed>, lastTick: nat, delta: nat)
    requires delta <= 100 && lastTick <= t && lastTick < p <= t + 1000 && lost <= 3
    requires During(Closing(t + 400, 0, p, 0), es, ToClose) && TicksOnly(es) && WellTimed(lastTick, t, delta, es)
    requires Run(Closing(t + 400, 0, p, 0), es).link.Down?
    ensures !Exhausted(Closing(t + 400, 0, p, 0), es) && es != [] && es[|es| - 1].now < p + 900 + 4 * delta
    ensures var fx := Run(Up(p, lost), [At(t, Disconnect(true))] + es).fx;
      Sends(fx, PingRequest) == 3
  {
    hide Step, Sends, Run, During, WellTimed, Exhausted;
    DisconnectPatience(t, p, lost, es);
    ClosingClock(Closing(t + 400, 0, p, 0), es, lastTick, t, delta, p + 900 + 4 * delta);
  }

  lemma ExampleTicks()
    ensures var k := Tick(true, true); var d, p := Send(DisableRequest, true), Send(PingRequest, true);
      && Step(Up(1000, 0), 1000, Disconnect(true)) == Outcome(Closing(1400, 0, 1000, 0), [d])
      && Step(Closing(1400, 0, 1000, 0), 1000, k) == Outcome(Closing(1400, 0, 1300, 1), [p])
      && Step(Closing(1400, 0, 1300, 1), 1300, k) == Outcome(Closing(1400, 0, 1600, 2), [p])
      && Step(Closing(1400, 0, 1600, 2), 1600, k) == Outcome(Closing(2000, 1, 1900, 3), [d, p])
      && Step(Closing(2000, 1, 1900, 3), 1900, k) == Outcome(Down, [Notify(NotReady)])
  {}

  /** For example: a ping is due at once, and after 900 ms the link is down, the request having
      been sent twice. */
  lemma {:induction false} DisconnectExample()
    ensures var k := Tick(true, true);
      var es := [At(1000, Disconnect(true)), At(1000, k), At(1300, k), At(1600, k), At(1900, k)];
      Run(Up(1000, 0), es).link == Down && Sends(Run(Up(1000, 0), es).fx, DisableRequest) == 2
  {
    var d, p, q := Send(DisableRequest, true), Send(PingRequest, true), Notify(NotReady);
    ExampleTicks();
    SendsOfShort(d, p, q, DisableRequest);
    SendsOfShort(p, p, q, DisableRequest);
    SendsOfShort(q, p, q, DisableRequest);
    hide Step, Sends;
    var k := Tick(true, true);
    var t0, t1, t2, t3, t4 := At(1000, Disconnect(true)), At(1000, k), At(1300, k), At(1600, k), At(1900, k);
    FirstEvent(Closing(2000, 1, 1900, 3), [t4]);
    FirstEvent(Closing(1400, 0, 1600, 2), [t3, t4]);
    FirstEvent(Closing(1400, 0, 1300, 1), [t2, t3, t4]);
    FirstEvent(Closing(1400, 0, 1000, 0), [t1, t2, t3, t4]);
    FirstEvent(Up(1000, 0), [t0, t1, t2, t3, t4]);
    assert [t4][1..] == [] && [t3, t4][1..] == [t4] && [t2, t3, t4][1..] == [t3, t4];
    assert [t1, t2, t3, t4][1..] == [t2, t3, t4] && [t0, t1, t2, t3, t4][1..] == [t1, t2, t3, t4];
    assert Run(Down, []) == Outcome(Down, []);
  }
}
