/** The host's link is a run of the CON client: what the controller feeds it, and that the CON
    frames handed over are exactly those it sends. All that holds of every run of the client
    therefore holds of the link inside the host. */
module HostLink {
  import opened ConSm
  import opened ConRuns
  import opened Optional
  import opened ChassisHost
  import opened HostRuns
  import opened HostDuties

  /** What event m feeds to the link. */
  function Fed(h: Host, m: Moment, opts: Options): seq<Event> {
    match m.event
    case Line(_, _) =>
      if AcceptedEn(h, m.event, true) then [Connect(m.io.ok)]
      else if AcceptedEn(h, m.event, false) then [Disconnect(m.io.ok)]
      else []
    case ConTick => [Tick(m.io.ok, m.io.pingOk)]
    case Con(msg) => [Receive(msg, m.io.ok)]
    case Status(en) => if h.ota == Quiescing && !en then [Reset] else []
    case WatchdogTimer =>
      (if QuiesceOver(h, m, opts) then [Reset] else []) + (if Reconnects(h, m, opts) then [Connect(m.io.ok)] else [])
    case _ => []
  }

  function Stamped(now: nat, es: seq<Event>): seq<Timed> {
    seq(|es|, i requires 0 <= i < |es| => Timed.At(now, es[i]))
  }

  function MsgsSent(fx: seq<Effect>): seq<Msg> {
    if fx == [] then []
    else MsgsSent(fx[..|fx| - 1]) + (if fx[|fx| - 1].Send? then [fx[|fx| - 1].msg] else [])
  }

  function ConFrames(out: seq<Out>): seq<Msg> {
    if out == [] then []
    else ConFrames(out[..|out| - 1]) + (if out[|out| - 1].ConFrame? then [out[|out| - 1].msg] else [])
  }

  lemma {:induction false} MsgsAppend(a: seq<Effect>, b: seq<Effect>)
    ensures MsgsSent(a + b) == MsgsSent(a) + MsgsSent(b)
  {
    if b == [] {
      assert a + b == a;
    } else {
      assert (a + b)[..|a + b| - 1] == a + b[..|b| - 1];
      MsgsAppend(a, b[..|b| - 1]);
    }
  }

  lemma {:induction false} FramesAppend(a: seq<Out>, b: seq<Out>)
    ensures ConFrames(a + b) == ConFrames(a) + ConFrames(b)
  {
    if b == [] {
      assert a + b == a;
    } else {
      assert (a + b)[..|a + b| - 1] == a + b[..|b| - 1];
      FramesAppend(a, b[..|b| - 1]);
    }
  }

  lemma {:induction false} OneMsg(x: Effect, f: Out)
    ensures MsgsSent([x]) == (if x.Send? then [x.msg] else [])
    ensures ConFrames([f]) == (if f.ConFrame? then [f.msg] else [])
    ensures MsgsSent([]) == [] && ConFrames([]) == []
  {
    assert [x][..0] == [] && [f][..0] == [];
  }

  /** Carrying out the link's effects hands over a CON frame for each send, in order. */
  lemma {:induction false} EffectsFrames(h: Host, now: nat, fx: seq<Effect>)
    ensures ConFrames(Effects(h, now, fx).out) == MsgsSent(fx)
    decreases fx
  {
    hide MsgsSent, ConFrames;
    OneMsg(Notify(Ready), CmdStop);
    if fx != [] {
      var r := match fx[0]
               case Send(m, _) => Result(h, [ConFrame(m)])
               case Notify(c) => OnComm(h, now, c);
      EffectsFrames(r.host, now, fx[1..]);
      FramesAppend(r.out, Effects(r.host, now, fx[1..]).out);
      assert fx == [fx[0]] + fx[1..];
      MsgsAppend([fx[0]], fx[1..]);
      OneMsg(fx[0], if r.out == [] then CmdStop else r.out[0]);
      assert r.out == [] || r.out == [r.out[0]];
    }
  }

  lemma {:induction false} LinkedFrames(h: Host, now: nat, o: Outcome)
    ensures var r := Linked(h, now, o); ConFrames(r.out) == MsgsSent(o.fx) && r.host.link == o.link
  {
    hide Effects;
    EffectsFrames(h.(link := o.link), now, o.fx);
    EffectsFrame(h.(link := o.link), now, o.fx);
  }

  // ---------------------------------------------------------------- short runs

  lemma {:induction false} RunOfShort(l: Link, now: nat, a: Event, b: Event)
    ensures Run(l, Stamped(now, [])) == Outcome(l, [])
    ensures Run(l, Stamped(now, [a])) == Step(l, now, a)
    ensures var s := Step(l, now, a); var t := Step(s.link, now, b);
      Run(l, Stamped(now, [a, b])) == Outcome(t.link, s.fx + t.fx)
  {
    hide Step;
    var s := Step(l, now, a);
    var t := Step(s.link, now, b);
    assert Run(l, []) == Outcome(l, []);
    assert Stamped(now, [a])[1..] == [] && Stamped(now, [a, b])[1..] == [Timed.At(now, b)];
    assert Run(s.link, []) == Outcome(s.link, []) && s.fx + [] == s.fx;
    assert [Timed.At(now, b)][1..] == [];
    assert Run(t.link, []) == Outcome(t.link, []) && t.fx + [] == t.fx;
  }

  lemma {:induction false} RunAppend(l: Link, a: seq<Timed>, b: seq<Timed>)
    ensures var r := Run(l, a); var t := Run(r.link, b);
      Run(l, a + b) == Outcome(t.link, r.fx + t.fx)
    decreases a
  {
    hide Step;
    if a == [] {
      assert a + b == b;
      assert [] + Run(l, b).fx == Run(l, b).fx;
    } else {
      assert (a + b)[1..] == a[1..] + b;
      var s := Step(l, a[0].now, a[0].event);
      RunAppend(s.link, a[1..], b);
      var t := Run(Run(s.link, a[1..]).link, b);
      assert s.fx + (Run(s.link, a[1..]).fx + t.fx) == (s.fx + Run(s.link, a[1..]).fx) + t.fx;
    }
  }

  // ---------------------------------------------------------------- one event

  /** One event of the host is the steps of the link it is fed with. */
  ghost predicate Follows(h: Host, m: Moment, opts: Options) {
    var r, o := Handle(h, m, opts), Run(h.link, Stamped(m.now, Fed(h, m, opts)));
    r.host.link == o.link && ConFrames(r.out) == MsgsSent(o.fx)
  }

  lemma {:induction false} EnableFollows(h: Host, m: Moment, on: bool, opts: Options)
    requires Settled(h) && AcceptedEn(h, m.event, on)
    ensures Follows(h, m, opts)
  {
    hide Linked, Run, ConFrames, MsgsSent;
    var e := if on then Connect(m.io.ok) else Disconnect(m.io.ok);
    RunOfShort(h.link, m.now, e, Reset);
    var g := if on then h.(disabled := false, lastEn := m.now) else h.(disabled := true, drive := Rest);
    var o := Step(h.link, m.now, e);
    LinkedFrames(g, m.now, o);
    OneMsg(Notify(Ready), CmdEn(on));
    FramesAppend([CmdEn(on)], if on && !h.link.Down? then [] else Linked(g, m.now, o).out);
    assert [] + ConFrames(Linked(g, m.now, o).out) == ConFrames(Linked(g, m.now, o).out);
  }

  lemma {:induction false} BeginFollows(h: Host, now: nat, spawned: bool)
    requires !h.child
    ensures BeginFlasher(h, now, spawned).host.link == Hangup(h.link).link
    ensures BeginFlasher(h, now, spawned).out == [] && MsgsSent(Hangup(h.link).fx) == []
  {
    BeginFrame(h, now, spawned);
    OneMsg(Notify(NotReady), CmdStop);
  }

  lemma {:induction false} WatchdogFollows(h: Host, m: Moment, opts: Options)
    requires Settled(h) && m.event.WatchdogTimer?
    ensures Follows(h, m, opts)
  {
    hide Linked, Run, ConFrames, MsgsSent, Handle;
    var c := Connect(m.io.ok);
    RunOfShort(h.link, m.now, Reset, c);
    RunOfShort(h.link, m.now, c, c);
    ReconnectStep(h, m, opts);
    OneMsg(Send(EnableRequest, m.io.ok), ConFrame(EnableRequest));
    OneMsg(Notify(NotReady), CmdStop);
    MsgsAppend(Hangup(h.link).fx, [Send(EnableRequest, m.io.ok)]);
    MsgsAppend(Hangup(h.link).fx, []);
    assert Hangup(h.link).fx + [] == Hangup(h.link).fx;
    if !Reconnects(h, m, opts) {
      WatchdogLink(h, m, opts);
    }
    assert [] + [EnableRequest] == [EnableRequest];
    assert [Reset] + [c] == [Reset, c] && [Reset] + [] == [Reset] && [] + [c] == [c];
  }

  lemma {:induction false} WatchdogLink(h: Host, m: Moment, opts: Options)
    requires Settled(h) && m.event.WatchdogTimer? && !Reconnects(h, m, opts)
    ensures Handle(h, m, opts).host.link == if QuiesceOver(h, m, opts) then Down else h.link
  {
    hide Linked, BeginFlasher;
    var g := if m.io.portOpen && m.io.reopened then h.(lastRetry := 0) else h;
    if h.ota == Quiescing {
      BeginFrame(g, m.now, m.io.spawned);
    }
  }

  lemma {:induction false} StatusFollows(h: Host, m: Moment, opts: Options)
    requires Settled(h) && m.event.Status?
    ensures Follows(h, m, opts)
  {
    hide BeginFlasher, Run, ConFrames, MsgsSent, Heal;
    RunOfShort(h.link, m.now, Reset, Reset);
    StatusFrames(h, m.event.en, m.now, m.io, opts);
    OneMsg(Notify(NotReady), CmdEn(true));
    HealKeeps(h, m.event.en, m.now, opts);
    if h.ota == Quiescing {
      BeginFollows(Heal(h, m.event.en, m.now, opts).host, m.now, m.io.spawned);
    }
  }

  lemma HealKeeps(h: Host, en: bool, now: nat, opts: Options)
    ensures var g := Heal(h, en, now, opts).host; g == h.(lastEn := g.lastEn)
  {}

  lemma {:induction false} EventFollows(h: Host, m: Moment, opts: Options)
    requires Settled(h) && Possible(h, m.event)
    ensures Follows(h, m, opts)
  {
    hide Linked, Run, ConFrames, MsgsSent, OnTick, OnReceive, Effects, ParseSpeeds, Admissible;
    var none := Reset;
    OneMsg(Notify(Ready), CmdStop);
    match m.event
    case ConTick =>
      RunOfShort(h.link, m.now, Tick(m.io.ok, m.io.pingOk), none);
      LinkedFrames(h, m.now, OnTick(h.link, m.now, m.io.ok, m.io.pingOk));
    case Con(msg) =>
      RunOfShort(h.link, m.now, Receive(msg, m.io.ok), none);
      LinkedFrames(h, m.now, OnReceive(h.link, msg, m.now, m.io.ok));
    case Status(_) => hide Follows; StatusFollows(h, m, opts);
    case WatchdogTimer => hide Follows; WatchdogFollows(h, m, opts);
    case _ => OtherFollows(h, m, opts);
  }

  lemma {:induction false} OtherFollows(h: Host, m: Moment, opts: Options)
    requires Settled(h) && Possible(h, m.event)
    requires !m.event.ConTick? && !m.event.Con? && !m.event.Status? && !m.event.WatchdogTimer?
    ensures Follows(h, m, opts)
  {
    if AcceptedEn(h, m.event, true) {
      hide Follows;
      EnableFollows(h, m, true, opts);
    } else if AcceptedEn(h, m.event, false) {
      hide Follows;
      EnableFollows(h, m, false, opts);
    } else {
      hide Linked, Run, ConFrames, MsgsSent, ParseSpeeds, Admissible, OnEnable;
      RunOfShort(h.link, m.now, Reset, Reset);
      QuietOut(h, m, opts);
      OneMsg(Notify(Ready), CmdStop);
    }
  }

  lemma {:induction false} QuietOut(h: Host, m: Moment, opts: Options)
    requires Settled(h) && Possible(h, m.event)
    requires !m.event.ConTick? && !m.event.Con? && !m.event.Status? && !m.event.WatchdogTimer?
    requires !AcceptedEn(h, m.event, true) && !AcceptedEn(h, m.event, false)
    ensures Handle(h, m, opts).host.link == h.link && ConFrames(Handle(h, m, opts).out) == []
  {
    hide ConFrames, ParseSpeeds, Admissible, OnEnable;
    var out := Handle(h, m, opts).out;
    OneMsg(Notify(Ready), if out == [] then CmdStop else out[0]);
    OneMsg(Notify(Ready), CmdEn(false));
    FramesAppend([CmdStop], [CmdEn(false)]);
    OneMsg(Notify(Ready), CmdStop);
    assert [CmdStop] + [CmdEn(false)] == [CmdStop, CmdEn(false)];
    assert out == [] || out == [out[0]] || out == [CmdStop, CmdEn(false)];
  }

  // ---------------------------------------------------------------- whole runs

  /** All that the first j events feed to the link. */
  function Feed(ms: seq<Moment>, j: nat, opts: Options): seq<Timed>
    requires j <= |ms|
    decreases j
  {
    if j == 0 then []
    else Feed(ms, j - 1, opts) + Stamped(ms[j - 1].now, Fed(StateAt(START, ms, j - 1, opts), ms[j - 1], opts))
  }

  /** All CON frames the first j events hand over. */
  function ConLog(ms: seq<Moment>, j: nat, opts: Options): seq<Msg>
    requires j <= |ms|
    decreases j
  {
    if j == 0 then [] else ConLog(ms, j - 1, opts) + ConFrames(OutAt(START, ms, j - 1, opts))
  }

  /** The host's link is the run of the CON client over what it is fed, and the CON frames
      handed over are exactly those the client sends, in order. */
  lemma {:induction false} LinkIsRun(ms: seq<Moment>, j: nat, opts: Options)
    requires Feasible(START, ms, opts) && j <= |ms|
    ensures var o := Run(Down, Feed(ms, j, opts));
      StateAt(START, ms, j, opts).link == o.link && ConLog(ms, j, opts) == MsgsSent(o.fx)
    decreases j
  {
    hide Handle, Fed, Run, Stamped, ConFrames, MsgsSent;
    if j == 0 {
      assert Run(Down, []) == Outcome(Down, []) by { RunOfNothing(); }
      OneMsg(Notify(Ready), CmdStop);
    } else {
      LinkIsRun(ms, j - 1, opts);
      AlwaysSettled(START, ms, j - 1, opts);
      var s, m := StateAt(START, ms, j - 1, opts), ms[j - 1];
      EventFollows(s, m, opts);
      RunAppend(Down, Feed(ms, j - 1, opts), Stamped(m.now, Fed(s, m, opts)));
      MsgsAppend(Run(Down, Feed(ms, j - 1, opts)).fx, Run(s.link, Stamped(m.now, Fed(s, m, opts))).fx);
    }
  }

  lemma RunOfNothing()
    ensures Run(Down, []) == Outcome(Down, [])
  {}
}
