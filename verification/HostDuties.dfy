/** What the host controller does hand over, and when: brakes, the answers to the operator,
    self-healing, reconnection, and every step of an OTA job. */
module HostDuties {
  import opened ConSm
  import opened Optional
  import opened ChassisHost
  import opened HostRuns

  // ---------------------------------------------------------------- reading a command

  /** A speed command names one to three numbers; those left out are zero. */
  lemma {:induction false} SpeedsMeant(args: seq<Option<Float>>)
    ensures match ParseSpeeds(args)
      case Some(v) =>
        || (args == [Some(v.a)] && v.b == 0 && v.c == 0)
        || (args == [Some(v.a), Some(v.b)] && v.c == 0)
        || args == [Some(v.a), Some(v.b), Some(v.c)]
      case None => args == [] || |args| > 3 || None in args
  {
    if ParseSpeeds(args).Some? {
      forall i | 0 <= i < |args|
        ensures args[i].Some?
      {
        assert args[i] in args;
      }
      var x := Some(args[0].value);
      var y := if |args| > 1 then Some(args[1].value) else x;
      var z := if |args| > 2 then Some(args[2].value) else x;
      assert args == [x] || args == [x, y] || args == [x, y, z];
    }
  }

  /** A flash is accepted only with a proper usage, from this machine, with the flasher
      configured, and for a safe and readable file. */
  predicate Flashable(h: Host, e: Input) {
    && h.ota == Idle && e.Line? && e.cmd.CFlash?
    && e.cmd.req.usageOk && e.cmd.req.loopback && e.cmd.req.configured && e.cmd.req.safeName && e.cmd.req.readable
  }

  predicate Aborting(e: Input) {
    e.Line? && e.cmd.CFlashAbort? && e.cmd.usageOk && e.cmd.loopback
  }

  lemma FlashAccepted(h: Host, e: Input)
    ensures AcceptedFlash(h, e) <==> Flashable(h, e)
  {}

  // ---------------------------------------------------------------- braking

  predicate Stops(e: Input) { e.Line? && e.cmd == CStop }

  /** Exactly the events that hand over a brake. */
  predicate Brakes(h: Host, e: Input) {
    Stops(e) || Flashable(h, e) || (e.Closed? && h.source == Some(e.conn))
  }

  lemma {:induction false} NoBrakeIn(h: Host, now: nat, o: Outcome)
    ensures CmdStop !in Linked(h, now, o).out
  {
    hide Linked;
    LinkedFrame(h, now, o);
  }

  lemma {:induction false} BrakeStep(h: Host, m: Moment, opts: Options)
    requires Settled(h) && Possible(h, m.event)
    ensures CmdStop in Handle(h, m, opts).out <==> Brakes(h, m.event)
  {
    hide Linked, BeginFlasher, OnTick, OnReceive, ParseSpeeds, OnConnect, OnDisconnect, Heal;
    match m.event
    case Line(_, cmd) =>
      if cmd.CEn? && cmd.arg.Some? {
        EnableFrames(h, m.now, m.io, cmd.arg.value);
      }
    case WatchdogTimer =>
      WatchdogFrames(h, m, opts);
    case ConTick => NoBrakeIn(h, m.now, OnTick(h.link, m.now, m.io.ok, m.io.pingOk));
    case Con(msg) => NoBrakeIn(h, m.now, OnReceive(h.link, msg, m.now, m.io.ok));
    case Status(en) =>
      StatusFrames(h, en, m.now, m.io, opts);
    case _ =>
  }

  lemma {:induction false} EnableFrames(h: Host, now: nat, io: Io, on: bool)
    ensures var out := OnEnable(h, now, io, on).out;
      && CmdStop !in out && |out| > 0 && out[0] == CmdEn(on)
  {
    hide Linked, OnConnect, OnDisconnect;
    var g := if on then h.(disabled := false, lastEn := now) else h.(disabled := true, drive := Rest);
    NoBrakeIn(g, now, if on then OnConnect(g.link, now, io.ok) else OnDisconnect(g.link, now, io.ok));
  }

  lemma {:induction false} WatchdogFrames(h: Host, m: Moment, opts: Options)
    requires Settled(h)
    ensures CmdStop !in OnWatchdog(h, m.now, m.io, opts).out
  {
    hide OnOtaTimeout, OnReconnect;
    var g := if m.io.portOpen && m.io.reopened then h.(lastRetry := 0) else h;
    OtaTimeoutSteps(g, m.now, m.io, opts);
    ReconnectSteps(OnOtaTimeout(g, m.now, m.io, opts).host, m.now, m.io, opts);
  }

  lemma {:induction false} StatusFrames(h: Host, en: bool, now: nat, io: Io, opts: Options)
    requires Settled(h)
    ensures var out := OnStatus(h, en, now, io, opts).out;
      out == if !h.disabled && h.link.IsReady() && !en && now - h.lastEn > opts.enResend then [CmdEn(true)] else []
  {
    hide BeginFlasher;
    if h.ota == Quiescing {
      BeginFrame(h, now, io.spawned);
    }
  }

  /** Over every run a brake is handed over exactly by a stop, in any phase and state of the
      link, by an accepted flash, and when the connection of the speed command is lost. */
  lemma {:induction false} BrakesExactly(ms: seq<Moment>, j: nat, opts: Options)
    requires Feasible(START, ms, opts) && j < |ms|
    ensures CmdStop in OutAt(START, ms, j, opts) <==> Brakes(StateAt(START, ms, j, opts), ms[j].event)
    ensures Stops(ms[j].event) ==> CmdStop in OutAt(START, ms, j, opts)
  {
    hide Handle;
    AlwaysSettled(START, ms, j, opts);
    BrakeStep(StateAt(START, ms, j, opts), ms[j], opts);
  }

  /** Over every run, whatever takes a standing speed command away tells the board in the same
      event, by a brake or a disable. */
  lemma {:induction false} LossIsTold(ms: seq<Moment>, j: nat, opts: Options)
    requires Feasible(START, ms, opts) && j < |ms|
    requires StateAt(START, ms, j, opts).drive != Rest && StateAt(START, ms, j + 1, opts).drive == Rest
    ensures CmdStop in OutAt(START, ms, j, opts) || CmdEn(false) in OutAt(START, ms, j, opts)
  {
    hide Handle, OutAfter;
    var s := StateAt(START, ms, j, opts);
    StepAt(START, ms, j, opts);
    BrakesExactly(ms, j, opts);
    FlashAccepted(s, ms[j].event);
    if AcceptedEn(s, ms[j].event, false) {
      OperatorStep(s, ms[j], opts);
    } else {
      NewCommandIsNoRest(s, ms[j].event);
    }
  }

  lemma NewCommandIsNoRest(h: Host, e: Input)
    ensures Setting(h, e).Some? ==> Setting(h, e).value.1 != Rest
  {}

  // ---------------------------------------------------------------- answering the operator

  /** What an operator's line hands over: en hands over the enable or disable, and then asks for
      a link if there is none, or takes leave of one that is up. */
  lemma {:induction false} OperatorStep(h: Host, m: Moment, opts: Options)
    requires Settled(h) && Possible(h, m.event) && m.event.Line?
    ensures var out := Handle(h, m, opts).out; var c := m.event.cmd;
      && (AcceptedEn(h, m.event, true) ==>
            out == if h.link.Down? then [CmdEn(true), ConFrame(EnableRequest)] else [CmdEn(true)])
      && (AcceptedEn(h, m.event, false) ==>
            out == if h.link.Up? then [CmdEn(false), ConFrame(DisableRequest)] else [CmdEn(false)])
      && (Flashable(h, m.event) ==> out == [CmdStop, CmdEn(false)])
      && (Stops(m.event) ==> out == [CmdStop])
      && (c.CPid? && c.gains.Some? && h.ota == Idle ==> out == [CmdPid(c.gains.value)])
      && (c.CSign? && c.signs.Some? && h.ota == Idle ==> out == [CmdSign(c.signs.value)])
      && (c.CPing? && m.io.portOpen && h.ota == Idle ==> out == [CmdPing(m.now % 0x1_0000_0000)])
      && (c.CV? || c.CRpm? || c.CQuery? || c.CUnknown? || c.CFlashAbort? ==> out == [])
      && (h.ota != Idle && !Stops(m.event) ==> out == [])
  {
    hide Effects, ParseSpeeds;
    if m.event.cmd.CEn? && m.event.cmd.arg.Some? {
      var on := m.event.cmd.arg.value;
      var g := if on then h.(disabled := false, lastEn := m.now) else h.(disabled := true, drive := Rest);
      if on {
        ConnectFrames(g, m.now, m.io.ok);
      } else {
        DisconnectFrames(g, m.now, m.io.ok);
      }
    }
  }

  lemma {:induction false} OneFrame(h: Host, now: nat, e: Msg, ok: bool)
    ensures Effects(h, now, [Send(e, ok)]) == Result(h, [ConFrame(e)])
    ensures Effects(h, now, [Send(e, ok), Notify(NotReady)]) == Result(h, [ConFrame(e)])
    ensures Effects(h, now, []) == Result(h, [])
  {
    var n := Notify(NotReady);
    assert [Send(e, ok)][1..] == [] && [Send(e, ok), n][1..] == [n] && [n][1..] == [];
    assert Effects(h, now, []) == Result(h, []);
    assert Effects(h, now, [n]) == Then(Result(h, []), Effects(h, now, []));
    assert [ConFrame(e)] + [] == [ConFrame(e)];
  }

  lemma {:induction false} ConnectFrames(h: Host, now: nat, ok: bool)
    ensures Linked(h, now, OnConnect(h.link, now, ok))
         == if h.link.Down? then Result(h.(link := if ok then Opening(now + 400, 0) else Down), [ConFrame(EnableRequest)])
            else Result(h, [])
  {
    hide Effects;
    var l := OnConnect(h.link, now, ok).link;
    OneFrame(h.(link := l), now, EnableRequest, ok);
    assert h.(link := h.link) == h;
  }

  lemma {:induction false} DisconnectFrames(h: Host, now: nat, ok: bool)
    ensures Linked(h, now, OnDisconnect(h.link, now, ok)).out == if h.link.Up? then [ConFrame(DisableRequest)] else []
  {
    hide Effects;
    var l := OnDisconnect(h.link, now, ok).link;
    OneFrame(h.(link := l), now, DisableRequest, ok);
  }

  // ---------------------------------------------------------------- self-healing

  /** A STATUS frame is answered by an enable exactly if the board reports itself disabled, the
      link is ready, the user has not disabled, and the last enable is old enough. */
  predicate Heals(h: Host, m: Moment, opts: Options) {
    m.event == Status(false) && h.link.IsReady() && !h.disabled && m.now - h.lastEn > opts.enResend
  }

  lemma {:induction false} HealsExactly(ms: seq<Moment>, j: nat, opts: Options)
    requires Feasible(START, ms, opts) && j < |ms| && ms[j].event.Status?
    ensures OutAt(START, ms, j, opts) == if Heals(StateAt(START, ms, j, opts), ms[j], opts) then [CmdEn(true)] else []
    ensures Heals(StateAt(START, ms, j, opts), ms[j], opts) ==> StateAt(START, ms, j + 1, opts).lastEn == ms[j].now
  {
    AlwaysSettled(START, ms, j, opts);
    hide BeginFlasher;
    var s := StateAt(START, ms, j, opts);
    StatusFrames(s, ms[j].event.en, ms[j].now, ms[j].io, opts);
    if s.ota == Quiescing {
      BeginFrame(s, ms[j].now, ms[j].io.spawned);
    }
  }

  ghost predicate Forward(ms: seq<Moment>) {
    forall k, l :: 0 <= k <= l < |ms| ==> ms[k].now <= ms[l].now
  }

  lemma {:induction false} EffectsClock(h: Host, now: nat, fx: seq<Effect>)
    ensures var g := Effects(h, now, fx).host; g.lastEn == h.lastEn || g.lastEn == now
    decreases fx
  {
    if fx != [] {
      var r := match fx[0]
               case Send(m, _) => Result(h, [ConFrame(m)])
               case Notify(c) => OnComm(h, now, c);
      EffectsClock(r.host, now, fx[1..]);
    }
  }

  lemma {:induction false} LinkedClock(h: Host, now: nat, o: Outcome)
    ensures var g := Linked(h, now, o).host;
      && (g.lastEn == h.lastEn || g.lastEn == now) && g.lastRetry == h.lastRetry
  {
    hide Effects;
    EffectsClock(h.(link := o.link), now, o.fx);
    EffectsFrame(h.(link := o.link), now, o.fx);
  }

  /** Only the time of the event itself is ever noted as that of the last enable, or of the
      last attempt to connect, which can also be forgotten. */
  lemma {:induction false} ClocksStep(h: Host, m: Moment, opts: Options)
    requires Settled(h) && Possible(h, m.event)
    ensures var g := Handle(h, m, opts).host;
      && (g.lastEn == h.lastEn || g.lastEn == m.now)
      && (g.lastRetry == h.lastRetry || g.lastRetry == m.now
          || (g.lastRetry == 0 && Forgets(m)))
  {
    hide Linked, BeginFlasher, OnTick, OnReceive, ParseSpeeds, OnConnect, OnDisconnect, Admissible;
    match m.event
    case Line(_, cmd) =>
      if cmd.CEn? && cmd.arg.Some? {
        var on := cmd.arg.value;
        var g := if on then h.(disabled := false, lastEn := m.now) else h.(disabled := true, drive := Rest);
        LinkedClock(g, m.now, if on then OnConnect(g.link, m.now, m.io.ok) else OnDisconnect(g.link, m.now, m.io.ok));
      }
    case WatchdogTimer =>
      hide OnOtaTimeout, OnReconnect;
      WatchdogClock(h, m, opts);
    case ConTick => LinkedClock(h, m.now, OnTick(h.link, m.now, m.io.ok, m.io.pingOk));
    case Con(msg) => LinkedClock(h, m.now, OnReceive(h.link, msg, m.now, m.io.ok));
    case Status(en) =>
      var g := Heal(h, en, m.now, opts).host;
      if g.ota == Quiescing {
        BeginFrame(g, m.now, m.io.spawned);
      }
    case _ =>
  }

  /** A port that came back, or a child that did its work, makes the next attempt due at once. */
  predicate Forgets(m: Moment) {
    (m.event.WatchdogTimer? && m.io.portOpen && m.io.reopened) || m.event == ChildExit(true)
  }

  lemma {:induction false} WatchdogClock(h: Host, m: Moment, opts: Options)
    requires Settled(h) && m.event.WatchdogTimer?
    ensures var g := OnWatchdog(h, m.now, m.io, opts).host;
      && g.lastEn == h.lastEn
      && (g.lastRetry == h.lastRetry || g.lastRetry == m.now || (g.lastRetry == 0 && Forgets(m)))
  {
    var g := if m.io.portOpen && m.io.reopened then h.(lastRetry := 0) else h;
    TimeoutClock(g, m.now, m.io, opts);
    hide OnOtaTimeout;
    var t := OnOtaTimeout(g, m.now, m.io, opts).host;
    hide Linked;
    ConnectFrames(t.(lastRetry := m.now), m.now, m.io.ok);
  }

  lemma {:induction false} TimeoutClock(h: Host, now: nat, io: Io, opts: Options)
    requires Settled(h)
    ensures var g := OnOtaTimeout(h, now, io, opts).host; g.lastRetry == h.lastRetry && g.lastEn == h.lastEn
  {
    hide BeginFlasher;
    if h.ota == Quiescing {
      BeginFrame(h, now, io.spawned);
    }
  }

  lemma {:induction false} EffectsNoted(h: Host, now: nat, fx: seq<Effect>)
    ensures var r := Effects(h, now, fx);
      && (CmdEn(!h.disabled) in r.out <==> Notify(Ready) in fx)
      && (Notify(Ready) in fx ==> r.host.lastEn == now)
    decreases fx
  {
    if fx != [] {
      var r := match fx[0]
               case Send(m, _) => Result(h, [ConFrame(m)])
               case Notify(c) => OnComm(h, now, c);
      EffectsNoted(r.host, now, fx[1..]);
      EffectsClock(r.host, now, fx[1..]);
      assert fx == [fx[0]] + fx[1..];
    }
  }

  lemma {:induction false} LinkedNoted(h: Host, now: nat, o: Outcome)
    ensures var r := Linked(h, now, o); forall b :: CmdEn(b) in r.out ==> r.host.lastEn == now
  {
    hide Effects;
    EffectsNoted(h.(link := o.link), now, o.fx);
    EffectsFrame(h.(link := o.link), now, o.fx);
  }

  /** Whenever an enable is handed over, for whatever reason, the time is noted. */
  lemma {:induction false} NotedStep(h: Host, m: Moment, opts: Options)
    requires Settled(h) && Possible(h, m.event)
    ensures var r := Handle(h, m, opts); CmdEn(true) in r.out ==> r.host.lastEn == m.now
  {
    hide Linked, BeginFlasher, OnTick, OnReceive, OnConnect, OnDisconnect, ParseSpeeds, Admissible;
    match m.event
    case Line(_, cmd) =>
      if cmd == CEn(Some(true)) && !Busy(h) {
        var e := h.(disabled := false, lastEn := m.now);
        LinkedClock(e, m.now, OnConnect(e.link, m.now, m.io.ok));
      } else {
        DisableHandsNoEnable(h, m, opts);
      }
    case WatchdogTimer =>
      hide OnWatchdog;
      ReconnectStep(h, m, opts);
    case ConTick => LinkedNoted(h, m.now, OnTick(h.link, m.now, m.io.ok, m.io.pingOk));
    case Con(msg) => LinkedNoted(h, m.now, OnReceive(h.link, msg, m.now, m.io.ok));
    case Status(en) =>
      StatusFrames(h, en, m.now, m.io, opts);
      var g := Heal(h, en, m.now, opts).host;
      if g.ota == Quiescing {
        BeginFrame(g, m.now, m.io.spawned);
      }
    case _ =>
  }

  lemma {:induction false} DisableHandsNoEnable(h: Host, m: Moment, opts: Options)
    requires m.event.Line? && !AcceptedEn(h, m.event, true)
    ensures CmdEn(true) !in Handle(h, m, opts).out
  {
    hide Linked, OnConnect, ParseSpeeds, Admissible;
    if AcceptedEn(h, m.event, false) {
      hide Effects;
      DisconnectFrames(h.(disabled := true, drive := Rest), m.now, m.io.ok);
    }
  }

  lemma {:induction false} ClocksAt(ms: seq<Moment>, k: nat, opts: Options)
    requires Feasible(START, ms, opts) && k < |ms|
    ensures var h, g := StateAt(START, ms, k, opts), StateAt(START, ms, k + 1, opts);
      && (g.lastEn == h.lastEn || g.lastEn == ms[k].now)
      && (g.lastRetry == h.lastRetry || g.lastRetry == ms[k].now || (g.lastRetry == 0 && Forgets(ms[k])))
      && (CmdEn(true) in OutAt(START, ms, k, opts) ==> g.lastEn == ms[k].now)
  {
    hide Handle;
    AlwaysSettled(START, ms, k, opts);
    ClocksStep(StateAt(START, ms, k, opts), ms[k], opts);
    NotedStep(StateAt(START, ms, k, opts), ms[k], opts);
  }

  lemma {:induction false} EnableNotForgotten(ms: seq<Moment>, i: nat, j: nat, opts: Options)
    requires Feasible(START, ms, opts) && i < j <= |ms| && Forward(ms)
    requires CmdEn(true) in OutAt(START, ms, i, opts)
    ensures StateAt(START, ms, j, opts).lastEn >= ms[i].now
    decreases j
  {
    hide StateAt, Feasible, OutAt;
    if i + 1 < j {
      EnableNotForgotten(ms, i, j - 1, opts);
    }
    ClocksAt(ms, j - 1, opts);
  }

  /** A healing enable is handed over more than the resend interval after any other enable:
      the operator's, that of a link coming up, or another healing one. */
  lemma {:induction false} HealsApart(ms: seq<Moment>, i: nat, j: nat, opts: Options)
    requires Feasible(START, ms, opts) && i < j < |ms| && Forward(ms)
    requires CmdEn(true) in OutAt(START, ms, i, opts) && Heals(StateAt(START, ms, j, opts), ms[j], opts)
    ensures ms[j].now - ms[i].now > opts.enResend
  {
    hide StateAt, Feasible, OutAt;
    EnableNotForgotten(ms, i, j, opts);
  }

  // ---------------------------------------------------------------- reconnection

  /** The quiescing phase is overdue. */
  predicate QuiesceOver(h: Host, m: Moment, opts: Options) {
    h.ota == Quiescing && m.event.WatchdogTimer? && m.now - h.phaseStart > opts.quiesceTimeout
  }

  /** The watchdog asks for a link exactly if the port is open, the last attempt is old enough
      or forgotten, the link is down, or just reset for a child that could not be started, and
      no firmware is being flashed. */
  predicate Reconnects(h: Host, m: Moment, opts: Options) {
    && m.event.WatchdogTimer? && m.io.portOpen
    && m.now - (if m.io.reopened then 0 else h.lastRetry) >= opts.conRetry
    && if QuiesceOver(h, m, opts) then !m.io.spawned else h.ota != Flashing && h.link.Down?
  }

  lemma {:induction false} ReconnectStep(h: Host, m: Moment, opts: Options)
    requires Settled(h) && m.event.WatchdogTimer?
    ensures var r := Handle(h, m, opts);
      && r.out == (if Reconnects(h, m, opts) then [ConFrame(EnableRequest)] else [])
      && (Reconnects(h, m, opts) ==> r.host.lastRetry == m.now && r.host.link == if m.io.ok then Opening(m.now + 400, 0) else Down)
      && (!Reconnects(h, m, opts) && !Forgets(m) ==> r.host.lastRetry == h.lastRetry)
  {
    hide Linked, BeginFlasher;
    var g := if m.io.portOpen && m.io.reopened then h.(lastRetry := 0) else h;
    if h.ota == Quiescing {
      BeginFrame(g, m.now, m.io.spawned);
    }
    var t := OnOtaTimeout(g, m.now, m.io, opts).host;
    ConnectFrames(t.(lastRetry := m.now), m.now, m.io.ok);
  }

  /** Over every run: exactly then. */
  lemma {:induction false} ReconnectsExactly(ms: seq<Moment>, j: nat, opts: Options)
    requires Feasible(START, ms, opts) && j < |ms| && ms[j].event.WatchdogTimer?
    ensures var s, g := StateAt(START, ms, j, opts), StateAt(START, ms, j + 1, opts);
      && OutAt(START, ms, j, opts) == (if Reconnects(s, ms[j], opts) then [ConFrame(EnableRequest)] else [])
      && (Reconnects(s, ms[j], opts) ==>
            g.lastRetry == ms[j].now && g.link == if ms[j].io.ok then Opening(ms[j].now + 400, 0) else Down)
      && (!Reconnects(s, ms[j], opts) && !Forgets(ms[j]) ==> g.lastRetry == s.lastRetry)
  {
    hide Handle, Reconnects;
    AlwaysSettled(START, ms, j, opts);
    ReconnectStep(StateAt(START, ms, j, opts), ms[j], opts);
  }

  lemma {:induction false} RetryNotForgotten(ms: seq<Moment>, i: nat, j: nat, opts: Options)
    requires Feasible(START, ms, opts) && i < j <= |ms| && Forward(ms)
    requires StateAt(START, ms, i + 1, opts).lastRetry == ms[i].now
    requires forall k :: i < k < j ==> !Forgets(ms[k])
    ensures StateAt(START, ms, j, opts).lastRetry >= ms[i].now
    decreases j
  {
    hide StateAt, Feasible, Forgets;
    if i + 1 < j {
      RetryNotForgotten(ms, i, j - 1, opts);
      ClocksAt(ms, j - 1, opts);
    }
  }

  /** Two attempts of the watchdog are the retry interval apart, unless the first has been
      forgotten: by a port that came back, or by a child that did its work. */
  lemma {:induction false} ReconnectsApart(ms: seq<Moment>, i: nat, j: nat, opts: Options)
    requires Feasible(START, ms, opts) && i < j < |ms| && Forward(ms)
    requires Reconnects(StateAt(START, ms, i, opts), ms[i], opts) && Reconnects(StateAt(START, ms, j, opts), ms[j], opts)
    requires forall k :: i < k <= j ==> !Forgets(ms[k])
    ensures ms[j].now - ms[i].now >= opts.conRetry
  {
    hide StateAt, Feasible;
    ReconnectsExactly(ms, i, opts);
    RetryNotForgotten(ms, i, j, opts);
  }

  lemma {:induction false} RetryIsPast(ms: seq<Moment>, j: nat, opts: Options)
    requires Feasible(START, ms, opts) && j < |ms| && Forward(ms)
    ensures StateAt(START, ms, j + 1, opts).lastRetry <= ms[j].now
    decreases j
  {
    assert StateAt(START, ms, 0, opts) == START;
    hide StateAt, Feasible, Forgets;
    if j > 0 {
      RetryIsPast(ms, j - 1, opts);
    }
    ClocksAt(ms, j, opts);
  }

  /** Before event k the link is down, no firmware is being flashed nor about to be, and if the
      watchdog looks, the port is open but it asks for no link. */
  ghost predicate NeglectedAt(ms: seq<Moment>, k: nat, opts: Options)
    requires k < |ms|
  {
    var s := StateAt(START, ms, k, opts);
    && s.link == Down && (s.ota == Idle || s.ota == Recovering)
    && (ms[k].event.WatchdogTimer? ==> ms[k].io.portOpen && ConFrame(EnableRequest) !in OutAt(START, ms, k, opts))
  }

  lemma {:induction false} NeglectStep(ms: seq<Moment>, k: nat, limit: nat, opts: Options)
    requires Feasible(START, ms, opts) && k < |ms| && NeglectedAt(ms, k, opts)
    requires StateAt(START, ms, k, opts).lastRetry <= limit
    ensures StateAt(START, ms, k + 1, opts).lastRetry <= limit
    ensures ms[k].event.WatchdogTimer? ==> ms[k].now <= limit + opts.conRetry
  {
    hide StateAt, OutAt, Feasible;
    if ms[k].event.WatchdogTimer? {
      ReconnectsExactly(ms, k, opts);
    }
    RetryFalls(ms, k, opts);
  }

  lemma WatchedIsForward(ms: seq<Moment>, t0: nat, w: nat)
    requires Watched(ms, t0, w)
    ensures Forward(ms)
  {}

  lemma {:induction false} NeglectClock(ms: seq<Moment>, i: nat, j: nat, t0: nat, w: nat, opts: Options)
    requires Feasible(START, ms, opts) && i < j <= |ms| && Watched(ms, t0, w)
    requires forall k :: i < k < j ==> NeglectedAt(ms, k, opts)
    ensures StateAt(START, ms, j, opts).lastRetry <= ms[i].now
    ensures LastWatchdog(ms, j, t0) <= ms[i].now + opts.conRetry
    decreases j
  {
    hide StateAt, Feasible, NeglectedAt, Watched;
    if j == i + 1 {
      WatchdogIsPast(ms, t0, w, i);
      WatchedIsForward(ms, t0, w);
      RetryIsPast(ms, i, opts);
    } else {
      NeglectClock(ms, i, j - 1, t0, w, opts);
      NeglectStep(ms, j - 1, ms[i].now, opts);
    }
  }

  lemma {:induction false} RetryFalls(ms: seq<Moment>, k: nat, opts: Options)
    requires Feasible(START, ms, opts) && k < |ms| && !Reconnects(StateAt(START, ms, k, opts), ms[k], opts)
    ensures StateAt(START, ms, k + 1, opts).lastRetry <= StateAt(START, ms, k, opts).lastRetry
  {
    hide Handle;
    AlwaysSettled(START, ms, k, opts);
    if ms[k].event.WatchdogTimer? {
      QuietWatchdog(StateAt(START, ms, k, opts), ms[k], opts);
    } else {
      OtherClock(StateAt(START, ms, k, opts), ms[k], opts);
    }
  }

  lemma {:induction false} QuietWatchdog(h: Host, m: Moment, opts: Options)
    requires Settled(h) && m.event.WatchdogTimer? && !Reconnects(h, m, opts)
    ensures Handle(h, m, opts).host.lastRetry <= h.lastRetry
  {
    hide Linked, BeginFlasher;
    var g := if m.io.portOpen && m.io.reopened then h.(lastRetry := 0) else h;
    if h.ota == Quiescing {
      BeginFrame(g, m.now, m.io.spawned);
    }
  }

  lemma {:induction false} OtherClock(h: Host, m: Moment, opts: Options)
    requires Settled(h) && Possible(h, m.event) && !m.event.WatchdogTimer?
    ensures Handle(h, m, opts).host.lastRetry <= h.lastRetry
  {
    hide Linked, BeginFlasher, OnTick, OnReceive, ParseSpeeds, OnConnect, OnDisconnect, Admissible;
    match m.event
    case Line(_, cmd) =>
      if cmd.CEn? && cmd.arg.Some? {
        var on := cmd.arg.value;
        var g := if on then h.(disabled := false, lastEn := m.now) else h.(disabled := true, drive := Rest);
        LinkedClock(g, m.now, if on then OnConnect(g.link, m.now, m.io.ok) else OnDisconnect(g.link, m.now, m.io.ok));
      }
    case ConTick => LinkedClock(h, m.now, OnTick(h.link, m.now, m.io.ok, m.io.pingOk));
    case Con(msg) => LinkedClock(h, m.now, OnReceive(h.link, msg, m.now, m.io.ok));
    case Status(en) =>
      var g := Heal(h, en, m.now, opts).host;
      if g.ota == Quiescing {
        BeginFrame(g, m.now, m.io.spawned);
      }
    case _ =>
  }

  /** A link that is down while nothing forbids it is asked for again within the retry interval
      and one watchdog period: it is never neglected for longer. */
  lemma {:induction false} ReconnectBound(ms: seq<Moment>, i: nat, j: nat, t0: nat, w: nat, opts: Options)
    requires Feasible(START, ms, opts) && i < j < |ms| && Watched(ms, t0, w)
    requires forall k :: i < k < j ==> NeglectedAt(ms, k, opts)
    ensures ms[j].now <= ms[i].now + opts.conRetry + w
  {
    hide StateAt, Feasible, NeglectedAt;
    NeglectClock(ms, i, j, t0, w, opts);
  }

  lemma {:induction false} RetryStaysForgotten(ms: seq<Moment>, i: nat, j: nat, opts: Options)
    requires Feasible(START, ms, opts) && i < j <= |ms| && StateAt(START, ms, i + 1, opts).lastRetry == 0
    requires forall k :: i < k < j ==> !ms[k].event.WatchdogTimer?
    ensures StateAt(START, ms, j, opts).lastRetry == 0
    decreases j
  {
    hide StateAt, Feasible;
    if i + 1 < j {
      RetryStaysForgotten(ms, i, j - 1, opts);
      RetryFalls(ms, j - 1, opts);
    }
  }

  /** After a flash that did its work, the next look of the watchdog asks for a link if it is
      down, the port is open, and the clock is past the retry interval at all. */
  lemma {:induction false} RecoveryReconnects(ms: seq<Moment>, i: nat, j: nat, opts: Options)
    requires Feasible(START, ms, opts) && i < j < |ms|
    requires ms[i].event == ChildExit(true) && StateAt(START, ms, i, opts).ota == Flashing
    requires forall k :: i < k < j ==> !ms[k].event.WatchdogTimer?
    requires ms[j].event.WatchdogTimer? && ms[j].io.portOpen && ms[j].now >= opts.conRetry
    requires StateAt(START, ms, j, opts).ota == Recovering && StateAt(START, ms, j, opts).link == Down
    ensures OutAt(START, ms, j, opts) == [ConFrame(EnableRequest)]
  {
    assert StateAt(START, ms, i + 1, opts).lastRetry == 0;
    hide StateAt, Feasible, OutAt;
    RetryStaysForgotten(ms, i, j, opts);
    ReconnectsExactly(ms, j, opts);
  }

  // ---------------------------------------------------------------- connections

  /** Connection c was opened in event i and has not been closed since. */
  predicate OpenSince(ms: seq<Moment>, i: nat, j: nat, c: Conn) {
    i < j <= |ms| && ms[i].event == Opened(c) && forall k :: i < k < j ==> ms[k].event != Closed(c)
  }

  lemma {:induction false} ConnsStep(h: Host, m: Moment, opts: Options)
    requires Settled(h) && Possible(h, m.event)
    ensures Handle(h, m, opts).host.conns
         == match m.event
            case Opened(c) => h.conns + {c}
            case Closed(c) => h.conns - {c}
            case _ => h.conns
  {
    hide Linked, BeginFlasher, OnTick, OnReceive, ParseSpeeds, OnConnect, OnDisconnect, Admissible;
    match m.event
    case Line(_, cmd) =>
      if cmd.CEn? && cmd.arg.Some? {
        var on := cmd.arg.value;
        var g := if on then h.(disabled := false, lastEn := m.now) else h.(disabled := true, drive := Rest);
        LinkedFrame(g, m.now, if on then OnConnect(g.link, m.now, m.io.ok) else OnDisconnect(g.link, m.now, m.io.ok));
      }
    case WatchdogTimer =>
      hide OnOtaTimeout, OnReconnect;
      var g := if m.io.portOpen && m.io.reopened then h.(lastRetry := 0) else h;
      OtaTimeoutSteps(g, m.now, m.io, opts);
      ReconnectSteps(OnOtaTimeout(g, m.now, m.io, opts).host, m.now, m.io, opts);
    case ConTick => LinkedFrame(h, m.now, OnTick(h.link, m.now, m.io.ok, m.io.pingOk));
    case Con(msg) => LinkedFrame(h, m.now, OnReceive(h.link, msg, m.now, m.io.ok));
    case Status(en) =>
      var g := Heal(h, en, m.now, opts).host;
      if g.ota == Quiescing {
        BeginFrame(g, m.now, m.io.spawned);
      }
    case _ =>
  }

  /** The open connections are exactly those opened and not closed since. */
  lemma {:induction false} ConnsExactly(ms: seq<Moment>, j: nat, c: Conn, opts: Options)
    requires Feasible(START, ms, opts) && j <= |ms|
    ensures c in StateAt(START, ms, j, opts).conns <==> exists i: nat :: OpenSince(ms, i, j, c)
    decreases j
  {
    hide Handle;
    if j > 0 {
      ConnsExactly(ms, j - 1, c, opts);
      AlwaysSettled(START, ms, j - 1, opts);
      ConnsStep(StateAt(START, ms, j - 1, opts), ms[j - 1], opts);
      hide StateAt, Feasible;
      if ms[j - 1].event == Opened(c) {
        assert OpenSince(ms, j - 1, j, c);
      } else {
        OpenGoesOn(ms, j - 1, j, c);
      }
    }
  }

  lemma {:induction false} OpenGoesOn(ms: seq<Moment>, p: nat, j: nat, c: Conn)
    requires j == p + 1 <= |ms| && ms[p].event != Opened(c)
    ensures (exists i: nat :: OpenSince(ms, i, j, c))
       <==> ms[p].event != Closed(c) && exists i: nat :: OpenSince(ms, i, p, c)
  {
    forall i: nat
      ensures OpenSince(ms, i, j, c) <==> OpenSince(ms, i, p, c) && ms[p].event != Closed(c)
    {}
  }

  // ---------------------------------------------------------------- each step of a job

  /** The link reports READY in this event. */
  predicate Greets(l: Link, m: Moment) {
    || (m.event == Con(EnableResponse) && l.Opening?)
    || (m.event == Con(EnableRequest) && !l.Closing? && (m.io.ok || !l.Down?))
  }

  /** The phase after an event, in full. */
  function NextPhase(h: Host, m: Moment, opts: Options): Ota {
    match h.ota
    case Idle => if Flashable(h, m.event) then Quiescing else Idle
    case Quiescing =>
      if Aborting(m.event) then Idle
      else if m.event == Status(false) || QuiesceOver(h, m, opts) then (if m.io.spawned then Flashing else Idle)
      else Quiescing
    case Flashing =>
      if m.event == ChildExit(true) then Recovering
      else if m.event == ChildExit(false) then Idle
      else Flashing
    case Recovering =>
      if Aborting(m.event) || Greets(h.link, m)
         || (m.event.WatchdogTimer? && m.now - h.phaseStart > opts.recoverTimeout)
      then Idle else Recovering
  }

  lemma {:induction false} EffectsPhase(h: Host, now: nat, fx: seq<Effect>)
    ensures Effects(h, now, fx).host.ota == if h.ota == Recovering && Notify(Ready) in fx then Idle else h.ota
    decreases fx
  {
    if fx != [] {
      var r := match fx[0]
               case Send(m, _) => Result(h, [ConFrame(m)])
               case Notify(c) => OnComm(h, now, c);
      EffectsPhase(r.host, now, fx[1..]);
      assert fx == [fx[0]] + fx[1..];
    }
  }

  lemma {:induction false} LinkedPhase(h: Host, now: nat, o: Outcome)
    ensures Linked(h, now, o).host.ota == if h.ota == Recovering && Notify(Ready) in o.fx then Idle else h.ota
  {
    hide Effects;
    EffectsPhase(h.(link := o.link), now, o.fx);
  }

  lemma GreetsWhen(l: Link, m: Moment, msg: Msg)
    requires m.event == Con(msg)
    ensures Notify(Ready) in OnReceive(l, msg, m.now, m.io.ok).fx <==> Greets(l, m)
  {}

  lemma {:induction false} TickIsNoGreeting(l: Link, now: nat, ok: bool, pingOk: bool)
    ensures Notify(Ready) !in OnTick(l, now, ok, pingOk).fx
  {
    var a := RspOverdue(l, now, ok);
    assert Notify(Ready) !in a.fx && Notify(Ready) !in PingOverdue(a.link, now, pingOk).fx;
  }

  lemma {:induction false} LinePhase(h: Host, m: Moment, opts: Options)
    requires Settled(h) && Possible(h, m.event) && m.event.Line?
    ensures Handle(h, m, opts).host.ota == NextPhase(h, m, opts)
  {
    hide Linked, ParseSpeeds;
    var cmd := m.event.cmd;
    if cmd.CEn? && cmd.arg.Some? {
      var on := cmd.arg.value;
      var g := if on then h.(disabled := false, lastEn := m.now) else h.(disabled := true, drive := Rest);
      LinkedPhase(g, m.now, if on then OnConnect(g.link, m.now, m.io.ok) else OnDisconnect(g.link, m.now, m.io.ok));
    }
  }

  lemma {:induction false} WatchdogPhase(h: Host, m: Moment, opts: Options)
    requires Settled(h) && m.event.WatchdogTimer?
    ensures Handle(h, m, opts).host.ota == NextPhase(h, m, opts)
  {
    hide Linked, BeginFlasher;
    var g := if m.io.portOpen && m.io.reopened then h.(lastRetry := 0) else h;
    if h.ota == Quiescing {
      BeginFrame(g, m.now, m.io.spawned);
    }
    var t := OnOtaTimeout(g, m.now, m.io, opts).host;
    LinkedPhase(t.(lastRetry := m.now), m.now, OnConnect(t.link, m.now, m.io.ok));
  }

  /** Over every run the phase moves exactly as described. */
  lemma {:induction false} PhaseExactly(ms: seq<Moment>, j: nat, opts: Options)
    requires Feasible(START, ms, opts) && j < |ms|
    ensures StateAt(START, ms, j + 1, opts).ota == NextPhase(StateAt(START, ms, j, opts), ms[j], opts)
  {
    hide Handle, NextPhase;
    AlwaysSettled(START, ms, j, opts);
    PhaseStep(StateAt(START, ms, j, opts), ms[j], opts);
  }

  lemma {:induction false} PhaseStep(h: Host, m: Moment, opts: Options)
    requires Settled(h) && Possible(h, m.event)
    ensures Handle(h, m, opts).host.ota == NextPhase(h, m, opts)
  {
    hide Linked, BeginFlasher, OnTick, OnReceive, OnCommand, OnWatchdog;
    match m.event
    case Line(_, _) => LinePhase(h, m, opts);
    case WatchdogTimer => WatchdogPhase(h, m, opts);
    case ConTick =>
      LinkedPhase(h, m.now, OnTick(h.link, m.now, m.io.ok, m.io.pingOk));
      TickIsNoGreeting(h.link, m.now, m.io.ok, m.io.pingOk);
    case Con(msg) =>
      LinkedPhase(h, m.now, OnReceive(h.link, msg, m.now, m.io.ok));
      GreetsWhen(h.link, m, msg);
    case Status(en) =>
      var g := Heal(h, en, m.now, opts).host;
      if g.ota == Quiescing {
        BeginFrame(g, m.now, m.io.spawned);
      }
    case _ =>
  }
}
