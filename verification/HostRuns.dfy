/** Whole runs of the host controller, over every sequence of events and every answer of the
    outside world: which frames can reach the board, and how an OTA job unfolds. */
module HostRuns {
  import opened ConSm
  import opened Optional
  import opened ChassisHost

  // ---------------------------------------------------------------- runs

  function StateAt(h: Host, ms: seq<Moment>, i: nat, opts: Options): Host
    requires i <= |ms|
    decreases i
  {
    if i == 0 then h else Handle(StateAt(h, ms, i - 1, opts), ms[i - 1], opts).host
  }

  /** The frames handed to the port by event i. */
  function OutAt(h: Host, ms: seq<Moment>, i: nat, opts: Options): seq<Out>
    requires i < |ms|
  {
    Handle(StateAt(h, ms, i, opts), ms[i], opts).out
  }

  ghost predicate Feasible(h: Host, ms: seq<Moment>, opts: Options) {
    forall i :: 0 <= i < |ms| ==> Possible(StateAt(h, ms, i, opts), ms[i].event)
  }

  /** Between events: a command being repeated has an open source, the child runs exactly while
      the phase is flashing, and an OTA job holds everything still. */
  predicate Settled(h: Host) {
    && (h.drive != Rest ==> h.source.Some? && h.source.value in h.conns)
    && (h.child <==> h.ota == Flashing)
    && (Busy(h) ==> h.drive == Rest && h.source == None && h.disabled)
  }

  // ---------------------------------------------------------------- frames of one event

  predicate Moves(f: Out) { f.CmdTwist? || f.CmdVel? }

  /** Frames that set the motors going or keep them going. */
  predicate Energises(f: Out) { Moves(f) || f == CmdEn(true) }

  /** Carrying out link effects touches nothing but the enable timestamp and, when the link
      comes up during recovery, the phase; the only frames are CON frames and one kind of
      enable. */
  lemma {:induction false} EffectsFrame(h: Host, now: nat, fx: seq<Effect>)
    ensures var r := Effects(h, now, fx);
      && r.host == h.(lastEn := r.host.lastEn, ota := r.host.ota)
      && (r.host.ota == h.ota || (h.ota == Recovering && r.host.ota == Idle))
      && (forall f :: f in r.out ==> f.ConFrame? || f == CmdEn(!h.disabled))
    decreases fx
  {
    if fx != [] {
      var r := match fx[0]
               case Send(m, _) => Result(h, [ConFrame(m)])
               case Notify(c) => OnComm(h, now, c);
      EffectsFrame(r.host, now, fx[1..]);
    }
  }

  lemma {:induction false} HangupIsQuiet(h: Host, now: nat, l: Link)
    ensures Effects(h, now, Hangup(l).fx) == Result(h, [])
  {
    if l.IsReady() {
      assert [Notify(NotReady)][1..] == [];
      assert Effects(h, now, []) == Result(h, []);
    }
  }

  /** A new speed command: its source and what will be repeated. */
  function Setting(h: Host, e: Input): Option<(Conn, Drive)> {
    if Busy(h) || !e.Line? then None
    else match e.cmd
      case CV(args) => if ParseSpeeds(args).Some? then Some((e.conn, Twist(ParseSpeeds(args).value))) else None
      case CRpm(args) => if ParseSpeeds(args).Some? then Some((e.conn, Rpm(ParseSpeeds(args).value))) else None
      case _ => None
  }

  predicate AcceptedEn(h: Host, e: Input, on: bool) {
    !Busy(h) && e.Line? && e.cmd == CEn(Some(on))
  }

  predicate AcceptedFlash(h: Host, e: Input) {
    !Busy(h) && e.Line? && e.cmd.CFlash? && Admissible(e.cmd.req)
  }

  /** Events after which the speed command of connection c may no longer be repeated. */
  predicate Revokes(h: Host, e: Input, c: Conn) {
    || Setting(h, e).Some?
    || (e.Line? && e.cmd == CStop)
    || AcceptedEn(h, e, false)
    || AcceptedFlash(h, e)
    || e == Closed(c)
  }

  lemma {:induction false} LinkedFrame(h: Host, now: nat, o: Outcome)
    ensures var r := Linked(h, now, o);
      && r.host == h.(link := o.link, lastEn := r.host.lastEn, ota := r.host.ota)
      && (r.host.ota == h.ota || (h.ota == Recovering && r.host.ota == Idle))
      && (forall f :: f in r.out ==> f.ConFrame? || f == CmdEn(!h.disabled))
  {
    hide Effects;
    EffectsFrame(h.(link := o.link), now, o.fx);
  }

  lemma {:induction false} BeginFrame(h: Host, now: nat, spawned: bool)
    requires !h.child
    ensures var r := BeginFlasher(h, now, spawned);
      && r.out == [] && r.host.link == Down
      && r.host == h.(ota := r.host.ota, phaseStart := now, child := spawned, link := Down)
      && r.host.ota == if spawned then Flashing else Idle
  {
    hide Effects;
    var g := h.(ota := Flashing, phaseStart := now);
    HangupIsQuiet(g.(link := Down), now, h.link);
  }

  // ---------------------------------------------------------------- what one event changes

  /** The repeated command, its source and the disable flag after event m. */
  ghost predicate ControlAfter(h: Host, m: Moment, g: Host) {
    && (if Setting(h, m.event).Some? then
          g.source == Some(Setting(h, m.event).value.0) && g.drive == Setting(h, m.event).value.1
        else if (m.event.Line? && m.event.cmd == CStop) || AcceptedFlash(h, m.event)
                || (m.event.Closed? && h.source == Some(m.event.conn)) then
          g.source == None && g.drive == Rest
        else g.source == h.source && g.drive == if AcceptedEn(h, m.event, false) then Rest else h.drive)
    && g.disabled == (if AcceptedEn(h, m.event, true) then false
                      else if AcceptedEn(h, m.event, false) || AcceptedFlash(h, m.event) then true
                      else h.disabled)
  }

  /** What the frames of event m can be. */
  ghost predicate OutAfter(h: Host, m: Moment, out: seq<Out>) {
    && (forall f :: f in out && Moves(f) ==> m.event == RepeatTimer && out == OnRepeat(h))
    && (CmdEn(true) in out ==> AcceptedEn(h, m.event, true) || !h.disabled)
  }

  lemma {:induction false} CommandSteps(h: Host, m: Moment, opts: Options)
    requires Settled(h) && Possible(h, m.event) && m.event.Line?
    ensures var r := Handle(h, m, opts);
      Settled(r.host) && ControlAfter(h, m, r.host) && OutAfter(h, m, r.out)
  {
    hide Linked, ParseSpeeds, Admissible, OnConnect, OnDisconnect;
    var c := m.event.cmd;
    if c.CEn? && c.arg.Some? {
      var on := c.arg.value;
      var g := if on then h.(disabled := false, lastEn := m.now) else h.(disabled := true, drive := Rest);
      LinkedFrame(g, m.now, if on then OnConnect(g.link, m.now, m.io.ok) else OnDisconnect(g.link, m.now, m.io.ok));
    }
  }

  predicate SameControl(h: Host, g: Host) {
    g.conns == h.conns && g.drive == h.drive && g.source == h.source && g.disabled == h.disabled
  }

  lemma {:induction false} OtaTimeoutSteps(h: Host, now: nat, io: Io, opts: Options)
    requires Settled(h)
    ensures var r := OnOtaTimeout(h, now, io, opts); Settled(r.host) && SameControl(h, r.host) && r.out == []
  {
    hide BeginFlasher;
    if h.ota == Quiescing {
      BeginFrame(h, now, io.spawned);
    }
  }

  lemma {:induction false} ReconnectSteps(h: Host, now: nat, io: Io, opts: Options)
    requires Settled(h)
    ensures var r := OnReconnect(h, now, io, opts);
      && Settled(r.host) && SameControl(h, r.host)
      && forall f :: f in r.out ==> f.ConFrame? || f == CmdEn(!h.disabled)
  {
    hide Linked, OnConnect;
    LinkedFrame(h.(lastRetry := now), now, OnConnect(h.link, now, io.ok));
  }

  lemma {:induction false} TimerSteps(h: Host, m: Moment, opts: Options)
    requires Settled(h) && m.event.WatchdogTimer?
    ensures var r := Handle(h, m, opts);
      Settled(r.host) && ControlAfter(h, m, r.host) && OutAfter(h, m, r.out)
  {
    hide OnOtaTimeout, OnReconnect;
    var g := if m.io.portOpen && m.io.reopened then h.(lastRetry := 0) else h;
    OtaTimeoutSteps(g, m.now, m.io, opts);
    ReconnectSteps(OnOtaTimeout(g, m.now, m.io, opts).host, m.now, m.io, opts);
  }

  /** Every event keeps the host settled and changes the control state as described. */
  lemma {:induction false} HandleSteps(h: Host, m: Moment, opts: Options)
    requires Settled(h) && Possible(h, m.event)
    ensures var r := Handle(h, m, opts);
      Settled(r.host) && ControlAfter(h, m, r.host) && OutAfter(h, m, r.out)
  {
    hide Linked, OnCommand, OnWatchdog, BeginFlasher, OnTick, OnReceive;
    match m.event
    case Line(_, _) => CommandSteps(h, m, opts);
    case WatchdogTimer => TimerSteps(h, m, opts);
    case ConTick => LinkedFrame(h, m.now, OnTick(h.link, m.now, m.io.ok, m.io.pingOk));
    case Con(msg) => LinkedFrame(h, m.now, OnReceive(h.link, msg, m.now, m.io.ok));
    case Status(en) =>
      if h.ota == Quiescing {
        BeginFrame(h, m.now, m.io.spawned);
      }
    case _ =>
  }

  lemma {:induction false} AlwaysSettled(h: Host, ms: seq<Moment>, j: nat, opts: Options)
    requires Settled(h) && Feasible(h, ms, opts) && j <= |ms|
    ensures Settled(StateAt(h, ms, j, opts))
    decreases j
  {
    hide Settled, Handle;
    if j > 0 {
      AlwaysSettled(h, ms, j - 1, opts);
      HandleSteps(StateAt(h, ms, j - 1, opts), ms[j - 1], opts);
    }
  }

  lemma {:induction false} StepAt(h: Host, ms: seq<Moment>, j: nat, opts: Options)
    requires Settled(h) && Feasible(h, ms, opts) && j < |ms|
    ensures var s := StateAt(h, ms, j, opts);
      && Settled(s) && Settled(StateAt(h, ms, j + 1, opts))
      && ControlAfter(s, ms[j], StateAt(h, ms, j + 1, opts)) && OutAfter(s, ms[j], OutAt(h, ms, j, opts))
  {
    hide Settled, Handle, ControlAfter, OutAfter;
    AlwaysSettled(h, ms, j, opts);
    HandleSteps(StateAt(h, ms, j, opts), ms[j], opts);
  }

  // ---------------------------------------------------------------- velocity frames

  function FrameOf(d: Drive): Out
    requires d != Rest
  {
    if d.Twist? then CmdTwist(d.v) else CmdVel(d.v)
  }

  /** Event i accepted d from connection c, and nothing since has revoked it. */
  ghost predicate Stands(h: Host, ms: seq<Moment>, i: nat, j: nat, c: Conn, d: Drive, opts: Options)
    requires j <= |ms|
  {
    && i < j && Setting(StateAt(h, ms, i, opts), ms[i].event) == Some((c, d))
    && forall k :: i < k < j ==> !Revokes(StateAt(h, ms, k, opts), ms[k].event, c)
  }

  /** A command that is repeated after an event that set none was repeated before it, and the
      event did not revoke it. */
  lemma DriveKept(h: Host, m: Moment, g: Host)
    requires Settled(h) && ControlAfter(h, m, g) && g.drive != Rest && Setting(h, m.event).None?
    ensures g.drive == h.drive && g.source == h.source
    ensures h.source.Some? && !Revokes(h, m.event, h.source.value)
  {}

  lemma {:induction false} StandsOn(h: Host, ms: seq<Moment>, i: nat, j: nat, c: Conn, d: Drive, opts: Options)
    requires j < |ms| && Stands(h, ms, i, j, c, d, opts)
    requires !Revokes(StateAt(h, ms, j, opts), ms[j].event, c)
    ensures Stands(h, ms, i, j + 1, c, d, opts)
  {
    hide StateAt, Revokes, Setting;
  }

  lemma {:induction false} CommandStands(h: Host, ms: seq<Moment>, j: nat, opts: Options)
    requires Settled(h) && h.drive == Rest && Feasible(h, ms, opts) && j <= |ms|
    requires StateAt(h, ms, j, opts).drive != Rest
    ensures var s := StateAt(h, ms, j, opts);
      s.source.Some? && exists i: nat :: Stands(h, ms, i, j, s.source.value, s.drive, opts)
    decreases j
  {
    hide Handle, Settled, Setting, Revokes, Feasible, OutAfter, OutAt;
    var s := StateAt(h, ms, j - 1, opts);
    var g := StateAt(h, ms, j, opts);
    StepAt(h, ms, j - 1, opts);
    if Setting(s, ms[j - 1].event).Some? {
      assert Stands(h, ms, j - 1, j, g.source.value, g.drive, opts);
    } else {
      DriveKept(s, ms[j - 1], g);
      CommandStands(h, ms, j - 1, opts);
      var i: nat :| Stands(h, ms, i, j - 1, s.source.value, s.drive, opts);
      StandsOn(h, ms, i, j - 1, s.source.value, s.drive, opts);
    }
  }

  /** Every velocity frame repeats the latest accepted v or rpm: its source is still connected,
      and since then there has been no stop, en 0, accepted flash, or loss of that source; and
      the link is ready and the motors not disabled. */
  lemma {:induction false} VelocityJustified(ms: seq<Moment>, j: nat, f: Out, opts: Options)
    requires Feasible(START, ms, opts) && j < |ms|
    requires f in OutAt(START, ms, j, opts) && Moves(f)
    ensures var s := StateAt(START, ms, j, opts);
      && s.link.IsReady() && !s.disabled
      && exists i: nat, c: Conn, d: Drive ::
           Stands(START, ms, i, j, c, d, opts) && d != Rest && f == FrameOf(d) && c in s.conns
  {
    hide Handle, ControlAfter;
    StepAt(START, ms, j, opts);
    var s := StateAt(START, ms, j, opts);
    assert s.drive != Rest && f == FrameOf(s.drive);
    CommandStands(START, ms, j, opts);
    var i: nat :| Stands(START, ms, i, j, s.source.value, s.drive, opts);
  }

  lemma {:induction false} StandingIsCurrent(h: Host, ms: seq<Moment>, i: nat, j: nat, c: Conn, d: Drive, opts: Options)
    requires Settled(h) && Feasible(h, ms, opts) && j <= |ms| && Stands(h, ms, i, j, c, d, opts)
    ensures StateAt(h, ms, j, opts).drive == d && StateAt(h, ms, j, opts).source == Some(c)
    decreases j
  {
    hide Handle, Settled;
    StepAt(h, ms, j - 1, opts);
    if i < j - 1 {
      assert Stands(h, ms, i, j - 1, c, d, opts);
      StandingIsCurrent(h, ms, i, j - 1, c, d, opts);
    }
  }

  /** Conversely, each beat of the repeat timer sends a command that stands, and just that,
      exactly while the link is ready and the motors are not disabled. */
  lemma {:induction false} StandingIsRepeated(ms: seq<Moment>, i: nat, j: nat, c: Conn, d: Drive, opts: Options)
    requires Feasible(START, ms, opts) && j < |ms| && Stands(START, ms, i, j, c, d, opts)
    requires ms[j].event == RepeatTimer
    ensures var s := StateAt(START, ms, j, opts);
      && d != Rest
      && OutAt(START, ms, j, opts) == if s.link.IsReady() && !s.disabled then [FrameOf(d)] else []
  {
    StandingIsCurrent(START, ms, i, j, c, d, opts);
  }

  /** Whenever the link comes up, the board is told at once whether it may drive. */
  lemma {:induction false} ReadyIsAnswered(h: Host, m: Moment, opts: Options)
    requires Settled(h) && Possible(h, m.event)
    requires !h.link.IsReady() && Handle(h, m, opts).host.link.IsReady()
    ensures CmdEn(!h.disabled) in Handle(h, m, opts).out
    ensures Handle(h, m, opts).host.ota != Recovering
  {
    hide Effects, BeginFlasher;
    if m.event.Con? {
      var o := OnReceive(h.link, m.event.msg, m.now, m.io.ok);
      LinkedFrame(h, m.now, o);
      UpEffects(h.(link := o.link), m.now, o.fx);
    } else {
      NoWayUp(h, m, opts);
    }
  }

  lemma {:induction false} UpEffects(h: Host, now: nat, fx: seq<Effect>)
    requires fx == [Notify(Ready)] || fx == [Send(EnableResponse, true), Notify(Ready)]
    ensures CmdEn(!h.disabled) in Effects(h, now, fx).out && Effects(h, now, fx).host.ota != Recovering
  {
    var n := Notify(Ready);
    assert [n][1..] == [] && [Send(EnableResponse, true), n][1..] == [n];
    assert Effects(h, now, [n]) == Then(OnComm(h, now, Ready), Effects(OnComm(h, now, Ready).host, now, []));
  }

  /** Only a CON frame can bring the link up. */
  lemma {:induction false} NoWayUp(h: Host, m: Moment, opts: Options)
    requires Settled(h) && Possible(h, m.event) && !h.link.IsReady() && !m.event.Con?
    ensures !Handle(h, m, opts).host.link.IsReady()
  {
    hide Linked, BeginFlasher, OnTick, ParseSpeeds, Admissible;
    match m.event
    case Line(_, cmd) =>
      if cmd.CEn? && cmd.arg.Some? {
        var on := cmd.arg.value;
        var g := if on then h.(disabled := false, lastEn := m.now) else h.(disabled := true, drive := Rest);
        LinkedFrame(g, m.now, if on then OnConnect(g.link, m.now, m.io.ok) else OnDisconnect(g.link, m.now, m.io.ok));
      }
    case WatchdogTimer =>
      var g := if m.io.portOpen && m.io.reopened then h.(lastRetry := 0) else h;
      if g.ota == Quiescing {
        BeginFrame(g, m.now, m.io.spawned);
      }
      var r := OnOtaTimeout(g, m.now, m.io, opts).host;
      LinkedFrame(r.(lastRetry := m.now), m.now, OnConnect(r.link, m.now, m.io.ok));
    case ConTick =>
      LinkedFrame(h, m.now, OnTick(h.link, m.now, m.io.ok, m.io.pingOk));
      TickCannotConnect(h.link, m.now, m.io.ok, m.io.pingOk);
    case Status(en) =>
      if h.ota == Quiescing {
        BeginFrame(h, m.now, m.io.spawned);
      }
    case _ =>
  }

  lemma TickCannotConnect(l: Link, now: nat, ok: bool, pingOk: bool)
    requires !l.IsReady()
    ensures !OnTick(l, now, ok, pingOk).link.IsReady()
  {}

  /** The connection whose command was last accepted, unless it was released by a stop, a flash
      or its own loss. Unlike the command itself it outlives an en 0. */
  ghost predicate Owns(h: Host, ms: seq<Moment>, i: nat, j: nat, c: Conn, opts: Options)
    requires j <= |ms|
  {
    && i < j && Setting(StateAt(h, ms, i, opts), ms[i].event).Some?
    && Setting(StateAt(h, ms, i, opts), ms[i].event).value.0 == c
    && forall k :: i < k < j ==>
         var s, e := StateAt(h, ms, k, opts), ms[k].event;
         Setting(s, e).None? && !(e.Line? && e.cmd == CStop) && !AcceptedFlash(s, e) && e != Closed(c)
  }

  lemma {:induction false} OwnerIsSource(h: Host, ms: seq<Moment>, i: nat, j: nat, c: Conn, opts: Options)
    requires Settled(h) && Feasible(h, ms, opts) && j <= |ms| && Owns(h, ms, i, j, c, opts)
    ensures StateAt(h, ms, j, opts).source == Some(c)
    decreases j
  {
    hide Handle, Settled;
    StepAt(h, ms, j - 1, opts);
    if i < j - 1 {
      assert Owns(h, ms, i, j - 1, c, opts);
      OwnerIsSource(h, ms, i, j - 1, c, opts);
    }
  }

  /** Dead man: when the connection that gave the last accepted speed command is lost, the
      brake goes out at once and nothing is repeated any more, even if en 0 came between. */
  lemma {:induction false} DeadManStops(ms: seq<Moment>, i: nat, j: nat, c: Conn, opts: Options)
    requires Feasible(START, ms, opts) && j < |ms| && Owns(START, ms, i, j, c, opts)
    requires ms[j].event == Closed(c)
    ensures OutAt(START, ms, j, opts) == [CmdStop] && StateAt(START, ms, j + 1, opts).drive == Rest
  {
    OwnerIsSource(START, ms, i, j, c, opts);
  }

  // ---------------------------------------------------------------- sticky disable

  ghost predicate Off(h: Host, ms: seq<Moment>, i: nat, opts: Options)
    requires i < |ms|
  {
    AcceptedEn(StateAt(h, ms, i, opts), ms[i].event, false) || AcceptedFlash(StateAt(h, ms, i, opts), ms[i].event)
  }

  ghost predicate On(h: Host, ms: seq<Moment>, i: nat, opts: Options)
    requires i < |ms|
  {
    AcceptedEn(StateAt(h, ms, i, opts), ms[i].event, true)
  }

  /** The last word on enabling before event j was an en 0 or an accepted flash. */
  ghost predicate LastOff(h: Host, ms: seq<Moment>, i: nat, j: nat, opts: Options)
    requires j <= |ms|
  {
    i < j && Off(h, ms, i, opts) && forall k :: i < k < j ==> !On(h, ms, k, opts)
  }

  lemma {:induction false} DisabledStep(h: Host, ms: seq<Moment>, j: nat, opts: Options)
    requires Settled(h) && Feasible(h, ms, opts) && j <= |ms|
    ensures j == 0 ==> StateAt(h, ms, j, opts) == h
    ensures j > 0 && On(h, ms, j - 1, opts) ==> !StateAt(h, ms, j, opts).disabled
    ensures j > 0 && Off(h, ms, j - 1, opts) ==> StateAt(h, ms, j, opts).disabled
    ensures j > 0 && !On(h, ms, j - 1, opts) && !Off(h, ms, j - 1, opts)
            ==> StateAt(h, ms, j, opts).disabled == StateAt(h, ms, j - 1, opts).disabled
    ensures j > 0 ==> !(On(h, ms, j - 1, opts) && Off(h, ms, j - 1, opts))
  {
    hide Handle, Settled;
    if j > 0 {
      StepAt(h, ms, j - 1, opts);
    }
  }

  /** The disable flag is exactly that, over every run. */
  lemma {:induction false} DisabledMeansLastOff(h: Host, ms: seq<Moment>, j: nat, opts: Options)
    requires Settled(h) && !h.disabled && Feasible(h, ms, opts) && j <= |ms|
    ensures StateAt(h, ms, j, opts).disabled <==> exists i: nat :: LastOff(h, ms, i, j, opts)
    decreases j
  {
    hide StateAt, On, Off, Settled, Feasible;
    DisabledStep(h, ms, j, opts);
    if j > 0 {
      DisabledMeansLastOff(h, ms, j - 1, opts);
      if Off(h, ms, j - 1, opts) {
        assert LastOff(h, ms, j - 1, j, opts);
      } else if StateAt(h, ms, j, opts).disabled {
        var i: nat :| LastOff(h, ms, i, j - 1, opts);
        assert LastOff(h, ms, i, j, opts);
      }
      forall i: nat | LastOff(h, ms, i, j, opts)
        ensures if i == j - 1 then Off(h, ms, i, opts) else LastOff(h, ms, i, j - 1, opts) && !On(h, ms, j - 1, opts)
      {}
    }
  }

  /** After an en 0 or an accepted flash nothing that sets the motors going is sent until an
      en 1 is accepted: not on reconnection, not by self-healing, not when the job ends. */
  lemma {:induction false} StickyDisable(ms: seq<Moment>, i: nat, j: nat, f: Out, opts: Options)
    requires Feasible(START, ms, opts) && i < j < |ms| && Off(START, ms, i, opts)
    requires forall k :: i < k <= j ==> !On(START, ms, k, opts)
    requires f in OutAt(START, ms, j, opts)
    ensures !Energises(f)
  {
    hide Handle, ControlAfter;
    assert LastOff(START, ms, i, j, opts);
    DisabledMeansLastOff(START, ms, j, opts);
    StepAt(START, ms, j, opts);
    var s := StateAt(START, ms, j, opts);
    assert s.disabled && !On(START, ms, j, opts);
    assert OnRepeat(s) == [];
  }

  /** After an accepted flash, motion needs both a later en 1 and a later v or rpm. */
  lemma {:induction false} MotionAfterFlash(ms: seq<Moment>, i: nat, j: nat, f: Out, opts: Options)
    requires Feasible(START, ms, opts) && i < j < |ms|
    requires AcceptedFlash(StateAt(START, ms, i, opts), ms[i].event)
    requires f in OutAt(START, ms, j, opts) && Moves(f)
    ensures exists k :: i < k < j && On(START, ms, k, opts)
    ensures exists k: nat :: i < k < j && Setting(StateAt(START, ms, k, opts), ms[k].event).Some?
  {
    hide Handle, ControlAfter, StateAt, Feasible, FrameOf, Admissible, OutAt;
    VelocityJustified(ms, j, f, opts);
    var k: nat, c: Conn, d: Drive :| Stands(START, ms, k, j, c, d, opts) && d != Rest && f == FrameOf(d);
    if k <= i {
      assert false;
    }
    if forall n :: i < n < j ==> !On(START, ms, n, opts) {
      assert LastOff(START, ms, i, j, opts);
      DisabledMeansLastOff(START, ms, j, opts);
      assert false;
    }
  }

  // ---------------------------------------------------------------- the OTA job

  function Rank(o: Ota): nat {
    match o
    case Idle => 0
    case Quiescing => 1
    case Flashing => 2
    case Recovering => 3
  }

  /** When the watchdog ends the phase; flashing has no deadline of its own. */
  function PhaseDeadline(h: Host, now: nat, opts: Options): nat {
    if h.ota == Quiescing then h.phaseStart + opts.quiesceTimeout
    else if h.ota == Recovering then h.phaseStart + opts.recoverTimeout
    else now
  }

  /** How the phase may change in one event, and what a new phase is entered by. */
  ghost predicate PhaseAfter(h: Host, m: Moment, g: Host, opts: Options) {
    && (g.ota == h.ota || g.ota == Idle || Rank(g.ota) == Rank(h.ota) + 1)
    && (g.ota == h.ota && Busy(h) ==> g.phaseStart == h.phaseStart)
    && (g.ota != h.ota && Busy(g) ==> g.phaseStart == m.now)
    && (g.ota == Quiescing && h.ota != Quiescing ==> AcceptedFlash(h, m.event))
    && (g.ota == Flashing && h.ota != Flashing ==>
          g.link == Down &&
          (m.event == Status(false)
           || (m.event == WatchdogTimer && m.now - h.phaseStart > opts.quiesceTimeout)))
    && (g.ota == Recovering && h.ota != Recovering ==> m.event == ChildExit(true))
    && (m.event == WatchdogTimer && g.ota == h.ota ==> m.now <= PhaseDeadline(h, m.now, opts))
  }

  lemma {:induction false} OtaTimeoutPhases(h: Host, now: nat, io: Io, opts: Options)
    requires Settled(h)
    ensures var g := OnOtaTimeout(h, now, io, opts).host;
      && (g.ota == h.ota || g.ota == Idle || (h.ota == Quiescing && g.ota == Flashing && g.link == Down))
      && (g.ota == h.ota ==> g.phaseStart == h.phaseStart)
      && (g.ota != h.ota && Busy(g) ==> g.phaseStart == now && now - h.phaseStart > opts.quiesceTimeout)
      && (g.ota == Quiescing ==> now <= h.phaseStart + opts.quiesceTimeout)
      && (g.ota == Recovering ==> now <= h.phaseStart + opts.recoverTimeout)
  {
    hide BeginFlasher;
    if h.ota == Quiescing {
      BeginFrame(h, now, io.spawned);
    }
  }

  lemma {:induction false} ReconnectPhases(h: Host, now: nat, io: Io, opts: Options)
    ensures var g := OnReconnect(h, now, io, opts).host;
      && (g.ota == h.ota || (h.ota == Recovering && g.ota == Idle))
      && g.phaseStart == h.phaseStart && (h.ota == Flashing ==> g == h)
  {
    hide Linked, OnConnect;
    LinkedFrame(h.(lastRetry := now), now, OnConnect(h.link, now, io.ok));
  }

  lemma {:induction false} CommandPhases(h: Host, m: Moment, opts: Options)
    requires Settled(h) && m.event.Line?
    ensures PhaseAfter(h, m, Handle(h, m, opts).host, opts)
  {
    hide Linked, ParseSpeeds, Admissible, OnConnect, OnDisconnect;
    var c := m.event.cmd;
    if c.CEn? && c.arg.Some? {
      var on := c.arg.value;
      var g := if on then h.(disabled := false, lastEn := m.now) else h.(disabled := true, drive := Rest);
      LinkedFrame(g, m.now, if on then OnConnect(g.link, m.now, m.io.ok) else OnDisconnect(g.link, m.now, m.io.ok));
    }
  }

  lemma {:induction false} PhaseSteps(h: Host, m: Moment, opts: Options)
    requires Settled(h) && Possible(h, m.event)
    ensures PhaseAfter(h, m, Handle(h, m, opts).host, opts)
  {
    hide Linked, OnCommand, BeginFlasher, OnTick, OnReceive, OnOtaTimeout, OnReconnect;
    match m.event
    case Line(_, _) => CommandPhases(h, m, opts);
    case WatchdogTimer =>
      var g := if m.io.portOpen && m.io.reopened then h.(lastRetry := 0) else h;
      OtaTimeoutPhases(g, m.now, m.io, opts);
      ReconnectPhases(OnOtaTimeout(g, m.now, m.io, opts).host, m.now, m.io, opts);
    case ConTick => LinkedFrame(h, m.now, OnTick(h.link, m.now, m.io.ok, m.io.pingOk));
    case Con(msg) => LinkedFrame(h, m.now, OnReceive(h.link, msg, m.now, m.io.ok));
    case Status(en) =>
      if h.ota == Quiescing {
        BeginFrame(h, m.now, m.io.spawned);
      }
    case _ =>
  }

  lemma {:induction false} PhaseAt(h: Host, ms: seq<Moment>, j: nat, opts: Options)
    requires Settled(h) && Feasible(h, ms, opts) && j < |ms|
    ensures PhaseAfter(StateAt(h, ms, j, opts), ms[j], StateAt(h, ms, j + 1, opts), opts)
  {
    hide Settled, Handle, PhaseAfter;
    AlwaysSettled(h, ms, j, opts);
    PhaseSteps(StateAt(h, ms, j, opts), ms[j], opts);
  }

  function RankAt(h: Host, ms: seq<Moment>, k: nat, opts: Options): nat
    requires k <= |ms|
  {
    Rank(StateAt(h, ms, k, opts).ota)
  }

  /** Event i accepted a flash, and the job it began is still on before event j, having gone
      through its phases in order, without skipping or revisiting any. */
  ghost predicate Job(h: Host, ms: seq<Moment>, i: nat, j: nat, opts: Options)
    requires j <= |ms|
  {
    && i < j && AcceptedFlash(StateAt(h, ms, i, opts), ms[i].event) && RankAt(h, ms, i + 1, opts) == 1
    && (forall k :: i < k <= j ==> RankAt(h, ms, k, opts) != 0)
    && (forall k, l :: i < k <= l <= j ==> RankAt(h, ms, k, opts) <= RankAt(h, ms, l, opts))
    && (forall k, l :: i < k && l == k + 1 <= j ==> RankAt(h, ms, l, opts) <= RankAt(h, ms, k, opts) + 1)
  }

  lemma {:induction false} JobGoesOn(ms: seq<Moment>, i: nat, j: nat, opts: Options)
    requires j < |ms| && Job(START, ms, i, j, opts)
    requires RankAt(START, ms, j + 1, opts) == RankAt(START, ms, j, opts)
          || RankAt(START, ms, j + 1, opts) == RankAt(START, ms, j, opts) + 1
    ensures Job(START, ms, i, j + 1, opts)
  {
    hide StateAt, RankAt, AcceptedFlash;
    forall k, l | i < k <= l <= j + 1
      ensures RankAt(START, ms, k, opts) <= RankAt(START, ms, l, opts)
    {
      assert k <= j ==> RankAt(START, ms, k, opts) <= RankAt(START, ms, j, opts);
    }
  }

  lemma {:induction false} RankStep(ms: seq<Moment>, j: nat, opts: Options)
    requires Feasible(START, ms, opts) && j < |ms|
    ensures var a, b := RankAt(START, ms, j, opts), RankAt(START, ms, j + 1, opts);
      && (b == a || b == 0 || b == a + 1)
      && (a == 0 && b != 0 ==> AcceptedFlash(StateAt(START, ms, j, opts), ms[j].event))
  {
    hide Handle;
    PhaseAt(START, ms, j, opts);
  }

  lemma NoJobAtStart(ms: seq<Moment>, opts: Options)
    ensures RankAt(START, ms, 0, opts) == 0
  {}

  lemma {:induction false} JobBegins(ms: seq<Moment>, j: nat, opts: Options)
    requires j < |ms| && AcceptedFlash(StateAt(START, ms, j, opts), ms[j].event)
    requires RankAt(START, ms, j + 1, opts) == 1
    ensures Job(START, ms, j, j + 1, opts)
  {
    hide StateAt, RankAt, AcceptedFlash;
  }

  /** Whenever an OTA job is on, it was begun by an accepted flash and has gone through
      quiescing, flashing, recovering in that order, each at most once. */
  lemma {:induction false} JobOrder(ms: seq<Moment>, j: nat, opts: Options)
    requires Feasible(START, ms, opts) && j <= |ms| && RankAt(START, ms, j, opts) != 0
    ensures exists i: nat :: Job(START, ms, i, j, opts)
    decreases j
  {
    hide StateAt, RankAt, Job, AcceptedFlash, Feasible;
    NoJobAtStart(ms, opts);
    RankStep(ms, j - 1, opts);
    if RankAt(START, ms, j - 1, opts) != 0 {
      JobOrder(ms, j - 1, opts);
      var i: nat :| Job(START, ms, i, j - 1, opts);
      JobGoesOn(ms, i, j - 1, opts);
    } else {
      JobBegins(ms, j - 1, opts);
    }
  }

  /** Event i enters phase p, and it lasts until before event j at least. */
  ghost predicate Visit(ms: seq<Moment>, i: nat, j: nat, p: Ota, opts: Options)
    requires j < |ms|
  {
    && i < j && StateAt(START, ms, i, opts).ota != p
    && forall k :: i < k <= j ==> StateAt(START, ms, k, opts).ota == p
  }

  /** The time of the last watchdog event before event k, or t0. */
  function LastWatchdog(ms: seq<Moment>, k: nat, t0: nat): nat
    requires k <= |ms|
  {
    if k == 0 then t0
    else if ms[k - 1].event.WatchdogTimer? then ms[k - 1].now else LastWatchdog(ms, k - 1, t0)
  }

  /** Time does not run backwards, and the watchdog timer fires at least every w. */
  ghost predicate Watched(ms: seq<Moment>, t0: nat, w: nat) {
    && (forall k, l :: 0 <= k <= l < |ms| ==> ms[k].now <= ms[l].now)
    && (forall k :: 0 <= k < |ms| ==> t0 <= ms[k].now <= LastWatchdog(ms, k, t0) + w)
  }

  lemma {:induction false} WatchdogIsPast(ms: seq<Moment>, t0: nat, w: nat, k: nat)
    requires Watched(ms, t0, w) && k < |ms|
    ensures LastWatchdog(ms, k + 1, t0) <= ms[k].now
    decreases k
  {
    if ms[k].event.WatchdogTimer? {
      assert LastWatchdog(ms, k + 1, t0) == ms[k].now;
    } else {
      assert LastWatchdog(ms, k + 1, t0) == LastWatchdog(ms, k, t0);
      if k > 0 {
        WatchdogIsPast(ms, t0, w, k - 1);
        assert ms[k - 1].now <= ms[k].now;
      }
    }
  }

  function Timeout(p: Ota, opts: Options): nat {
    if p == Quiescing then opts.quiesceTimeout else opts.recoverTimeout
  }

  lemma {:induction false} PhaseStay(ms: seq<Moment>, j: nat, p: Ota, opts: Options)
    requires Feasible(START, ms, opts) && j < |ms| && (p == Quiescing || p == Recovering)
    requires StateAt(START, ms, j + 1, opts).ota == p
    ensures var s, g := StateAt(START, ms, j, opts), StateAt(START, ms, j + 1, opts);
      && (s.ota != p ==> g.phaseStart == ms[j].now)
      && (s.ota == p ==> g.phaseStart == s.phaseStart)
      && (s.ota == p && ms[j].event.WatchdogTimer? ==> ms[j].now <= s.phaseStart + Timeout(p, opts))
  {
    hide Handle;
    PhaseAt(START, ms, j, opts);
  }

  lemma {:induction false} WatchdogInPhase(ms: seq<Moment>, i: nat, j: nat, p: Ota, t0: nat, w: nat, opts: Options)
    requires Feasible(START, ms, opts) && j < |ms| && Visit(ms, i, j, p, opts) && Watched(ms, t0, w)
    requires p == Quiescing || p == Recovering
    ensures StateAt(START, ms, j, opts).phaseStart == ms[i].now
    ensures LastWatchdog(ms, j, t0) <= ms[i].now + Timeout(p, opts)
    decreases j
  {
    hide StateAt, Feasible, Watched;
    PhaseStay(ms, j - 1, p, opts);
    if i == j - 1 {
      WatchdogIsPast(ms, t0, w, i);
    } else {
      assert Visit(ms, i, j - 1, p, opts);
      WatchdogInPhase(ms, i, j - 1, p, t0, w, opts);
    }
  }

  /** Quiescing and recovering each end at most one watchdog period after their timeout. */
  lemma {:induction false} PhaseBound(ms: seq<Moment>, i: nat, j: nat, p: Ota, t0: nat, w: nat, opts: Options)
    requires Feasible(START, ms, opts) && j < |ms| && Visit(ms, i, j, p, opts) && Watched(ms, t0, w)
    requires p == Quiescing || p == Recovering
    ensures ms[j].now <= ms[i].now + Timeout(p, opts) + w
  {
    WatchdogInPhase(ms, i, j, p, t0, w, opts);
  }

  lemma {:induction false} QuietFlashStep(h: Host, m: Moment, opts: Options)
    requires Settled(h) && h.ota == Flashing && h.link == Down && m.event != Con(EnableRequest)
    ensures var r := Handle(h, m, opts);
      && (forall f :: f in r.out ==> f == CmdStop)
      && (r.host.ota == Flashing ==> r.host.link == Down)
  {
    if m.event.ConTick? {
      assert OnTick(Down, m.now, m.io.ok, m.io.pingOk) == Outcome(Down, []);
    }
  }

  /** While the board is being flashed, and unless it asks for the link itself, the link stays
      down and nothing but a stop can be sent. */
  lemma {:induction false} QuietWhileFlashing(ms: seq<Moment>, i: nat, j: nat, opts: Options)
    requires Feasible(START, ms, opts) && j < |ms| && Visit(ms, i, j, Flashing, opts)
    requires forall k :: i < k <= j ==> ms[k].event != Con(EnableRequest)
    ensures StateAt(START, ms, j, opts).link == Down
    ensures forall f :: f in OutAt(START, ms, j, opts) ==> f == CmdStop
    decreases j
  {
    hide Handle;
    AlwaysSettled(START, ms, j, opts);
    AlwaysSettled(START, ms, j - 1, opts);
    PhaseAt(START, ms, j - 1, opts);
    if i < j - 1 {
      hide PhaseAfter;
      assert Visit(ms, i, j - 1, Flashing, opts);
      QuietWhileFlashing(ms, i, j - 1, opts);
      QuietFlashStep(StateAt(START, ms, j - 1, opts), ms[j - 1], opts);
    }
    QuietFlashStep(StateAt(START, ms, j, opts), ms[j], opts);
  }

  /** Between events the flashing child runs exactly during the flashing phase, and flashing is
      entered only on the board's word that it is disabled, or after the timeout. */
  lemma {:induction false} FlashingIsJustified(ms: seq<Moment>, j: nat, opts: Options)
    requires Feasible(START, ms, opts) && j < |ms|
    ensures var s, g := StateAt(START, ms, j, opts), StateAt(START, ms, j + 1, opts);
      && (g.child <==> g.ota == Flashing)
      && (g.ota == Flashing && s.ota != Flashing ==>
            s.ota == Quiescing && g.link == Down &&
            (ms[j].event == Status(false)
             || (ms[j].event == WatchdogTimer && ms[j].now - s.phaseStart > opts.quiesceTimeout)))
  {
    hide Handle;
    PhaseAt(START, ms, j, opts);
    AlwaysSettled(START, ms, j + 1, opts);
  }
}
