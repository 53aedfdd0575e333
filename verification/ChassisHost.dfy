/** The host controller: command gating, repeat timer, dead-man stop, sticky disable, OTA job. */
module ChassisHost {
  import opened ConSm
  import opened Optional

  type Conn = nat
  type Float = bv32   // an IEEE-754 bit pattern, never interpreted here

  const ZERO: Float := 0

  datatype Speeds = Speeds(a: Float, b: Float, c: Float)

  /** The direction of each wheel; true is forward. */
  datatype Signs = Signs(a: bool, b: bool, c: bool)

  /** A frame handed to the serial port. */
  datatype Out =
    | CmdTwist(v: Speeds)
    | CmdVel(v: Speeds)
    | CmdStop
    | CmdEn(on: bool)
    | CmdPid(gains: Speeds)
    | CmdSign(signs: Signs)
    | CmdPing(id: nat)
    | ConFrame(msg: Msg)

  /** The speed command being repeated. */
  datatype Drive = Rest | Twist(v: Speeds) | Rpm(v: Speeds)

  datatype Ota = Idle | Quiescing | Flashing | Recovering

  datatype Options = Options(conRetry: nat, enResend: nat, quiesceTimeout: nat, recoverTimeout: nat)

  datatype FlashRequest = FlashRequest(
    usageOk: bool, loopback: bool, configured: bool, safeName: bool, readable: bool)

  /** A command line after splitting; numbers are the outcome of parsing each word. */
  datatype Command =
    | CV(args: seq<Option<Float>>)
    | CRpm(args: seq<Option<Float>>)
    | CStop
    | CEn(arg: Option<bool>)           // None: not exactly one word 0 or 1
    | CPid(gains: Option<Speeds>)
    | CSign(signs: Option<Signs>)
    | CPing
    | CFlash(req: FlashRequest)
    | CFlashAbort(usageOk: bool, loopback: bool, force: bool)
    | CQuery                           // flash_status, stat, con, help, quit, exit, watch
    | CUnknown

  datatype Input =
    | Opened(conn: Conn)
    | Closed(conn: Conn)
    | Line(conn: Conn, cmd: Command)
    | ConTick
    | RepeatTimer
    | WatchdogTimer
    | Status(en: bool)                 // a well-formed STATUS frame
    | Con(msg: Msg)                    // a well-formed CON frame not sent by a host
    | ChildExit(ok: bool)

  /** What the outside world answers during one event. */
  datatype Io = Io(ok: bool, pingOk: bool, portOpen: bool, reopened: bool, spawned: bool)

  datatype Moment = At(now: nat, io: Io, event: Input)

  datatype Host = Host(
    conns: set<Conn>, drive: Drive, source: Option<Conn>, disabled: bool, link: Link,
    ota: Ota, phaseStart: nat, child: bool, lastEn: nat, lastRetry: nat)

  datatype Result = Result(host: Host, out: seq<Out>)

  const START := Host({}, Rest, None, false, Down, Idle, 0, false, 0, 0)

  // ---------------------------------------------------------------- what each event does

  function Then(r: Result, s: Result): Result { Result(s.host, r.out + s.out) }

  predicate Busy(h: Host) { h.ota != Idle }

  predicate AllowedWhileBusy(c: Command) { c.CQuery? || c.CFlashAbort? || c.CStop? }

  function ParseSpeeds(args: seq<Option<Float>>): Option<Speeds> {
    if !(1 <= |args| <= 3) || None in args then None
    else Some(Speeds(args[0].value,
                     if |args| > 1 then args[1].value else ZERO,
                     if |args| > 2 then args[2].value else ZERO))
  }

  predicate Admissible(r: FlashRequest) {
    r.usageOk && r.loopback && r.configured && r.safeName && r.readable
  }

  /** The low 32 bits of the clock. */
  function PingId(now: nat): nat { now % 0x1_0000_0000 }

  function OtaFinish(h: Host): Host { h.(ota := Idle) }

  /** The board is enabled when the link comes up, unless the user has disabled it. */
  function OnComm(h: Host, now: nat, c: Comm): Result {
    if c == NotReady then Result(h, [])
    else
      var g := h.(lastEn := now);
      Result(if g.ota == Recovering then OtaFinish(g) else g, [CmdEn(!h.disabled)])
  }

  function Effects(h: Host, now: nat, fx: seq<Effect>): Result
    decreases fx
  {
    if fx == [] then Result(h, [])
    else
      var r := match fx[0]
               case Send(m, _) => Result(h, [ConFrame(m)])
               case Notify(c) => OnComm(h, now, c);
      Then(r, Effects(r.host, now, fx[1..]))
  }

  /** The link takes a step, and its effects are carried out. */
  function Linked(h: Host, now: nat, o: Outcome): Result {
    Effects(h.(link := o.link), now, o.fx)
  }

  function OnEnable(h: Host, now: nat, io: Io, on: bool): Result {
    if on then
      var g := h.(disabled := false, lastEn := now);
      Then(Result(g, [CmdEn(true)]),
           if g.link.Down? then Linked(g, now, OnConnect(g.link, now, io.ok)) else Result(g, []))
    else
      var g := h.(disabled := true, drive := Rest);
      Then(Result(g, [CmdEn(false)]), Linked(g, now, OnDisconnect(g.link, now, io.ok)))
  }

  function OnFlash(h: Host, now: nat): Result {
    Result(h.(ota := Quiescing, phaseStart := now, drive := Rest, source := None, disabled := true),
           [CmdStop, CmdEn(false)])
  }

  function OnAbort(h: Host, c: Command): Host
    requires c.CFlashAbort?
  {
    if c.usageOk && c.loopback && (h.ota == Quiescing || h.ota == Recovering) then OtaFinish(h) else h
  }

  function OnCommand(h: Host, conn: Conn, c: Command, now: nat, io: Io): Result {
    if Busy(h) && !AllowedWhileBusy(c) then Result(h, [])
    else match c
      case CV(args) =>
        Result(if ParseSpeeds(args).Some?
               then h.(drive := Twist(ParseSpeeds(args).value), source := Some(conn)) else h, [])
      case CRpm(args) =>
        Result(if ParseSpeeds(args).Some?
               then h.(drive := Rpm(ParseSpeeds(args).value), source := Some(conn)) else h, [])
      case CStop => Result(h.(drive := Rest, source := None), [CmdStop])
      case CEn(arg) => if arg.Some? then OnEnable(h, now, io, arg.value) else Result(h, [])
      case CPid(gains) => Result(h, if gains.Some? then [CmdPid(gains.value)] else [])
      case CSign(signs) => Result(h, if signs.Some? then [CmdSign(signs.value)] else [])
      case CPing => Result(h, if io.portOpen then [CmdPing(PingId(now))] else [])
      case CFlash(req) => if Admissible(req) then OnFlash(h, now) else Result(h, [])
      case CFlashAbort(_, _, _) => Result(OnAbort(h, c), [])
      case CQuery => Result(h, [])
      case CUnknown => Result(h, [])
  }

  /** The link is reset without a frame, and the child started; if that fails the job is over. */
  function BeginFlasher(h: Host, now: nat, spawned: bool): Result {
    var r := Linked(h.(ota := Flashing, phaseStart := now), now, Hangup(h.link));
    if spawned && !r.host.child then Result(r.host.(child := true), r.out)
    else Result(OtaFinish(r.host), r.out)
  }

  /** A board that has lost its enable, after a restart say, gets it again; not too often. */
  function Heal(h: Host, en: bool, now: nat, opts: Options): Result {
    if !h.disabled && h.link.IsReady() && !en && now - h.lastEn > opts.enResend
    then Result(h.(lastEn := now), [CmdEn(true)])
    else Result(h, [])
  }

  function OnStatus(h: Host, en: bool, now: nat, io: Io, opts: Options): Result {
    var r := Heal(h, en, now, opts);
    Then(r, if r.host.ota == Quiescing && !en then BeginFlasher(r.host, now, io.spawned) else Result(r.host, []))
  }

  /** An overdue OTA phase: flash anyway, or give up waiting for the link. */
  function OnOtaTimeout(h: Host, now: nat, io: Io, opts: Options): Result {
    if h.ota == Quiescing && now - h.phaseStart > opts.quiesceTimeout then BeginFlasher(h, now, io.spawned)
    else if h.ota == Recovering && now - h.phaseStart > opts.recoverTimeout then Result(OtaFinish(h), [])
    else Result(h, [])
  }

  /** Throttled reconnection, held back while the board is being flashed. */
  function OnReconnect(h: Host, now: nat, io: Io, opts: Options): Result {
    if h.ota != Flashing && io.portOpen && h.link.Down? && now - h.lastRetry >= opts.conRetry
    then Linked(h.(lastRetry := now), now, OnConnect(h.link, now, io.ok))
    else Result(h, [])
  }

  function OnWatchdog(h: Host, now: nat, io: Io, opts: Options): Result {
    var r := OnOtaTimeout(if io.portOpen && io.reopened then h.(lastRetry := 0) else h, now, io, opts);
    Then(r, OnReconnect(r.host, now, io, opts))
  }

  function OnChildExit(h: Host, ok: bool, now: nat): Host {
    var g := h.(child := false);
    if g.ota != Flashing then g
    else if ok then g.(ota := Recovering, phaseStart := now, lastRetry := 0)
    else OtaFinish(g)
  }

  function OnRepeat(h: Host): seq<Out> {
    if h.drive.Rest? || h.disabled || !h.link.IsReady() then []
    else if h.drive.Twist? then [CmdTwist(h.drive.v)] else [CmdVel(h.drive.v)]
  }

  function Handle(h: Host, m: Moment, opts: Options): Result {
    match m.event
    case Opened(c) => Result(h.(conns := h.conns + {c}), [])
    case Closed(c) =>
      var g := h.(conns := h.conns - {c});
      if h.source == Some(c) then Result(g.(drive := Rest, source := None), [CmdStop]) else Result(g, [])
    case Line(c, cmd) => OnCommand(h, c, cmd, m.now, m.io)
    case ConTick => Linked(h, m.now, OnTick(h.link, m.now, m.io.ok, m.io.pingOk))
    case RepeatTimer => Result(h, OnRepeat(h))
    case WatchdogTimer => OnWatchdog(h, m.now, m.io, opts)
    case Status(en) => OnStatus(h, en, m.now, m.io, opts)
    case Con(msg) => Linked(h, m.now, OnReceive(h.link, msg, m.now, m.io.ok))
    case ChildExit(ok) => Result(OnChildExit(h, ok, m.now), [])
  }

  /** What the event loop guarantees: lines come from open connections, a connection opens
      once, and an exit callback belongs to a running child. */
  predicate Possible(h: Host, e: Input) {
    match e
    case Line(c, _) => c in h.conns
    case ChildExit(_) => h.child
    case _ => true
  }

  // ---------------------------------------------------------------- the object

  datatype CmdMode = ModeNone | ModeTwist | ModeRpm

  class Controller {
    const opts: Options
    const conSm: Client
    var conns: set<Conn>
    var cmdMode: CmdMode
    var twist: Speeds
    var rpm: Speeds
    var speedConn: Option<Conn>
    var userDisabled: bool
    var otaState: Ota
    var otaPhaseStart: nat
    var childRunning: bool
    var lastEnSent: nat
    var lastRetry: nat
    ghost var sent: seq<Out>      // everything handed to the serial port

    ghost predicate Valid()
      reads this, conSm
    {
      conSm.Valid()
    }

    ghost function DriveOf(): Drive
      reads this
    {
      match cmdMode
      case ModeNone => Rest
      case ModeTwist => Twist(twist)
      case ModeRpm => Rpm(rpm)
    }

    ghost function View(): Host
      reads this, conSm
    {
      Host(conns, DriveOf(), speedConn, userDisabled, conSm.Abs(), otaState, otaPhaseStart,
           childRunning, lastEnSent, lastRetry)
    }

    /** The object stands where r says, having sent what r says after before. */
    ghost predicate Did(before: seq<Out>, r: Result)
      reads this, conSm
    {
      conSm.Valid() && View() == r.host && sent == before + r.out
    }

    constructor (o: Options)
      ensures Valid() && opts == o && View() == START && sent == [] && fresh(conSm)
    {
      opts := o;
      conSm := new Client();
      conns, cmdMode, twist, rpm := {}, ModeNone, Speeds(ZERO, ZERO, ZERO), Speeds(ZERO, ZERO, ZERO);
      speedConn, userDisabled, otaState, otaPhaseStart := None, false, Idle, 0;
      childRunning, lastEnSent, lastRetry, sent := false, 0, 0, [];
    }

    method SendFrameToBoard(f: Out)
      modifies this`sent
      ensures sent == old(sent) + [f]
    {
      sent := sent + [f];
    }

    method FinishOta()
      modifies this`otaState
      ensures otaState == Idle
    {
      otaState := Idle;
    }

    method OnCommState(comm: Comm, now: nat)
      requires Valid()
      modifies this
      ensures Did(old(sent), OnComm(old(View()), now, comm))
    {
      if comm == Ready {
        if userDisabled {
          lastEnSent := now;
          SendFrameToBoard(CmdEn(false));
        } else {
          lastEnSent := now;
          SendFrameToBoard(CmdEn(true));
        }
        if otaState == Recovering {
          FinishOta();
        }
      }
    }

    /** The link's send function and callback, called in the order of its effects. */
    method RunEffects(fx: seq<Effect>, now: nat)
      requires Valid()
      modifies this
      ensures Did(old(sent), Effects(old(View()), now, fx))
      decreases fx
    {
      if fx == [] { return; }
      match fx[0] {
        case Send(m, _) => SendFrameToBoard(ConFrame(m));
        case Notify(c) => OnCommState(c, now);
      }
      RunEffects(fx[1..], now);
    }

    method OnConnection(conn: Conn, up: bool, m: Moment)
      requires Valid() && m.event == if up then Opened(conn) else Closed(conn)
      modifies this
      ensures Did(old(sent), Handle(old(View()), m, opts))
    {
      if up {
        conns := conns + {conn};
      } else {
        conns := conns - {conn};
        if speedConn == Some(conn) {
          cmdMode := ModeNone;
          speedConn := None;
          SendFrameToBoard(CmdStop);
        }
      }
    }

    method CmdEnable(on: bool, now: nat, io: Io)
      requires Valid()
      modifies this, conSm
      ensures Did(old(sent), OnEnable(old(View()), now, io, on))
    {
      hide Effects, OnConnect, OnDisconnect;
      if on {
        userDisabled := false;
        lastEnSent := now;
        SendFrameToBoard(CmdEn(true));
        assert View() == old(View()).(disabled := false, lastEn := now);
        if conSm.state == ConSm.State.Disconnected {
          var _, fx := conSm.Connect(now, io.ok);
          RunEffects(fx, now);
        }
      } else {
        userDisabled := true;
        cmdMode := ModeNone;
        SendFrameToBoard(CmdEn(false));
        assert View() == old(View()).(disabled := true, drive := Rest);
        var _, fx := conSm.Disconnect(now, io.ok);
        RunEffects(fx, now);
      }
    }

    method CmdFlash(req: FlashRequest, now: nat)
      requires Valid()
      modifies this
      ensures Did(old(sent), if !Busy(old(View())) && Admissible(req) then OnFlash(old(View()), now)
                             else Result(old(View()), []))
    {
      if !req.usageOk || !req.loopback { return; }
      if otaState != Idle { return; }
      if !req.configured || !req.safeName || !req.readable { return; }
      otaState := Quiescing;
      otaPhaseStart := now;
      cmdMode := ModeNone;
      speedConn := None;
      userDisabled := true;
      SendFrameToBoard(CmdStop);
      SendFrameToBoard(CmdEn(false));
    }

    method CmdFlashAbort(c: Command)
      requires Valid() && c.CFlashAbort?
      modifies this
      ensures Did(old(sent), Result(OnAbort(old(View()), c), []))
    {
      if !c.loopback || !c.usageOk { return; }
      if otaState == Quiescing {
        FinishOta();
      } else if otaState == Recovering {
        FinishOta();
      }
    }

    method HandleCommand(conn: Conn, c: Command, m: Moment)
      requires Valid() && m.event == Line(conn, c) && conn in conns
      modifies this, conSm
      ensures Did(old(sent), Handle(old(View()), m, opts))
    {
      hide OnEnable, ParseSpeeds, Admissible, OnFlash, OnAbort;
      if otaState != Idle && !AllowedWhileBusy(c) { return; }
      match c {
        case CV(args) =>
          var v := ParseSpeeds(args);
          if v.Some? {
            twist := v.value;
            cmdMode := ModeTwist;
            speedConn := Some(conn);
          }
        case CRpm(args) =>
          var v := ParseSpeeds(args);
          if v.Some? {
            rpm := v.value;
            cmdMode := ModeRpm;
            speedConn := Some(conn);
          }
        case CStop =>
          cmdMode := ModeNone;
          speedConn := None;
          SendFrameToBoard(CmdStop);
        case CEn(arg) =>
          if arg.Some? { CmdEnable(arg.value, m.now, m.io); }
        case CPid(gains) =>
          if gains.Some? { SendFrameToBoard(CmdPid(gains.value)); }
        case CSign(signs) =>
          if signs.Some? { SendFrameToBoard(CmdSign(signs.value)); }
        case CPing =>
          if m.io.portOpen { SendFrameToBoard(CmdPing(PingId(m.now))); }
        case CFlash(req) => CmdFlash(req, m.now);
        case CFlashAbort(_, _, _) => CmdFlashAbort(c);
        case CQuery =>
        case CUnknown =>
      }
    }

    method OtaBeginFlasher(now: nat, spawned: bool)
      requires Valid()
      modifies this, conSm
      ensures Did(old(sent), BeginFlasher(old(View()), now, spawned))
    {
      hide Effects, Hangup;
      otaState := Flashing;
      otaPhaseStart := now;
      assert View() == old(View()).(ota := Flashing, phaseStart := now);
      var fx := conSm.Reset();
      RunEffects(fx, now);
      if spawned && !childRunning {
        childRunning := true;
      } else {
        FinishOta();
      }
    }

    method OtaOnChildExit(ok: bool, m: Moment)
      requires Valid() && m.event == ChildExit(ok) && childRunning
      modifies this
      ensures Did(old(sent), Handle(old(View()), m, opts))
    {
      childRunning := false;
      if otaState != Flashing { return; }
      if ok {
        otaState := Recovering;
        otaPhaseStart := m.now;
        lastRetry := 0;
        return;
      }
      FinishOta();
    }

    method SelfHeal(en: bool, now: nat)
      requires Valid()
      modifies this`lastEnSent, this`sent
      ensures Did(old(sent), Heal(old(View()), en, now, opts))
    {
      if !userDisabled && conSm.comm == Ready && !en && now - lastEnSent > opts.enResend {
        lastEnSent := now;
        SendFrameToBoard(CmdEn(true));
      }
    }

    method OnStatusFrame(en: bool, m: Moment)
      requires Valid() && m.event == Status(en)
      modifies this, conSm
      ensures Did(old(sent), Handle(old(View()), m, opts))
    {
      hide BeginFlasher, Heal;
      SelfHeal(en, m.now);
      if otaState == Quiescing && !en {
        OtaBeginFlasher(m.now, m.io.spawned);
      }
    }

    method OnConFrame(msg: Msg, m: Moment)
      requires Valid() && m.event == Con(msg)
      modifies this, conSm
      ensures Did(old(sent), Handle(old(View()), m, opts))
    {
      hide Effects, OnReceive;
      var fx := conSm.OnFrame(msg, m.now, m.io.ok);
      RunEffects(fx, m.now);
    }

    method OnConTick(m: Moment)
      requires Valid() && m.event == ConTick
      modifies this, conSm
      ensures Did(old(sent), Handle(old(View()), m, opts))
    {
      hide Effects, OnTick;
      var fx := conSm.OnTimer(m.now, m.io.ok, m.io.pingOk);
      RunEffects(fx, m.now);
    }

    method OnRepeatTimer(m: Moment)
      requires Valid() && m.event == RepeatTimer
      modifies this
      ensures Did(old(sent), Handle(old(View()), m, opts))
    {
      if cmdMode == ModeNone || userDisabled { return; }
      if conSm.comm != Ready { return; }
      if cmdMode == ModeTwist {
        SendFrameToBoard(CmdTwist(twist));
      } else {
        SendFrameToBoard(CmdVel(rpm));
      }
    }

    method CheckOtaTimeout(now: nat, io: Io)
      requires Valid()
      modifies this, conSm
      ensures Did(old(sent), OnOtaTimeout(old(View()), now, io, opts))
    {
      hide BeginFlasher;
      if otaState == Quiescing && now - otaPhaseStart > opts.quiesceTimeout {
        OtaBeginFlasher(now, io.spawned);
      } else if otaState == Recovering && now - otaPhaseStart > opts.recoverTimeout {
        FinishOta();
      }
    }

    method Reconnect(now: nat, io: Io)
      requires Valid()
      modifies this, conSm
      ensures Did(old(sent), OnReconnect(old(View()), now, io, opts))
    {
      hide Effects, OnConnect;
      if otaState != Flashing && io.portOpen && conSm.state == ConSm.State.Disconnected
         && now - lastRetry >= opts.conRetry {
        lastRetry := now;
        var _, fx := conSm.Connect(now, io.ok);
        RunEffects(fx, now);
      }
    }

    method OnWatchdogTimer(m: Moment)
      requires Valid() && m.event == WatchdogTimer
      modifies this, conSm
      ensures Did(old(sent), Handle(old(View()), m, opts))
    {
      hide OnOtaTimeout, OnReconnect;
      if m.io.portOpen && m.io.reopened {
        lastRetry := 0;
      }
      CheckOtaTimeout(m.now, m.io);
      Reconnect(m.now, m.io);
    }
  }
}
