/** The client side of the CON link: four states, two deadlines, two retry counters. */
module ConSm {
  import opened Optional

  const PING_TIME: nat := 1000
  const REPEAT_PING_TIME: nat := 300
  const MAX_PING_REPEAT: nat := 2
  const RSP_TIMEOUT: nat := 400
  const RETRY_MAX: nat := 5

  datatype Msg =
    | EnableRequest | EnableResponse
    | DisableRequest | DisableResponse
    | PingRequest | PingResponse

  datatype Comm = NotReady | Ready

  /** What the link does to the outside: a send attempt with its outcome, or a callback. */
  datatype Effect = Send(msg: Msg, ok: bool) | Notify(comm: Comm)

  // ---------------------------------------------------------------- the settled link

  /** The link between calls. Only what is meaningful in a state exists in it. */
  datatype Link =
    | Down
    | Opening(rsp: nat, reps: nat)
    | Up(ping: nat, lost: nat)
    | Closing(rsp: nat, reps: nat, ping: nat, lost: nat)
  {
    predicate IsReady() { Up? || Closing? }

    predicate Shaking() { Opening? || Closing? }

    function CommOf(): Comm { if IsReady() then Ready else NotReady }

    /** Deadlines are armed and counters within their limits. */
    predicate Sound() {
      && (Shaking() ==> 0 < rsp && reps <= RETRY_MAX)
      && (IsReady() ==> 0 < ping && lost <= MAX_PING_REPEAT + 1)
    }
  }

  datatype Outcome = Outcome(link: Link, fx: seq<Effect>)

  /** Calls and timer ticks, each with the outcomes of the sends it may make. */
  datatype Event =
    | Connect(ok: bool)
    | Disconnect(ok: bool)
    | Reset
    | Receive(msg: Msg, ok: bool)
    | Tick(ok: bool, pingOk: bool)

  function Hangup(l: Link): Outcome {
    Outcome(Down, if l.IsReady() then [Notify(NotReady)] else [])
  }

  function Fresh(now: nat): Link { Up(now + PING_TIME, 0) }

  function OnConnect(l: Link, now: nat, ok: bool): Outcome {
    if !l.Down? then Outcome(l, [])
    else Outcome(if ok then Opening(now + RSP_TIMEOUT, 0) else Down, [Send(EnableRequest, ok)])
  }

  function OnDisconnect(l: Link, now: nat, ok: bool): Outcome {
    if !l.Up? then Outcome(l, [])
    else if ok then Outcome(Closing(now + RSP_TIMEOUT, 0, l.ping, 0), [Send(DisableRequest, true)])
    else Outcome(Down, [Send(DisableRequest, false), Notify(NotReady)])
  }

  function OnReceive(l: Link, msg: Msg, now: nat, ok: bool): Outcome {
    match msg
    case EnableRequest =>
      if l.Closing? then Outcome(l, [])
      else if ok then Outcome(Fresh(now), [Send(EnableResponse, true), Notify(Ready)])
      else if l.Down? then Outcome(Down, [Send(EnableResponse, false)])
      else Outcome(Down, [Send(EnableResponse, false), Notify(Ready), Notify(NotReady)])
    case EnableResponse =>
      if l.Opening? then Outcome(Fresh(now), [Notify(Ready)]) else Outcome(l, [])
    case DisableRequest =>
      if l.Up? then Outcome(Down, [Send(DisableResponse, ok), Notify(NotReady)]) else Outcome(l, [])
    case DisableResponse => Hangup(l)
    case PingRequest => Outcome(l, [])
    case PingResponse =>
      Outcome(if l.IsReady() then l.(ping := now + PING_TIME, lost := 0) else l, [])
  }

  /** First half of a tick: the answer to a request is overdue. */
  function RspOverdue(l: Link, now: nat, ok: bool): Outcome {
    if !(l.Shaking() && l.rsp <= now) then Outcome(l, [])
    else if l.reps == RETRY_MAX then Hangup(l)
    else
      var req := if l.Opening? then EnableRequest else DisableRequest;
      if ok then Outcome(l.(rsp := now + RSP_TIMEOUT, reps := l.reps + 1), [Send(req, true)])
      else Outcome(Down, if l.IsReady() then [Send(req, false), Notify(NotReady)] else [Send(req, false)])
  }

  /** Second half of a tick: the answer to a ping is overdue. */
  function PingOverdue(l: Link, now: nat, ok: bool): Outcome {
    if !(l.IsReady() && l.ping <= now) then Outcome(l, [])
    else if l.lost > MAX_PING_REPEAT then Hangup(l)
    else if ok then Outcome(l.(ping := now + REPEAT_PING_TIME, lost := l.lost + 1), [Send(PingRequest, true)])
    else Outcome(Down, [Send(PingRequest, false), Notify(NotReady)])
  }

  function OnTick(l: Link, now: nat, ok: bool, pingOk: bool): Outcome {
    var a := RspOverdue(l, now, ok);
    var b := PingOverdue(a.link, now, pingOk);
    Outcome(b.link, a.fx + b.fx)
  }

  /** The transition table of the settled link. */
  function Step(l: Link, now: nat, e: Event): Outcome {
    match e
    case Connect(ok) => OnConnect(l, now, ok)
    case Disconnect(ok) => OnDisconnect(l, now, ok)
    case Reset => Hangup(l)
    case Receive(msg, ok) => OnReceive(l, msg, now, ok)
    case Tick(ok, pingOk) => OnTick(l, now, ok, pingOk)
  }

  lemma StepSound(l: Link, now: nat, e: Event)
    requires l.Sound()
    ensures Step(l, now, e).link.Sound()
  {}

  // ---------------------------------------------------------------- the object

  datatype State = Disconnected | Connecting | Connected | Disconnecting

  datatype Ev = EvEnable | EvEnableRequest | EvDisable | EvDisableRequest | EvAccept | EvReject

  predicate IsResponse(m: Msg) { m == EnableResponse || m == DisableResponse }

  /** Side effects collected by a transition and carried out afterwards. */
  datatype Deferred = Deferred(
    send: bool, sendType: Msg, cancelRsp: bool, cancelPing: bool, armRsp: bool, armPing: bool,
    fireComm: bool, newComm: Comm, hasFollowUp: bool, followUp: Ev)

  const IDLE := Deferred(false, EnableRequest, false, false, false, false, false, NotReady, false, EvEnable)

  const TO_CONNECTED := IDLE.(cancelRsp := true, armPing := true, fireComm := true, newComm := Ready)

  /** Events a state has no row for. */
  predicate Ignored(s: State, ev: Ev) {
    match ev
    case EvEnable => s != Disconnected
    case EvEnableRequest => s == Disconnecting
    case EvDisable => s == Disconnected || s == Disconnecting
    case EvDisableRequest => s != Connected
    case EvAccept => s != Connecting
    case EvReject => s == Disconnected
  }

  /** What each event means to the settled link. */
  function Respond(l: Link, ev: Ev, now: nat, ok: bool): Outcome {
    match ev
    case EvEnable => OnConnect(l, now, ok)
    case EvEnableRequest => OnReceive(l, EnableRequest, now, ok)
    case EvDisable => OnDisconnect(l, now, ok)
    case EvDisableRequest => OnReceive(l, DisableRequest, now, ok)
    case EvAccept => OnReceive(l, EnableResponse, now, ok)
    case EvReject => Hangup(l)
  }

  class Client {
    var state: State
    var comm: Comm
    var rspDeadline: nat    // 0 is unarmed
    var pingDeadline: nat
    var pingRep: nat
    var reqRep: nat
    var curReq: Msg

    /** Holds even while a transition is being carried out. */
    ghost predicate Consistent()
      reads this
    {
      && (comm == Ready <==> state == Connected || state == Disconnecting)
      && reqRep <= RETRY_MAX && pingRep <= MAX_PING_REPEAT + 1
      && (reqRep != 0 ==> state == Connecting || state == Disconnecting)
      && (pingDeadline > 0 ==> comm == Ready)
      && (rspDeadline > 0 ==> state == Connecting || state == Disconnecting)
    }

    /** The exact invariant between calls. */
    ghost predicate Valid()
      reads this
    {
      && Consistent()
      && (comm == Ready ==> pingDeadline > 0)
      && (state == Connecting || state == Disconnecting ==> rspDeadline > 0)
      && (state == Connecting ==> curReq == EnableRequest)
      && (state == Disconnecting ==> curReq == DisableRequest)
    }

    /** The settled link this object stands for. */
    ghost function Abs(): Link
      reads this
    {
      match state
      case Disconnected => Down
      case Connecting => Opening(rspDeadline, reqRep)
      case Connected => Up(pingDeadline, pingRep)
      case Disconnecting => Closing(rspDeadline, reqRep, pingDeadline, pingRep)
    }

    constructor ()
      ensures Valid() && Abs() == Down
    {
      state, comm, rspDeadline, pingDeadline := Disconnected, NotReady, 0, 0;
      pingRep, reqRep, curReq := 0, 0, EnableRequest;
    }

    method ToConnected(d0: Deferred) returns (d: Deferred)
      modifies this`reqRep, this`comm
      ensures reqRep == 0 && comm == Ready
      ensures d == d0.(cancelRsp := true, fireComm := true, newComm := Ready, armPing := true)
    {
      reqRep := 0;
      comm := Ready;
      d := d0.(cancelRsp := true, fireComm := true, newComm := Ready, armPing := true);
    }

    method ToDisconnected(d0: Deferred) returns (d: Deferred)
      modifies this`reqRep, this`comm, this`pingRep
      ensures reqRep == 0 && pingRep == 0 && comm == NotReady
      ensures d == if old(comm) == NotReady then d0.(cancelRsp := true, cancelPing := true)
                   else d0.(cancelRsp := true, cancelPing := true, fireComm := true, newComm := NotReady)
    {
      d := d0.(cancelRsp := true, cancelPing := true);
      if comm != NotReady {
        comm := NotReady;
        d := d.(fireComm := true, newComm := NotReady);
      }
      pingRep := 0;
      reqRep := 0;
    }

    method SchedulePingStd(now: nat)
      modifies this`pingRep, this`pingDeadline
      ensures pingRep == 0
      ensures pingDeadline == if comm == Ready && (state == Connected || state == Disconnecting)
                              then now + PING_TIME else 0
    {
      pingRep := 0;
      if comm == Ready && (state == Connected || state == Disconnecting) {
        pingDeadline := now + PING_TIME;
      } else {
        pingDeadline := 0;
      }
    }

    /** The transition table: new state, and the side effects it asks for. */
    method Sm(ev: Ev) returns (d: Deferred)
      requires Consistent()
      modifies this`state, this`comm, this`curReq, this`pingRep, this`reqRep
      ensures ev.EvReject? ==> state == Disconnected && comm == NotReady && reqRep == 0
      ensures ev.EvReject? ==> d == IDLE.(cancelRsp := old(state) != Disconnected,
                                          cancelPing := old(comm) == Ready, fireComm := old(comm) == Ready)
      ensures ev.EvAccept? && old(state) == Connecting
              ==> state == Connected && comm == Ready && reqRep == 0 && d == TO_CONNECTED
      ensures ev.EvEnable? && old(state) == Disconnected
              ==> state == Connecting && curReq == EnableRequest && comm == NotReady
                  && d == IDLE.(send := true, sendType := EnableRequest)
      ensures ev.EvEnableRequest? && old(state) == Disconnected
              ==> state == Connecting && comm == NotReady
                  && d == IDLE.(send := true, sendType := EnableResponse)
      ensures ev.EvEnableRequest? && (old(state) == Connecting || old(state) == Connected)
              ==> state == Connected && comm == Ready && reqRep == 0
                  && d == TO_CONNECTED.(send := true, sendType := EnableResponse)
      ensures ev.EvDisable? && (old(state) == Connecting || old(state) == Connected)
              ==> state == Disconnecting && curReq == DisableRequest && comm == old(comm)
                  && d == IDLE.(send := true, sendType := DisableRequest)
      ensures ev.EvDisableRequest? && old(state) == Connected
              ==> state == Disconnected && comm == NotReady && reqRep == 0
                  && d == IDLE.(send := true, sendType := DisableResponse, cancelRsp := true,
                                cancelPing := true, fireComm := true)
      ensures Ignored(old(state), ev) ==> unchanged(this) && d == IDLE
      ensures pingRep == old(pingRep) || pingRep == 0
      ensures reqRep == old(reqRep) || reqRep == 0
      ensures ev.EvEnable? || ev.EvDisable? ==> pingRep == old(pingRep) && reqRep == old(reqRep)
    {
      d := IDLE;
      match state {
        case Disconnected =>
          if ev == EvEnable {
            state := Connecting;
            curReq := EnableRequest;
            d := d.(send := true, sendType := EnableRequest);
          } else if ev == EvEnableRequest {
            state := Connecting;
            curReq := EnableResponse;
            d := d.(send := true, sendType := EnableResponse);
          }
        case Connecting =>
          if ev == EvAccept {
            state := Connected;
            d := ToConnected(d);
          } else if ev == EvReject {
            state := Disconnected;
            d := d.(cancelRsp := true);
            reqRep := 0;
          } else if ev == EvEnableRequest {
            state := Connected;
            curReq := EnableResponse;
            d := d.(send := true, sendType := EnableResponse);
            d := ToConnected(d);
          } else if ev == EvDisable {
            state := Disconnecting;
            curReq := DisableRequest;
            d := d.(send := true, sendType := DisableRequest);
          }
        case Connected =>
          if ev == EvEnableRequest {
            curReq := EnableResponse;
            d := d.(send := true, sendType := EnableResponse);
            if comm != NotReady {
              comm := NotReady;
              d := d.(fireComm := true, newComm := NotReady);
            }
            d := ToConnected(d);
          } else if ev == EvAccept {
          } else if ev == EvDisable {
            state := Disconnecting;
            curReq := DisableRequest;
            d := d.(send := true, sendType := DisableRequest);
          } else if ev == EvDisableRequest {
            state := Disconnected;
            d := ToDisconnected(d);
            curReq := DisableResponse;
            d := d.(send := true, sendType := DisableResponse);
          } else if ev == EvReject {
            state := Disconnected;
            d := d.(cancelRsp := true, cancelPing := true);
            if comm != NotReady {
              comm := NotReady;
              d := d.(fireComm := true, newComm := NotReady);
            }
          }
        case Disconnecting =>
          if ev == EvReject {
            state := Disconnected;
            d := ToDisconnected(d);
          }
      }

    }

    /** Carries out what a transition collected, and names the event that must follow. */
    method Flush(d0: Deferred, now: nat, ok: bool) returns (fx: seq<Effect>, followUp: Option<Ev>)
      requires !d0.armRsp && !d0.hasFollowUp
      modifies this`rspDeadline, this`pingDeadline, this`pingRep
      ensures fx == (if d0.send then [Send(d0.sendType, ok)] else [])
                  + (if d0.fireComm then [Notify(d0.newComm)] else [])
      ensures followUp == if !d0.send then None
                          else if !ok then Some(EvReject)
                          else if IsResponse(d0.sendType) then Some(EvAccept) else None
      ensures rspDeadline == if d0.send && ok && !IsResponse(d0.sendType) then now + RSP_TIMEOUT
                             else if d0.cancelRsp then 0 else old(rspDeadline)
      ensures !d0.armPing ==> pingRep == old(pingRep)
                              && pingDeadline == if d0.cancelPing then 0 else old(pingDeadline)
      ensures d0.armPing ==> pingRep == 0
      ensures d0.armPing ==> pingDeadline == if comm == Ready && (state == Connected || state == Disconnecting)
                                             then now + PING_TIME else 0
    {
      var d := d0;
      fx := [];
      if d.cancelRsp { rspDeadline := 0; }
      if d.cancelPing { pingDeadline := 0; }
      if d.send {
        fx := fx + [Send(d.sendType, ok)];
        if ok {
          if d.sendType == EnableResponse || d.sendType == DisableResponse {
            d := d.(hasFollowUp := true, followUp := EvAccept);
          } else {
            d := d.(armRsp := true);
          }
        } else {
          d := d.(hasFollowUp := true, followUp := EvReject);
        }
      }
      if d.armRsp { rspDeadline := now + RSP_TIMEOUT; }
      if d.armPing { SchedulePingStd(now); }
      if d.fireComm { fx := fx + [Notify(d.newComm)]; }
      followUp := if d.hasFollowUp then Some(d.followUp) else None;
    }

    /** May ev be processed now? A reject may come at any time, an accept also while the answer
        that causes it is still being carried out. */
    ghost predicate Processable(ev: Ev)
      reads this
    {
      && Consistent()
      && (Valid() || ev.EvReject? || (ev.EvAccept? && state == Connecting))
      && (ev.EvDisable? ==> state == Connected && pingRep == 0)
    }

    /** A transition and its side effects; processing the follow-up completes the event. */
    method Transit(ev: Ev, now: nat, ok: bool) returns (fx: seq<Effect>, followUp: Option<Ev>)
      requires Processable(ev)
      modifies this
      ensures if followUp.None?
              then Valid() && Outcome(Abs(), fx) == Respond(old(Abs()), ev, now, ok)
              else Processable(followUp.value) && !ev.EvAccept? && !ev.EvReject?
                   && (followUp.value.EvAccept? || followUp.value.EvReject?)
                   && Respond(Abs(), followUp.value, now, ok).link == Respond(old(Abs()), ev, now, ok).link
                   && fx + Respond(Abs(), followUp.value, now, ok).fx == Respond(old(Abs()), ev, now, ok).fx
    {
      var d := Sm(ev);
      fx, followUp := Flush(d, now, ok);
    }

    /** One event: the transition collects its side effects, they are carried out in order,
        and a follow-up event, if any, is processed after them. Follow-ups never send, so the
        recursion is one level deep. */
    method Process(ev: Ev, now: nat, ok: bool) returns (fx: seq<Effect>)
      requires Processable(ev)
      modifies this
      ensures Valid() && Outcome(Abs(), fx) == Respond(old(Abs()), ev, now, ok)
      decreases if ev.EvAccept? || ev.EvReject? then 0 else 1
    {
      hide Respond;
      var followUp;
      fx, followUp := Transit(ev, now, ok);
      if followUp.Some? {
        var more := Process(followUp.value, now, ok);
        fx := fx + more;
      }
    }

    method Connect(now: nat, ok: bool) returns (rc: int, fx: seq<Effect>)
      requires Valid()
      modifies this
      ensures Valid() && Outcome(Abs(), fx) == OnConnect(old(Abs()), now, ok)
      ensures rc == if old(state) == Connecting then -1 else 0
    {
      if state == Connected { return 0, []; }
      if state == Connecting { return -1, []; }
      fx := Process(EvEnable, now, ok);
      rc := 0;
    }

    method Disconnect(now: nat, ok: bool) returns (rc: int, fx: seq<Effect>)
      requires Valid()
      modifies this
      ensures Valid() && Outcome(Abs(), fx) == OnDisconnect(old(Abs()), now, ok)
      ensures rc == if old(Abs()).Shaking() then -1 else 0
    {
      if state == Connected {
        pingRep := 0;
        fx := Process(EvDisable, now, ok);
        return 0, fx;
      }
      if state == Disconnected { return 0, []; }
      return -1, [];
    }

    method Reset() returns (fx: seq<Effect>)
      requires Valid()
      modifies this
      ensures Valid() && Outcome(Abs(), fx) == Hangup(old(Abs()))
    {
      state := Disconnected;
      rspDeadline := 0;
      pingDeadline := 0;
      pingRep := 0;
      reqRep := 0;
      fx := [];
      if comm != NotReady {
        comm := NotReady;
        fx := [Notify(NotReady)];
      }
    }

    method OnFrame(msg: Msg, now: nat, ok: bool) returns (fx: seq<Effect>)
      requires Valid()
      modifies this
      ensures Valid() && Outcome(Abs(), fx) == OnReceive(old(Abs()), msg, now, ok)
    {
      fx := [];
      match msg {
        case EnableRequest => fx := Process(EvEnableRequest, now, ok);
        case EnableResponse => fx := Process(EvAccept, now, ok);
        case DisableRequest => fx := Process(EvDisableRequest, now, ok);
        case DisableResponse => fx := Process(EvReject, now, ok);
        case PingRequest =>
        case PingResponse => SchedulePingStd(now);
      }
    }

    /** First half of tick: the answer to a request is overdue. */
    method RspTimer(now: nat, ok: bool) returns (fx: seq<Effect>)
      requires Valid()
      modifies this
      ensures Valid() && Abs() == RspOverdue(old(Abs()), now, ok).link
      ensures fx == RspOverdue(old(Abs()), now, ok).fx
    {
      fx := [];
      if 0 < rspDeadline && rspDeadline <= now {
        rspDeadline := 0;
        var retrying := reqRep < RETRY_MAX && (state == Connecting || state == Disconnecting);
        if retrying {
          reqRep := reqRep + 1;
          fx := [Send(curReq, ok)];
          if ok {
            rspDeadline := now + RSP_TIMEOUT;
          } else {
            var more := Process(EvReject, now, ok);
            fx := fx + more;
          }
        } else {
          fx := Process(EvReject, now, ok);
        }
      }
    }

    /** Second half of tick: the answer to a ping is overdue. */
    method PingTimer(now: nat, ok: bool) returns (fx: seq<Effect>)
      requires Valid()
      modifies this
      ensures Valid() && Abs() == PingOverdue(old(Abs()), now, ok).link
      ensures fx == PingOverdue(old(Abs()), now, ok).fx
    {
      fx := [];
      if 0 < pingDeadline && pingDeadline <= now {
        pingDeadline := 0;
        if pingRep <= MAX_PING_REPEAT {
          pingRep := pingRep + 1;
          if comm == Ready {
            fx := [Send(PingRequest, ok)];
            if !ok {
              var more := Process(EvReject, now, ok);
              fx := fx + more;
              return;
            }
            if comm == Ready && (state == Connected || state == Disconnecting) {
              pingDeadline := now + REPEAT_PING_TIME;
            }
          }
        } else {
          fx := Process(EvReject, now, ok);
        }
      }
    }

    method OnTimer(now: nat, ok: bool, pingOk: bool) returns (fx: seq<Effect>)
      requires Valid()
      modifies this
      ensures Valid() && Outcome(Abs(), fx) == OnTick(old(Abs()), now, ok, pingOk)
    {
      fx := RspTimer(now, ok);
      var more := PingTimer(now, pingOk);
      fx := fx + more;
    }
  }
}
