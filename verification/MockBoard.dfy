/** The board simulator's arithmetic over the reals: three-wheel kinematics and the motor loop. */
module MockBoard {
  const TWO_PI: real := 6.2831853
  const RPM_PER_PCT: real := 3.2

  datatype Vec = Vec(x: real, y: real, z: real)

  /** A 3 by 3 matrix by columns. */
  datatype Mat = Mat(a: Vec, b: Vec, c: Vec)

  function Abs(x: real): real { if x < 0.0 then -x else x }

  function Det(m: Mat): real {
    m.a.x * (m.b.y * m.c.z - m.c.y * m.b.z)
    - m.b.x * (m.a.y * m.c.z - m.c.y * m.a.z)
    + m.c.x * (m.a.y * m.b.z - m.b.y * m.a.z)
  }

  function Times(m: Mat, v: Vec): Vec {
    Vec(m.a.x * v.x + m.b.x * v.y + m.c.x * v.z,
        m.a.y * v.x + m.b.y * v.y + m.c.y * v.z,
        m.a.z * v.x + m.b.z * v.y + m.c.z * v.z)
  }

  /** The mounting: sine and cosine of each wheel's angle, and the two radii. */
  datatype Geometry = Geometry(sin: Vec, cos: Vec, wheelR: real, robotR: real)
  {
    function Matrix(): Mat {
      Mat(Vec(-sin.x, -sin.y, -sin.z), cos, Vec(robotR, robotR, robotR))
    }

    function MsToRpm(v: real): real
      requires wheelR != 0.0
    {
      v * 60.0 / (TWO_PI * wheelR)
    }

    function RpmToMs(rpm: real): real { rpm / 60.0 * TWO_PI * wheelR }

    function TwistToWheels(t: Vec): Vec
      requires wheelR != 0.0
    {
      var v := Times(Matrix(), t);
      Vec(MsToRpm(v.x), MsToRpm(v.y), MsToRpm(v.z))
    }

    /** Cramer's rule: each unknown is the determinant with its column replaced, over det. */
    function WheelsToTwist(rpm: Vec): Vec {
      var v := Vec(RpmToMs(rpm.x), RpmToMs(rpm.y), RpmToMs(rpm.z));
      var m := Matrix();
      var det := Det(m);
      if Abs(det) < 0.000000001 then Vec(0.0, 0.0, 0.0)
      else Vec(Det(m.(a := v)) / det, Det(m.(b := v)) / det, Det(m.(c := v)) / det)
    }

    predicate Regular() { wheelR != 0.0 && Abs(Det(Matrix())) >= 0.000000001 }
  }

  function Entry(v: Vec, i: nat): real
    requires i < 3
  {
    if i == 0 then v.x else if i == 1 then v.y else v.z
  }

  /** The simulator's loop over the wheels, filling the caller's array. */
  method FillWheels(g: Geometry, t: Vec, rpm: array<real>)
    requires g.wheelR != 0.0 && rpm.Length == 3
    modifies rpm
    ensures Vec(rpm[0], rpm[1], rpm[2]) == g.TwistToWheels(t)
  {
    for i := 0 to 3
      invariant forall k :: 0 <= k < i ==> rpm[k] == Entry(g.TwistToWheels(t), k)
    {
      var row := -t.x * Entry(g.sin, i) + t.y * Entry(g.cos, i) + t.z * g.robotR;
      RowOfMatrix(g, t, i);
      rpm[i] := g.MsToRpm(row);
    }
  }

  lemma {:induction false} RowOfMatrix(g: Geometry, t: Vec, i: nat)
    requires i < 3
    ensures -t.x * Entry(g.sin, i) + t.y * Entry(g.cos, i) + t.z * g.robotR == Entry(Times(g.Matrix(), t), i)
  {
    var s := Entry(g.sin, i);
    assert (-t.x) * s == (-s) * t.x;
  }

  /** The meaning of a twist: each wheel, turning at its speed, rolls at the speed of its point
      of the body along its direction. */
  lemma {:induction false} RollsWithoutSlip(g: Geometry, t: Vec, i: nat)
    requires g.wheelR != 0.0 && i < 3
    ensures Entry(g.TwistToWheels(t), i) / 60.0 * 6.2831853 * g.wheelR
         == -t.x * Entry(g.sin, i) + t.y * Entry(g.cos, i) + t.z * g.robotR
  {
    RowOfMatrix(g, t, i);
    SpeedUnits(g, Entry(Times(g.Matrix(), t), i));
  }

  function Column(m: Mat, j: nat, v: Vec): Mat
    requires j < 3
  {
    if j == 0 then m.(a := v) else if j == 1 then m.(b := v) else m.(c := v)
  }

  /** The simulator's loop over the unknowns. */
  method SolveTwist(g: Geometry, rpm: Vec) returns (t: Vec)
    ensures t == g.WheelsToTwist(rpm)
  {
    hide Det;
    var v := Vec(g.RpmToMs(rpm.x), g.RpmToMs(rpm.y), g.RpmToMs(rpm.z));
    var det := Det(g.Matrix());
    if Abs(det) < 0.000000001 {
      return Vec(0.0, 0.0, 0.0);
    }
    var x := [0.0, 0.0, 0.0];
    for j := 0 to 3
      invariant |x| == 3 && forall k :: 0 <= k < j ==> x[k] == Det(Column(g.Matrix(), k, v)) / det
    {
      x := x[j := Det(Column(g.Matrix(), j, v)) / det];
    }
    t := Vec(x[0], x[1], x[2]);
  }

  lemma ReplacedColumn(m: Mat, t: Vec)
    ensures Det(m.(a := Times(m, t))) == t.x * Det(m)
    ensures Det(m.(b := Times(m, t))) == t.y * Det(m)
    ensures Det(m.(c := Times(m, t))) == t.z * Det(m)
  {}

  lemma DetTerms(s: real, m: Mat)
    ensures s * Det(m)
      == s * m.a.x * m.b.y * m.c.z - s * m.a.x * m.c.y * m.b.z
       - s * m.b.x * m.a.y * m.c.z + s * m.b.x * m.c.y * m.a.z
       + s * m.c.x * m.a.y * m.b.z - s * m.c.x * m.b.y * m.a.z
  {}

  // The rows of the system, multiplied out.

  lemma {:induction false} CramerRowX(m: Mat, v: Vec)
    ensures m.a.x * Det(m.(a := v)) + m.b.x * Det(m.(b := v)) + m.c.x * Det(m.(c := v)) == v.x * Det(m)
  {
    hide Det;
    DetTerms(m.a.x, m.(a := v));
    DetTerms(m.b.x, m.(b := v));
    DetTerms(m.c.x, m.(c := v));
    DetTerms(v.x, m);
  }

  lemma {:induction false} CramerRowY(m: Mat, v: Vec)
    ensures m.a.y * Det(m.(a := v)) + m.b.y * Det(m.(b := v)) + m.c.y * Det(m.(c := v)) == v.y * Det(m)
  {
    hide Det;
    DetTerms(m.a.y, m.(a := v));
    DetTerms(m.b.y, m.(b := v));
    DetTerms(m.c.y, m.(c := v));
    DetTerms(v.y, m);
  }

  lemma {:induction false} CramerRowZ(m: Mat, v: Vec)
    ensures m.a.z * Det(m.(a := v)) + m.b.z * Det(m.(b := v)) + m.c.z * Det(m.(c := v)) == v.z * Det(m)
  {
    hide Det;
    DetTerms(m.a.z, m.(a := v));
    DetTerms(m.b.z, m.(b := v));
    DetTerms(m.c.z, m.(c := v));
    DetTerms(v.z, m);
  }

  lemma {:induction false} CramerSolves(m: Mat, v: Vec)
    ensures Times(m, Vec(Det(m.(a := v)), Det(m.(b := v)), Det(m.(c := v))))
         == Vec(v.x * Det(m), v.y * Det(m), v.z * Det(m))
  {
    hide Det;
    CramerRowX(m, v);
    CramerRowY(m, v);
    CramerRowZ(m, v);
  }

  lemma {:induction false} TimesScaled(m: Mat, v: Vec, d: real)
    requires d != 0.0
    ensures var w := Times(m, Vec(v.x / d, v.y / d, v.z / d)); var u := Times(m, v);
      w.x * d == u.x && w.y * d == u.y && w.z * d == u.z
  {
    var x, y, z := v.x / d, v.y / d, v.z / d;
    assert x * d == v.x && y * d == v.y && z * d == v.z;
  }

  lemma {:induction false} SpeedUnits(g: Geometry, v: real)
    requires g.wheelR != 0.0
    ensures g.RpmToMs(g.MsToRpm(v)) == v && g.MsToRpm(g.RpmToMs(v)) == v
  {
    var k := TWO_PI * g.wheelR;
    assert k != 0.0;
    var rpm := v * 60.0 / k;
    assert rpm * k == v * 60.0;
    assert g.RpmToMs(rpm) == rpm * k / 60.0;
    var ms := g.RpmToMs(v);
    assert ms * 60.0 == v * k;
    assert v * k / k == v;
  }

  lemma SameQuotient(p: real, q: real, d: real)
    requires d != 0.0 && p == q * d
    ensures p / d == q
  {}

  /** On a regular geometry the two conversions undo each other, in both orders. */
  lemma {:induction false} KinematicsInverse(g: Geometry, t: Vec, rpm: Vec)
    requires g.Regular()
    ensures g.WheelsToTwist(g.TwistToWheels(t)) == t
    ensures g.TwistToWheels(g.WheelsToTwist(rpm)) == rpm
  {
    hide Det, Times;
    var m := g.Matrix();
    var det := Det(m);
    var v := Times(m, t);
    SpeedUnits(g, v.x); SpeedUnits(g, v.y); SpeedUnits(g, v.z);
    ReplacedColumn(m, t);
    SameQuotient(Det(m.(a := v)), t.x, det);
    SameQuotient(Det(m.(b := v)), t.y, det);
    SameQuotient(Det(m.(c := v)), t.z, det);

    var w := Vec(g.RpmToMs(rpm.x), g.RpmToMs(rpm.y), g.RpmToMs(rpm.z));
    var s := Vec(Det(m.(a := w)), Det(m.(b := w)), Det(m.(c := w)));
    CramerSolves(m, w);
    TimesScaled(m, s, det);
    var back := Times(m, g.WheelsToTwist(rpm));
    Cancel(back.x, w.x, det); Cancel(back.y, w.y, det); Cancel(back.z, w.z, det);
    SpeedUnits(g, rpm.x); SpeedUnits(g, rpm.y); SpeedUnits(g, rpm.z);
  }

  lemma Cancel(p: real, q: real, d: real)
    requires d != 0.0 && p * d == q * d
    ensures p == q
  {}

  // ---------------------------------------------------------------- the motor

  function Clamp(x: real, m: real): real
    requires m >= 0.0
  {
    if x > m then m else if x < -m then -m else x
  }

  datatype Motor = Motor(kp: real, ki: real, target: real, speed: real, integral: real, count: int)
  {
    predicate Bounded() { Abs(integral) <= 100.0 && Abs(speed) <= 320.0 && Abs(target) <= 350.0 }
  }

  function Demand(m: Motor): real { m.kp * (m.target - m.speed) + m.integral }

  predicate Opposed(err: real, out: real) { err * out <= 0.0 }

  function Windup(m: Motor, dt: real): real { m.ki * (m.target - m.speed) * dt }

  /** Encoder counts in one tick, 60000 to a turn, cut off toward zero. */
  function Counts(speed: real, dt: real): int {
    var x := speed * 60000.0 / 60.0 * dt;
    if x >= 0.0 then x.Floor else -((-x).Floor)
  }

  function Toward(x: real, y: real, k: real): real { x + (y - x) * k }

  /** k stands for 1 - exp(-dt / tau). The integral moves only off the stops, or back from them. */
  function MotorTick(m: Motor, dt: real, k: real): Motor {
    var out := Clamp(Demand(m), 100.0);
    var speed := Toward(m.speed, out * RPM_PER_PCT, k);
    m.(integral := if (-100.0 < out < 100.0) || Opposed(m.target - m.speed, out)
                   then Clamp(m.integral + Windup(m, dt), 100.0) else m.integral,
       speed := speed, count := m.count + Counts(speed, dt))
  }

  datatype MotorEvent =
    | Tick(dt: real, k: real)
    | SetTarget(t: real)
    | Stop
    | Disable
    | SetGains(kp: real, ki: real)

  function MotorStep(m: Motor, e: MotorEvent): Motor {
    match e
    case Tick(dt, k) => MotorTick(m, dt, k)
    case SetTarget(t) =>
      var c := Clamp(t, 350.0);
      m.(target := c, integral := if c * m.speed < 0.0 then 0.0 else m.integral)
    case Stop => m.(target := 0.0, speed := 0.0, integral := 0.0)
    case Disable => m.(target := 0.0)
    case SetGains(kp, ki) => m.(kp := kp, ki := ki)
  }

  class MotorSim {
    var kp: real
    var ki: real
    var target: real
    var speed: real
    var integral: real
    var count: int

    function View(): Motor
      reads this
    {
      Motor(kp, ki, target, speed, integral, count)
    }

    constructor ()
      ensures View() == Motor(0.5, 2.0, 0.0, 0.0, 0.0, 0) && View().Bounded()
    {
      kp, ki, target, speed, integral, count := 0.5, 2.0, 0.0, 0.0, 0.0, 0;
    }

    method Advance(dt: real, k: real)
      modifies this`integral, this`speed, this`count
      ensures View() == MotorTick(old(View()), dt, k)
    {
      hide Demand, Opposed, Windup, Toward, Counts;
      var err := target - speed;
      var out := Demand(View());
      if out > 100.0 { out := 100.0; }
      if out < -100.0 { out := -100.0; }
      if (out > -100.0 && out < 100.0) || Opposed(err, out) {
        integral := integral + Windup(View(), dt);
        if integral > 100.0 { integral := 100.0; }
        if integral < -100.0 { integral := -100.0; }
      }
      var steady := out * RPM_PER_PCT;
      speed := Toward(speed, steady, k);
      count := count + Counts(speed, dt);
    }

    /** A new target from a speed command; turning round forgets the integral. */
    method SetTargetSpeed(t: real)
      modifies this`integral, this`target
      ensures View() == MotorStep(old(View()), SetTarget(t))
    {
      var c := t;
      if c > 350.0 { c := 350.0; }
      if c < -350.0 { c := -350.0; }
      if c * speed < 0.0 { integral := 0.0; }
      target := c;
    }

    method StopNow()
      modifies this`target, this`speed, this`integral
      ensures View() == MotorStep(old(View()), Stop)
    {
      target := 0.0;
      speed := 0.0;
      integral := 0.0;
    }

    /** The driver is disabled, or no speed command has come for half a second. */
    method DropTarget()
      modifies this`target
      ensures View() == MotorStep(old(View()), Disable)
    {
      target := 0.0;
    }
  }

  function MotorRun(m: Motor, es: seq<MotorEvent>): Motor
    decreases es
  {
    if es == [] then m else MotorRun(MotorStep(m, es[0]), es[1..])
  }

  /** A step part of the way from one point to another stays between them. */
  lemma {:induction false} Between(x: real, y: real, k: real, m: real)
    requires Abs(x) <= m && Abs(y) <= m && 0.0 <= k <= 1.0
    ensures Abs(Toward(x, y, k)) <= m
  {
    var d := y - x;
    if d >= 0.0 {
      NonNegative(d, k);
      NonNegative(d, 1.0 - k);
      assert d * (1.0 - k) == d - d * k;
    } else {
      NonNegative(-d, k);
      NonNegative(-d, 1.0 - k);
      assert (-d) * k == -(d * k) && (-d) * (1.0 - k) == -d + d * k;
    }
  }

  lemma NonNegative(x: real, y: real)
    requires x >= 0.0 && y >= 0.0
    ensures x * y >= 0.0
  {}

  lemma {:induction false} MotorStepBounded(m: Motor, e: MotorEvent)
    requires m.Bounded() && (e.Tick? ==> 0.0 <= e.k <= 1.0)
    ensures MotorStep(m, e).Bounded()
  {
    if e.Tick? {
      hide Demand, Opposed, Windup, Toward, Counts;
      var out := Clamp(Demand(m), 100.0);
      Between(m.speed, out * RPM_PER_PCT, e.k, 320.0);
    }
  }

  /** Whatever gains, targets and step sizes are commanded, the integral and the speed of the
      simulated motor stay within their physical limits. */
  lemma {:induction false} MotorStaysBounded(m: Motor, es: seq<MotorEvent>)
    requires m.Bounded() && forall e :: e in es && e.Tick? ==> 0.0 <= e.k <= 1.0
    ensures MotorRun(m, es).Bounded()
    decreases es
  {
    hide MotorStep;
    if es != [] {
      assert es[0] in es;
      MotorStepBounded(m, es[0]);
      MotorStaysBounded(MotorStep(m, es[0]), es[1..]);
    }
  }

  lemma NoProduct(x: real, y: real)
    requires y != 0.0
    ensures x * y == 0.0 <==> x == 0.0
  {}

  lemma {:induction false} NoLag(x: real, y: real, k: real)
    requires k != 0.0
    ensures Toward(x, y, k) == x <==> y == x
  {
    NoProduct(y - x, k);
  }

  lemma {:induction false} NoWindup(m: Motor, dt: real)
    requires m.ki != 0.0 && dt != 0.0
    ensures Windup(m, dt) == 0.0 <==> m.speed == m.target
    ensures m.speed == m.target ==> Demand(m) == m.integral
  {
    NoProduct(m.ki * (m.target - m.speed), dt);
    NoProduct(m.target - m.speed, m.ki);
  }

  /** Off its stops, with some gain, the motor is at rest exactly at its target, held there by
      the integral alone. */
  lemma {:induction false} RestsAtTarget(m: Motor, dt: real, k: real)
    requires m.ki != 0.0 && dt != 0.0 && k != 0.0
    requires Abs(Demand(m)) < 100.0 && Abs(m.integral + Windup(m, dt)) <= 100.0
    ensures var n := MotorTick(m, dt, k);
      n.speed == m.speed && n.integral == m.integral <==> m.speed == m.target && m.integral * 3.2 == m.speed
  {
    hide Demand, Windup, Toward, Counts, Opposed;
    NoWindup(m, dt);
    NoLag(m.speed, Demand(m) * RPM_PER_PCT, k);
  }

  /** From a standstill it starts in the direction of its target. */
  lemma {:induction false} StartsTowardTarget(m: Motor, dt: real, k: real)
    requires m.speed == 0.0 && m.integral == 0.0 && m.kp > 0.0 && 0.0 < k
    ensures var n := MotorTick(m, dt, k);
      (n.speed > 0.0 <==> m.target > 0.0) && (n.speed < 0.0 <==> m.target < 0.0)
  {
    hide Windup, Counts;
    var out := Clamp(Demand(m), 100.0);
    SignOfProduct(m.target, m.kp);
    SignOfProduct(out * RPM_PER_PCT, k);
    assert m.kp * m.target == m.target * m.kp;
  }

  lemma {:induction false} SignOfProduct(x: real, y: real)
    requires y > 0.0
    ensures (x * y > 0.0 <==> x > 0.0) && (x * y < 0.0 <==> x < 0.0)
  {
    if x < 0.0 {
      assert (-x) * y > 0.0;
      assert (-x) * y == -(x * y);
    }
  }

  /** A stopped motor stays where it is until it gets a new target. */
  lemma {:induction false} StopHolds(m: Motor, es: seq<MotorEvent>)
    requires forall e :: e in es ==> !e.SetTarget?
    ensures var n := MotorRun(MotorStep(m, Stop), es); n.speed == 0.0 && n.integral == 0.0 && n.target == 0.0
  {
    StandsStill(MotorStep(m, Stop), es);
  }

  lemma {:induction false} StandsStill(m: Motor, es: seq<MotorEvent>)
    requires m.speed == 0.0 && m.integral == 0.0 && m.target == 0.0
    requires forall e :: e in es ==> !e.SetTarget?
    ensures var n := MotorRun(m, es); n.speed == 0.0 && n.integral == 0.0 && n.target == 0.0
    decreases es
  {
    if es != [] {
      assert es[0] in es;
      if es[0].Tick? {
        ZeroTick(m, es[0].dt, es[0].k);
      }
      StandsStill(MotorStep(m, es[0]), es[1..]);
    }
  }

  lemma {:induction false} ZeroTick(m: Motor, dt: real, k: real)
    requires m.speed == 0.0 && m.integral == 0.0 && m.target == 0.0
    ensures var n := MotorTick(m, dt, k); n.speed == 0.0 && n.integral == 0.0 && n.target == 0.0
  {
    assert m.kp * 0.0 == 0.0 && m.ki * 0.0 * dt == 0.0;
    assert Demand(m) == 0.0;
    assert (0.0 * RPM_PER_PCT - 0.0) * k == 0.0;
  }

  /** The target is the last one commanded, within 350 either way, until a stop or disable. */
  lemma {:induction false} TargetIsLast(m: Motor, e: MotorEvent, es: seq<MotorEvent>)
    requires e.SetTarget? || e.Stop? || e.Disable?
    requires forall x :: x in es ==> x.Tick? || x.SetGains?
    ensures var t := MotorRun(MotorStep(m, e), es).target;
      if !e.SetTarget? then t == 0.0
      else if e.t > 350.0 then t == 350.0
      else if e.t < -350.0 then t == -350.0
      else t == e.t
  {
    TargetKept(MotorStep(m, e), es);
  }

  lemma {:induction false} TargetKept(m: Motor, es: seq<MotorEvent>)
    requires forall x :: x in es ==> x.Tick? || x.SetGains?
    ensures MotorRun(m, es).target == m.target
    decreases es
  {
    hide Demand, Windup, Toward, Counts, Opposed;
    if es != [] {
      assert es[0] in es;
      TargetKept(MotorStep(m, es[0]), es[1..]);
    }
  }

  /** A target against the direction of turning forgets the integral; no other does. */
  lemma ReversalForgets(m: Motor, t: real)
    requires m.integral != 0.0
    ensures MotorStep(m, SetTarget(t)).integral == 0.0 <==> (t > 0.0 && m.speed < 0.0) || (t < 0.0 && m.speed > 0.0)
    ensures MotorStep(m, SetTarget(t)).integral == 0.0 || MotorStep(m, SetTarget(t)).integral == m.integral
  {}

  /** The encoder follows the wheel, 60000 counts to a turn, always short by less than one. */
  lemma {:induction false} EncoderFollows(m: Motor, dt: real, k: real)
    ensures var n := MotorTick(m, dt, k); var turned := n.speed / 60.0 * dt * 60000.0;
      && Abs((n.count - m.count) as real) <= Abs(turned)
      && Abs(turned - (n.count - m.count) as real) < 1.0
  {
    hide Demand, Windup, Opposed, Toward;
    var n := MotorTick(m, dt, k);
    assert n.speed * 60000.0 / 60.0 * dt == n.speed / 60.0 * dt * 60000.0;
  }

  /** On a stop the integral moves only if the error points back from it. */
  lemma {:induction false} AntiWindup(m: Motor, dt: real, k: real)
    requires Abs(Demand(m)) >= 100.0
    ensures var n := MotorTick(m, dt, k); var back := m.integral + m.ki * (m.target - m.speed) * dt;
      if (Demand(m) > 0.0 && m.target > m.speed) || (Demand(m) < 0.0 && m.target < m.speed)
      then n.integral == m.integral
      else n.integral == if back > 100.0 then 100.0 else if back < -100.0 then -100.0 else back
  {
    hide Demand, Toward, Counts;
    assert Clamp(Demand(m), 100.0) == 100.0 || Clamp(Demand(m), 100.0) == -100.0;
  }
}
