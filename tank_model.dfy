/** The tank-drive robot of frc_rekt/model.py.  Construction converts the
    robot's parameters to SI units, derives a motor curve table from the
    motor's data (battery sag, a current-limiting PWM cap, the robot's
    velocity and acceleration per curve row), and fits two equations to
    it: a reserve-shifted acceleration polynomial and a piecewise PWM cap.
    Least-squares fitting is the caller-supplied `solve`. */
module TankModel {
  import opened Outcomes
  import Poly
  import Wheel

  const KilogramsPerPound: real := 0.453592
  /** `math.pi`: the double nearest to pi. */
  const Pi: real := 3.141592653589793
  /** Voltage at which the vendor measured the motor curve. */
  const CurveVoltage: real := 12.0

  /** The least-squares solver: weights for the listed degrees. */
  type Solver = (seq<real>, seq<real>, seq<nat>) -> seq<real>

  // ---------------------------------------------------------------------
  // Curve data
  // ---------------------------------------------------------------------

  /** `get_motor_curve_data`'s file table. */
  const CurveFiles: map<string, string> := map[
    "cim" := "motor_curves/cim-motor-curve-data-20151104.csv",
    "mini_cim" := "mini-cim-motor-curve-data-20151207.csv",
    "775pro" := "775pro-motor-curve-data-20151208.csv",
    "bag" := "bag-motor-curve-data-20151207.csv"]

  /** The file `get_motor_curve_data` reads; an unknown type is a KeyError. */
  function CurveFile(motorType: string): (r: Result<string>)
    ensures r.Success? <==> motorType in {"cim", "mini_cim", "775pro", "bag"}
    ensures r.Failure? ==> r.error == KeyError(motorType)
  {
    if motorType in CurveFiles then Success(CurveFiles[motorType]) else Failure(KeyError(motorType))
  }

  /** The columns of the vendor curve that the robot uses: speed in
      revolutions per minute, current in amperes, torque in N*m. */
  datatype CurveData = CurveData(speed: seq<real>, current: seq<real>, torque: seq<real>)

  predicate Rectangular(d: CurveData)
  {
    |d.speed| == |d.current| == |d.torque|
  }

  /** `motor_curve` after `generate_motor_curve`: the data's columns (speed
      now in revolutions per second) and the derived ones. */
  datatype MotorCurve = MotorCurve(
    speed: seq<real>,
    current: seq<real>,
    torque: seq<real>,
    totalCurrent: seq<real>,
    batteryVoltage: seq<real>,
    robotMaxPwmAllowed: seq<real>,
    robotVelocity: seq<real>,
    robotAcceleration: seq<real>)

  predicate Aligned(c: MotorCurve)
  {
    var n := |c.speed|;
    |c.current| == n && |c.torque| == n && |c.totalCurrent| == n && |c.batteryVoltage| == n
    && |c.robotMaxPwmAllowed| == n && |c.robotVelocity| == n && |c.robotAcceleration| == n
  }

  // ---------------------------------------------------------------------
  // The PWM cap that keeps the battery above its minimum voltage
  // ---------------------------------------------------------------------

  /** Whether the cap has a finite value: it divides by the current when
      the current reaches the limit. */
  predicate PwmDefined(maxCurrent: real, x: real)
  {
    maxCurrent > x || x != 0.0
  }

  /** The cap for one total current x: full PWM below the limit, else the
      fraction that scales x down to the limit. */
  function PwmLimit(maxCurrent: real, x: real): (p: real)
    requires PwmDefined(maxCurrent, x)
    ensures maxCurrent <= x ==> p * x == maxCurrent
    ensures maxCurrent > x ==> p == 1.0
  {
    if maxCurrent <= x then 1.0 - (x - maxCurrent) / x else 1.0
  }

  /** For a positive limit and a positive current, the cap is exactly 1
      when the current is within the limit, and otherwise the ratio of the
      limit to the current, strictly between 0 and 1. */
  lemma PwmLimitBounds(maxCurrent: real, x: real)
    requires maxCurrent > 0.0 && x > 0.0
    ensures PwmLimit(maxCurrent, x) == 1.0 <==> x <= maxCurrent
    ensures x > maxCurrent ==> PwmLimit(maxCurrent, x) == maxCurrent / x
    ensures x > maxCurrent ==> 0.0 < PwmLimit(maxCurrent, x) < 1.0
  {
    var p := PwmLimit(maxCurrent, x);
    if x == maxCurrent {
      assert p == 1.0 - 0.0 / x;
    } else if x > maxCurrent {
      assert p * x == maxCurrent;
      assert p == maxCurrent / x;
      assert p * x < x;
    }
  }

  // ---------------------------------------------------------------------
  // Polynomial columns and the piecewise PWM equation
  // ---------------------------------------------------------------------

  /** A polynomial evaluated at every speed of a column. */
  function EvalColumn(c: seq<real>, xs: seq<real>): (ys: seq<real>)
    ensures |ys| == |xs| && forall i :: 0 <= i < |xs| ==> ys[i] == Poly.Eval(c, xs[i])
  {
    seq(|xs|, i requires 0 <= i < |xs| => Poly.Eval(c, xs[i]))
  }

  /** The cubic least-squares fit of a curve's acceleration against speed. */
  function AccelerationFit(c: MotorCurve, solve: Solver): (fit: seq<real>)
    ensures |fit| == 4
  {
    Poly.Expand(Poly.FullDegrees(3), solve(c.speed, c.robotAcceleration, Poly.FullDegrees(3)))
  }

  /** The reserve fraction of the curve's first (peak) acceleration. */
  function ReserveAmount(c: MotorCurve, reserve: real): real
    requires |c.robotAcceleration| > 0
  {
    c.robotAcceleration[0] * reserve
  }

  /** The target coefficients: the fit with its constant term lowered by
      the reserve amount. */
  function ReserveTargets(c: MotorCurve, reserve: real, solve: Solver): (coefs: seq<real>)
    requires |c.robotAcceleration| > 0
    ensures |coefs| == 4
  {
    var fit := AccelerationFit(c, solve);
    fit[0 := fit[0] - ReserveAmount(c, reserve)]
  }

  /** The targets keep the fit's shape and lie the reserve below it at
      every speed. */
  lemma ReserveTargetsBelowFit(c: MotorCurve, reserve: real, solve: Solver)
    requires |c.robotAcceleration| > 0
    ensures ReserveTargets(c, reserve, solve)[1..] == AccelerationFit(c, solve)[1..]
    ensures forall s :: (Poly.Eval(ReserveTargets(c, reserve, solve), s)
      == Poly.Eval(AccelerationFit(c, solve), s) - ReserveAmount(c, reserve))
  {
    var fit := AccelerationFit(c, solve);
    forall s ensures Poly.Eval(ReserveTargets(c, reserve, solve), s) == Poly.Eval(fit, s) - ReserveAmount(c, reserve) {
      Poly.ShiftConstantTerm(fit, ReserveAmount(c, reserve), s);
    }
  }

  /** Rows whose PWM is capped below 1, in row order. */
  function LimitedRows(pwm: seq<real>): (rows: seq<nat>)
    ensures forall m :: 0 <= m < |rows| ==> rows[m] < |pwm| && pwm[rows[m]] < 1.0
    ensures forall m1, m2 :: 0 <= m1 < m2 < |rows| ==> rows[m1] < rows[m2]
    ensures forall i :: 0 <= i < |pwm| && pwm[i] < 1.0 ==> i in rows
  {
    if |pwm| == 0 then []
    else LimitedRows(pwm[..|pwm| - 1]) + (if pwm[|pwm| - 1] < 1.0 then [|pwm| - 1] else [])
  }

  /** Row j is capped and no later row is. */
  predicate LastCapped(pwm: seq<real>, j: nat)
  {
    j < |pwm| && pwm[j] < 1.0 && forall k :: j < k < |pwm| ==> pwm[k] >= 1.0
  }

  /** No row is capped exactly when there are no limited rows; otherwise the
      last limited row is the last capped row of the table. */
  lemma {:induction false} LastLimitedRow(pwm: seq<real>)
    ensures |LimitedRows(pwm)| == 0 <==> forall i :: 0 <= i < |pwm| ==> pwm[i] >= 1.0
    ensures |LimitedRows(pwm)| > 0 ==> LastCapped(pwm, LimitedRows(pwm)[|LimitedRows(pwm)| - 1])
  {
    var rows := LimitedRows(pwm);
    if |rows| > 0 {
      var j := rows[|rows| - 1];
      assert pwm[rows[0]] < 1.0;
      forall x | x in rows ensures x <= j {
        var m :| 0 <= m < |rows| && rows[m] == x;
        assert m == |rows| - 1 || rows[m] < j;
      }
      forall k | j < k < |pwm| ensures pwm[k] >= 1.0 {
        assert k !in rows;
      }
    } else {
      forall i | 0 <= i < |pwm| ensures pwm[i] >= 1.0 {
        assert i !in rows;
      }
    }
  }

  /** The function `find_max_pwm_allowed_equation` returns: below the
      transition speed the quadratic fit, from it on full PWM.  When no row
      is capped the source falls back to a pass-through function. */
  datatype MaxPwmEquation = Limited(coefs: seq<real>, transition: real) | PassThrough

  /** Calling the returned function at a speed. */
  function Apply(e: MaxPwmEquation, speed: real): (p: real)
    ensures (e.PassThrough? || speed >= e.transition) ==> p == 1.0
    ensures e.Limited? && speed < e.transition ==> p == Poly.Eval(e.coefs, speed)
  {
    match e
    case PassThrough => 1.0
    case Limited(coefs, transition) => if speed < transition then Poly.Eval(coefs, speed) else 1.0
  }

  /** The degree-2 fit through the capped rows; transition at the speed of
      the last capped row, or the pass-through when there is none. */
  function MaxPwmEquationOf(speed: seq<real>, pwm: seq<real>, solve: Solver): (e: MaxPwmEquation)
    requires |speed| == |pwm|
    ensures e.PassThrough? <==> forall i :: 0 <= i < |pwm| ==> pwm[i] >= 1.0
    ensures e.Limited? ==> |e.coefs| == 3
  {
    var rows := LimitedRows(pwm);
    LastLimitedRow(pwm);
    if |rows| == 0 then PassThrough
    else
      var x := seq(|rows|, m requires 0 <= m < |rows| => speed[rows[m]]);
      var y := seq(|rows|, m requires 0 <= m < |rows| => pwm[rows[m]]);
      Limited(Poly.Expand(Poly.FullDegrees(2), solve(x, y, Poly.FullDegrees(2))), x[|x| - 1])
  }

  /** With no capped row the equation is 1 at every speed. */
  lemma NoCapMeansFullPwm(speed: seq<real>, pwm: seq<real>, solve: Solver)
    requires |speed| == |pwm|
    requires forall i :: 0 <= i < |pwm| ==> pwm[i] >= 1.0
    ensures MaxPwmEquationOf(speed, pwm, solve) == PassThrough
    ensures forall s :: Apply(MaxPwmEquationOf(speed, pwm, solve), s) == 1.0
  {
    LastLimitedRow(pwm);
  }

  lemma TransitionOfLastRow(speed: seq<real>, pwm: seq<real>, solve: Solver)
    requires |speed| == |pwm| && |LimitedRows(pwm)| > 0
    ensures MaxPwmEquationOf(speed, pwm, solve).Limited?
    ensures MaxPwmEquationOf(speed, pwm, solve).transition
      == speed[LimitedRows(pwm)[|LimitedRows(pwm)| - 1]]
  {
  }

  /** The transition is the speed of the last capped row of the table. */
  lemma TransitionAtLastCappedRow(speed: seq<real>, pwm: seq<real>, solve: Solver, j: nat)
    requires |speed| == |pwm| && LastCapped(pwm, j)
    ensures MaxPwmEquationOf(speed, pwm, solve).Limited?
    ensures MaxPwmEquationOf(speed, pwm, solve).transition == speed[j]
  {
    LastLimitedRow(pwm);
    var rows := LimitedRows(pwm);
    assert j in rows;
    var last := rows[|rows| - 1];
    assert last <= j && j <= last;
    TransitionOfLastRow(speed, pwm, solve);
  }

  /** On a curve ordered by speed, the equation gives full PWM on the last
      capped row itself and on every row after it. */
  lemma FullPwmFromTransitionRow(speed: seq<real>, pwm: seq<real>, solve: Solver, j: nat)
    requires |speed| == |pwm|
    requires forall a, b :: 0 <= a < b < |speed| ==> speed[a] <= speed[b]
    requires LastCapped(pwm, j)
    ensures forall k :: j <= k < |speed| ==> Apply(MaxPwmEquationOf(speed, pwm, solve), speed[k]) == 1.0
  {
    TransitionAtLastCappedRow(speed, pwm, solve, j);
    var e := MaxPwmEquationOf(speed, pwm, solve);
    forall k | j <= k < |speed| ensures Apply(e, speed[k]) == 1.0 {
      assert j == k || speed[j] <= speed[k];
    }
  }

  // ---------------------------------------------------------------------
  // The robot
  // ---------------------------------------------------------------------

  class TankRobot {
    const mass: real
    const gearRatio: real
    const wheelDiameter: real
    const wheelPerimeter: real
    const wheelFriction: real
    const motorType: string
    const motorsPerSide: int
    const motors: int
    const gearboxEfficiency: real
    const reserveAcceleration: real
    const batteryMinAllowedVoltage: real
    const batteryNominalVoltage: real
    const batteryInternalResistance: real
    const curveVoltage: real

    var motorCurve: MotorCurve
    /** Columns the two equation finders add to `motor_curve`. */
    var robotAccelerationFit: seq<real>
    var robotAccelerationTargets: seq<real>
    var robotMaxAllowedPwmEquation: seq<real>
    var voltageLimitedAccel: seq<real>
    var maxPwmAllowedEquation: MaxPwmEquation

    /** The converted parameters fit together, and the ones the formulas
        divide by are non-zero. */
    predicate Physical()
    {
      mass != 0.0 && gearRatio != 0.0 && wheelDiameter != 0.0
      && wheelPerimeter == wheelDiameter * Pi && motors == 2 * motorsPerSide
      && curveVoltage == CurveVoltage
    }

    predicate Valid()
      reads this`motorCurve
    {
      Physical() && Aligned(motorCurve)
    }

    /** Terminal voltage when the motors draw `current`: what is left of the
        nominal voltage after the drop across the internal resistance. */
    function BatteryVoltageUnderLoad(current: real): (v: real)
      ensures v + current * batteryInternalResistance == batteryNominalVoltage
    {
      batteryNominalVoltage - current * batteryInternalResistance
    }

    /** No current, no sag. */
    lemma NoCurrentNominalVoltage()
      ensures BatteryVoltageUnderLoad(0.0) == batteryNominalVoltage
    {
    }

    /** The total current at which the battery sags to its allowed minimum. */
    function MaxCurrent(): (mc: real)
      requires batteryInternalResistance != 0.0
      ensures BatteryVoltageUnderLoad(mc) == batteryMinAllowedVoltage
    {
      (batteryNominalVoltage - batteryMinAllowedVoltage) / batteryInternalResistance
    }

    /** The column `max_pwm_allowed` produces.  Computing the limit divides
        by the internal resistance (ZeroDivisionError); a zero current at or
        above a non-positive limit has no finite cap. */
    function MaxPwmColumn(current: seq<real>): (r: Result<seq<real>>)
      ensures r.Success? <==>
        batteryInternalResistance != 0.0 && forall i :: 0 <= i < |current| ==> PwmDefined(MaxCurrent(), current[i])
      ensures batteryInternalResistance == 0.0 ==> r == Failure(ZeroDivisionError)
      ensures r.Failure? && batteryInternalResistance != 0.0 ==> r.error == NonFinite
      ensures r.Success? ==> (|r.value| == |current|
        && forall i :: 0 <= i < |current| ==> r.value[i] == PwmLimit(MaxCurrent(), current[i]))
    {
      if batteryInternalResistance == 0.0 then Failure(ZeroDivisionError)
      else
        var mc := MaxCurrent();
        if exists i :: 0 <= i < |current| && !PwmDefined(mc, current[i]) then Failure(NonFinite)
        else Success(seq(|current|, i requires 0 <= i < |current| => PwmLimit(mc, current[i])))
    }

    /** `max_pwm_allowed`: the cap for each total current, in order. */
    method MaxPwmAllowed(current: seq<real>) returns (r: Result<seq<real>>)
      ensures r == MaxPwmColumn(current)
    {
      if batteryInternalResistance == 0.0 {
        return Failure(ZeroDivisionError);
      }
      var maxCurrent := (batteryNominalVoltage - batteryMinAllowedVoltage) / batteryInternalResistance;
      var maxPwm: seq<real> := [];
      for i := 0 to |current|
        invariant |maxPwm| == i
        invariant forall k :: 0 <= k < i ==> PwmDefined(maxCurrent, current[k]) && maxPwm[k] == PwmLimit(maxCurrent, current[k])
      {
        var x := current[i];
        if maxCurrent <= x {
          if x == 0.0 {
            return Failure(NonFinite);
          }
          maxPwm := maxPwm + [1.0 - (x - maxCurrent) / x];
        } else {
          maxPwm := maxPwm + [1.0];
        }
      }
      assert maxPwm == MaxPwmColumn(current).value;
      return Success(maxPwm);
    }

    /** Torque at the wheels of one side: the motor's curve torque scaled
        by the applied voltage, times the motors, reduction and efficiency. */
    function WheelTorque(motorVoltage: real, motorTorque: real): (t: real)
      requires Physical()
      ensures t * curveVoltage == motorTorque * motorVoltage * (motorsPerSide as real * gearRatio * gearboxEfficiency)
    {
      motorTorque * (motorVoltage / curveVoltage) * motorsPerSide as real * gearRatio * gearboxEfficiency
    }

    /** Wheel torque is proportional to the applied voltage and equals the
        curve torque times motors, reduction and efficiency at 12 V. */
    lemma WheelTorqueScalesWithVoltage(motorVoltage: real, motorTorque: real, k: real)
      requires Physical()
      ensures WheelTorque(k * motorVoltage, motorTorque) == k * WheelTorque(motorVoltage, motorTorque)
      ensures WheelTorque(CurveVoltage, motorTorque) == motorTorque * motorsPerSide as real * gearRatio * gearboxEfficiency
    {
      var c := motorsPerSide as real * gearRatio * gearboxEfficiency;
      assert (k * motorVoltage) / curveVoltage == k * (motorVoltage / curveVoltage);
      assert WheelTorque(k * motorVoltage, motorTorque) == (motorTorque * (k * (motorVoltage / curveVoltage))) * motorsPerSide as real * gearRatio * gearboxEfficiency;
    }

    /** Force of one side: wheel torque over the wheel radius. */
    function SideWheelForce(motorVoltage: real, motorTorque: real): (f: real)
      requires Physical()
      ensures f * wheelDiameter == 2.0 * WheelTorque(motorVoltage, motorTorque)
    {
      WheelTorque(motorVoltage, motorTorque) / (wheelDiameter / 2.0)
    }

    /** Both sides push. */
    function TotalWheelForce(motorVoltage: real, motorTorque: real): (f: real)
      requires Physical()
      ensures f * wheelDiameter == 4.0 * WheelTorque(motorVoltage, motorTorque)
    {
      SideWheelForce(motorVoltage, motorTorque) * 2.0
    }

    /** Newton's second law. */
    function Acceleration(force: real): (a: real)
      requires Physical()
      ensures a * mass == force
    {
      force / mass
    }

    /** The robot's acceleration with both sides driven at `pwm` of the
        available force. */
    function RobotAcceleration(motorVoltage: real, motorTorque: real, pwm: real): (a: real)
      requires Physical()
      ensures a * mass == TotalWheelForce(motorVoltage, motorTorque) * pwm
    {
      Acceleration(TotalWheelForce(motorVoltage, motorTorque) * pwm)
    }

    /** Zero PWM means no acceleration. */
    lemma NoPwmNoAcceleration(motorVoltage: real, motorTorque: real)
      requires Physical()
      ensures RobotAcceleration(motorVoltage, motorTorque, 0.0) == 0.0
    {
      var a := RobotAcceleration(motorVoltage, motorTorque, 0.0);
      assert a * mass == 0.0;
    }

    /** Robot speed: wheel revolutions per second times the perimeter. */
    function RobotVelocity(motorVelocity: real): (v: real)
      requires Physical()
      ensures v * gearRatio == motorVelocity * wheelDiameter * Pi
    {
      (motorVelocity / gearRatio) * wheelPerimeter
    }

    /** Current drawn by all motors at each curve row. */
    function TotalCurrent(data: CurveData): (total: seq<real>)
      requires Physical()
      ensures |total| == |data.current|
      ensures forall i :: 0 <= i < |data.current| ==> total[i] == data.current[i] * 2.0 * motorsPerSide as real
    {
      assert motors as real == 2.0 * motorsPerSide as real;
      seq(|data.current|, i requires 0 <= i < |data.current| => data.current[i] * motors as real)
    }

    /** The table `generate_motor_curve` builds from the curve data. */
    function CurveOf(data: CurveData): (r: Result<MotorCurve>)
      requires Physical() && Rectangular(data)
      ensures r.Success? <==> MaxPwmColumn(TotalCurrent(data)).Success?
      ensures r.Failure? ==> r == Failure(MaxPwmColumn(TotalCurrent(data)).error)
      ensures r.Success? ==> Aligned(r.value) && |r.value.speed| == |data.speed|
      ensures r.Success? ==> r.value.current == data.current && r.value.torque == data.torque
    {
      var n := |data.speed|;
      var speed := seq(n, i requires 0 <= i < n => data.speed[i] / 60.0);
      var totalCurrent := TotalCurrent(data);
      var batteryVoltage := seq(n, i requires 0 <= i < n => BatteryVoltageUnderLoad(totalCurrent[i]));
      var pwm :- MaxPwmColumn(totalCurrent);
      var velocity := seq(n, i requires 0 <= i < n => RobotVelocity(speed[i]));
      var acceleration := seq(n, i requires 0 <= i < n => RobotAcceleration(batteryVoltage[i], data.torque[i], pwm[i]));
      Success(MotorCurve(speed, data.current, data.torque, totalCurrent, batteryVoltage, pwm, velocity, acceleration))
    }

    /** Each row of the table is one operating point of the robot: the
        motors' speed in revolutions per second, the battery sagging under
        the current of all motors, the PWM cap for that current, and the
        resulting robot velocity and acceleration. */
    lemma CurveRow(data: CurveData, i: nat)
      requires Physical() && Rectangular(data) && CurveOf(data).Success? && i < |data.speed|
      ensures var c := CurveOf(data).value;
        && c.speed[i] * 60.0 == data.speed[i]
        && c.totalCurrent[i] == data.current[i] * 2.0 * motorsPerSide as real
        && c.batteryVoltage[i] + c.totalCurrent[i] * batteryInternalResistance == batteryNominalVoltage
        && (batteryInternalResistance != 0.0 && c.robotMaxPwmAllowed[i] == PwmLimit(MaxCurrent(), c.totalCurrent[i]))
        && c.robotVelocity[i] * gearRatio == c.speed[i] * wheelDiameter * Pi
        && c.robotAcceleration[i] * mass
           == TotalWheelForce(c.batteryVoltage[i], data.torque[i]) * c.robotMaxPwmAllowed[i]
    {
      var c := CurveOf(data).value;
      assert c.totalCurrent[i] == data.current[i] * motors as real;
    }

    /** `generate_motor_curve`, given the table read from the motor's curve
        file. */
    method GenerateMotorCurve(data: CurveData) returns (r: Result<MotorCurve>)
      requires Physical() && Rectangular(data)
      ensures r == CurveOf(data)
    {
      var n := |data.speed|;
      var speed := seq(n, i requires 0 <= i < n => data.speed[i] / 60.0);
      var totalCurrent := TotalCurrent(data);
      var batteryVoltage := seq(n, i requires 0 <= i < n => BatteryVoltageUnderLoad(totalCurrent[i]));
      var pwm := MaxPwmAllowed(totalCurrent);
      if pwm.Failure? {
        return Failure(pwm.error);
      }
      var velocity := seq(n, i requires 0 <= i < n => RobotVelocity(speed[i]));
      var acceleration := seq(n, i requires 0 <= i < n => RobotAcceleration(batteryVoltage[i], data.torque[i], pwm.value[i]));
      return Success(MotorCurve(speed, data.current, data.torque, totalCurrent, batteryVoltage, pwm.value, velocity, acceleration));
    }

    /** `find_voltage_limited_acceleration_equation`: fit a cubic, then lower
        its constant coefficient by the reserve fraction of the first row's
        acceleration, so the targets sit that far below the fit at every
        speed.  An empty curve makes the fit raise TypeError. */
    method FindVoltageLimitedAccelerationEquation(solve: Solver) returns (r: Result<seq<real>>)
      requires Valid()
      modifies this`robotAccelerationFit, this`robotAccelerationTargets
      ensures r.Success? <==> |motorCurve.speed| > 0
      ensures r.Failure? ==> (r.error == TypeError
        && robotAccelerationFit == old(robotAccelerationFit) && robotAccelerationTargets == old(robotAccelerationTargets))
      ensures r.Success? ==> r.value == ReserveTargets(motorCurve, reserveAcceleration, solve)
      ensures r.Success? ==> robotAccelerationFit == EvalColumn(AccelerationFit(motorCurve, solve), motorCurve.speed)
      ensures r.Success? ==> robotAccelerationTargets == EvalColumn(r.value, motorCurve.speed)
    {
      if |motorCurve.speed| == 0 {
        return Failure(TypeError);
      }
      var fit := AccelerationFit(motorCurve, solve);
      robotAccelerationFit := EvalColumn(fit, motorCurve.speed);
      var shiftAmount := ReserveAmount(motorCurve, reserveAcceleration);
      var coefs := new real[4](i requires 0 <= i < 4 => fit[i]);
      coefs[0] := coefs[0] - shiftAmount;
      var feq := coefs[..];
      assert feq == ReserveTargets(motorCurve, reserveAcceleration, solve);
      robotAccelerationTargets := EvalColumn(feq, motorCurve.speed);
      return Success(feq);
    }

    /** `find_max_pwm_allowed_equation`: build the piecewise PWM cap and add
        its value at every curve speed as a column. */
    method FindMaxPwmAllowedEquation(solve: Solver) returns (e: MaxPwmEquation)
      requires Valid()
      modifies this`robotMaxAllowedPwmEquation
      ensures e == MaxPwmEquationOf(motorCurve.speed, motorCurve.robotMaxPwmAllowed, solve)
      ensures |robotMaxAllowedPwmEquation| == |motorCurve.speed|
      ensures forall i :: 0 <= i < |motorCurve.speed| ==> robotMaxAllowedPwmEquation[i] == Apply(e, motorCurve.speed[i])
    {
      e := MaxPwmEquationOf(motorCurve.speed, motorCurve.robotMaxPwmAllowed, solve);
      var speeds := motorCurve.speed;
      var theList: seq<real> := [];
      for i := 0 to |speeds|
        invariant |theList| == i
        invariant forall k :: 0 <= k < i ==> theList[k] == Apply(e, speeds[k])
      {
        theList := theList + [Apply(e, speeds[i])];
      }
      robotMaxAllowedPwmEquation := theList;
    }

    /** `TankRobot(...)` with the source's defaults, given the curve table read
        from `CurveFile(motorType)`.  It converts pounds, inches and the
        per-side motor count, builds the motor curve and fits both
        equations. */
    constructor(
      data: CurveData, solve: Solver,
      mass: real := 154.0, gearRatio: real := 8.0, wheelDiameter: real := 4.0,
      wheelFriction: real := 1.35, motorType: string := "cim", motorsPerSide: int := 3,
      gearboxEfficiency: real := 0.8, reserveAcceleration: real := 0.2,
      batteryMinAllowedVoltage: real := 8.0, batteryNominalVoltage: real := 12.8,
      batteryInternalResistance: real := 0.008)
      requires mass != 0.0 && gearRatio != 0.0 && wheelDiameter != 0.0
      requires CurveFile(motorType).Success? && Rectangular(data) && |data.speed| > 0
      requires batteryInternalResistance != 0.0
      requires forall i :: 0 <= i < |data.current| ==>
        PwmDefined((batteryNominalVoltage - batteryMinAllowedVoltage) / batteryInternalResistance,
                   data.current[i] * (2 * motorsPerSide) as real)
      ensures Valid()
      ensures this.mass == mass * KilogramsPerPound && this.gearRatio == gearRatio
      ensures this.wheelDiameter == wheelDiameter * Wheel.MetersPerInch
      ensures this.wheelPerimeter == this.wheelDiameter * Pi
      ensures this.wheelFriction == wheelFriction && this.motorType == motorType
      ensures this.motorsPerSide == motorsPerSide && this.motors == 2 * motorsPerSide
      ensures this.gearboxEfficiency == gearboxEfficiency && this.reserveAcceleration == reserveAcceleration
      ensures this.batteryMinAllowedVoltage == batteryMinAllowedVoltage
      ensures this.batteryNominalVoltage == batteryNominalVoltage
      ensures this.batteryInternalResistance == batteryInternalResistance
      ensures this.curveVoltage == CurveVoltage
      ensures CurveOf(data).Success? && motorCurve == CurveOf(data).value
      ensures |motorCurve.speed| > 0
      ensures voltageLimitedAccel == ReserveTargets(motorCurve, reserveAcceleration, solve)
      ensures robotAccelerationFit == EvalColumn(AccelerationFit(motorCurve, solve), motorCurve.speed)
      ensures robotAccelerationTargets == EvalColumn(voltageLimitedAccel, motorCurve.speed)
      ensures maxPwmAllowedEquation == MaxPwmEquationOf(motorCurve.speed, motorCurve.robotMaxPwmAllowed, solve)
      ensures |robotMaxAllowedPwmEquation| == |motorCurve.speed|
      ensures forall i :: 0 <= i < |motorCurve.speed| ==>
        robotMaxAllowedPwmEquation[i] == Apply(maxPwmAllowedEquation, motorCurve.speed[i])
    {
      this.mass := mass * KilogramsPerPound;
      this.gearRatio := gearRatio;
      this.wheelDiameter := wheelDiameter * Wheel.MetersPerInch;
      this.wheelPerimeter := wheelDiameter * Wheel.MetersPerInch * Pi;
      this.wheelFriction := wheelFriction;
      this.motorType := motorType;
      this.motorsPerSide := motorsPerSide;
      this.motors := motorsPerSide * 2;
      this.gearboxEfficiency := gearboxEfficiency;
      this.reserveAcceleration := reserveAcceleration;
      this.batteryMinAllowedVoltage := batteryMinAllowedVoltage;
      this.batteryNominalVoltage := batteryNominalVoltage;
      this.batteryInternalResistance := batteryInternalResistance;
      this.curveVoltage := CurveVoltage;
      new;
      var curve := GenerateMotorCurve(data);
      motorCurve := curve.value;
      FitEquations(solve);
    }

    /** The last two steps of construction: both equations fitted to a
        non-empty curve and stored, with the columns they add. */
    method FitEquations(solve: Solver)
      requires Valid() && |motorCurve.speed| > 0
      modifies this`voltageLimitedAccel, this`robotAccelerationFit, this`robotAccelerationTargets
      modifies this`maxPwmAllowedEquation, this`robotMaxAllowedPwmEquation
      ensures voltageLimitedAccel == ReserveTargets(motorCurve, reserveAcceleration, solve)
      ensures robotAccelerationFit == EvalColumn(AccelerationFit(motorCurve, solve), motorCurve.speed)
      ensures robotAccelerationTargets == EvalColumn(voltageLimitedAccel, motorCurve.speed)
      ensures maxPwmAllowedEquation == MaxPwmEquationOf(motorCurve.speed, motorCurve.robotMaxPwmAllowed, solve)
      ensures |robotMaxAllowedPwmEquation| == |motorCurve.speed|
      ensures forall i :: 0 <= i < |motorCurve.speed| ==>
        robotMaxAllowedPwmEquation[i] == Apply(maxPwmAllowedEquation, motorCurve.speed[i])
    {
      var feq := FindVoltageLimitedAccelerationEquation(solve);
      voltageLimitedAccel := feq.value;
      ghost var fit, targets := robotAccelerationFit, robotAccelerationTargets;
      maxPwmAllowedEquation := FindMaxPwmAllowedEquation(solve);
      assert robotAccelerationFit == fit && robotAccelerationTargets == targets;
    }
  }
}
