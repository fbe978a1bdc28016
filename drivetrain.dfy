/** The drivetrain of frc_rekt/drivetrain.py: a wheel, a motor and the
    wheelbase, given in inches and stored in metres. */
module Drivetrain {
  import opened Outcomes
  import Wheel
  import Motor

  datatype Drivetrain = Drivetrain(wheel: Wheel.Wheel, motor: Motor.MotorSpec, lengthMeters: real, widthMeters: real)

  /** `Drivetrain(wheel=None, motor=None, length=34, width=28)`: a missing
      wheel or motor is replaced by a default one. */
  function NewDrivetrain(wheel: Option<Wheel.Wheel> := None, motor: Option<Motor.MotorSpec> := None,
                         length: real := 34.0, width: real := 28.0): (d: Drivetrain)
    ensures d.wheel == if wheel.Some? then wheel.value else Wheel.NewWheel()
    ensures d.motor == if motor.Some? then motor.value else Motor.DefaultMotor
  {
    Drivetrain(
      if wheel.None? then Wheel.NewWheel() else wheel.value,
      if motor.None? then Motor.DefaultMotor else motor.value,
      length * Wheel.MetersPerInch,
      width * Wheel.MetersPerInch)
  }

  /** The `length` property, back in inches. */
  function Length(d: Drivetrain): (inches: real)
    ensures inches * Wheel.MetersPerInch == d.lengthMeters
  {
    d.lengthMeters / Wheel.MetersPerInch
  }

  /** The `width` property, back in inches. */
  function Width(d: Drivetrain): (inches: real)
    ensures inches * Wheel.MetersPerInch == d.widthMeters
  {
    d.widthMeters / Wheel.MetersPerInch
  }

  /** The wheelbase a drivetrain was built with is the one it reports. */
  lemma DimensionsRoundTrip(wheel: Option<Wheel.Wheel>, motor: Option<Motor.MotorSpec>, length: real, width: real)
    ensures Length(NewDrivetrain(wheel, motor, length, width)) == length
    ensures Width(NewDrivetrain(wheel, motor, length, width)) == width
  {
  }

  /** `Drivetrain()`: a default wheel and CIM motor on a 34 by 28 inch base. */
  lemma DefaultDrivetrain()
    ensures NewDrivetrain().wheel == Wheel.NewWheel()
    ensures NewDrivetrain().motor == Motor.DefaultMotor
    ensures Length(NewDrivetrain()) == 34.0 && Width(NewDrivetrain()) == 28.0
  {
  }
}
