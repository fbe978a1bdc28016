/** The wheel of frc_rekt/wheel.py.  The diameter is given in inches and
    stored in metres; the force at the tread is reported in the source's
    "ft*lbs" unit. */
module Wheel {
  import opened Outcomes

  const MetersPerInch: real := 0.0254
  /** The source's conversion factor from its N*m figure to its ft*lbs figure. */
  const FootPoundsPerNewtonMeter: real := 0.737562149277

  datatype Wheel = Wheel(diameterMeters: real, cof: real, torque: real)

  /** `Wheel(diameter=4.0, cof=1.3, torque=0.0)`. */
  function NewWheel(diameter: real := 4.0, cof: real := 1.3, torque: real := 0.0): (w: Wheel)
    ensures w.cof == cof && w.torque == torque
  {
    Wheel(diameter * MetersPerInch, cof, torque)
  }

  /** The `diameter` property, back in inches. */
  function Diameter(w: Wheel): (inches: real)
    ensures inches * MetersPerInch == w.diameterMeters
  {
    w.diameterMeters / MetersPerInch
  }

  /** The diameter a wheel was built with is the one it reports. */
  lemma DiameterRoundTrip(diameter: real, cof: real, torque: real)
    ensures Diameter(NewWheel(diameter, cof, torque)) == diameter
  {
  }

  /** `_force`: torque over the radius in metres.  A zero diameter raises
      ZeroDivisionError (Python float division). */
  function NewtonForce(w: Wheel): (r: Result<real>)
    ensures r.Success? <==> w.diameterMeters != 0.0
    ensures r.Failure? ==> r.error == ZeroDivisionError
    ensures r.Success? ==> r.value * w.diameterMeters == 2.0 * w.torque
  {
    if w.diameterMeters / 2.0 == 0.0 then Failure(ZeroDivisionError)
    else Success(w.torque / (w.diameterMeters / 2.0))
  }

  /** `force`: `_force` in the reporting unit. */
  function Force(w: Wheel): (r: Result<real>)
    ensures r.Success? <==> w.diameterMeters != 0.0
    ensures r.Failure? ==> r.error == ZeroDivisionError
    ensures r.Success? ==> r.value * w.diameterMeters == 2.0 * w.torque * FootPoundsPerNewtonMeter
  {
    var f :- NewtonForce(w);
    Success(f * FootPoundsPerNewtonMeter)
  }

  /** Scaling the torque scales the force by the same factor. */
  lemma ForceLinearInTorque(w: Wheel, a: real)
    requires w.diameterMeters != 0.0
    ensures Force(w.(torque := a * w.torque)).value == a * Force(w).value
  {
    var f := Force(w).value;
    var g := Force(w.(torque := a * w.torque)).value;
    assert g * w.diameterMeters == a * (f * w.diameterMeters);
  }

  /** A wheel without torque pushes with no force. */
  lemma ZeroTorqueNoForce(w: Wheel)
    requires w.diameterMeters != 0.0 && w.torque == 0.0
    ensures Force(w) == Success(0.0)
  {
  }

  /** `Wheel()` is 4 inches across with friction 1.3, no torque and no force. */
  lemma DefaultWheel()
    ensures Diameter(NewWheel()) == 4.0
    ensures NewWheel().cof == 1.3 && NewWheel().torque == 0.0
    ensures Force(NewWheel()) == Success(0.0)
  {
  }
}
