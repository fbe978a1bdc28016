/** The battery of frc_rekt/battery.py: an ideal source behind an internal
    resistance. */
module Battery {

  datatype Battery = Battery(startingVoltage: real, load: real, internalResistance: real)

  /** `Battery(starting_voltage=13.2, load=0, internal_resistance=0.012)`:
      the arguments are stored unchanged. */
  function NewBattery(startingVoltage: real := 13.2, load: real := 0.0, internalResistance: real := 0.012): (b: Battery)
    ensures b.startingVoltage == startingVoltage && b.load == load && b.internalResistance == internalResistance
  {
    Battery(startingVoltage, load, internalResistance)
  }

  /** `voltage()`: the terminal voltage; together with the drop across the
      internal resistance it makes up the starting voltage. */
  function Voltage(b: Battery): (v: real)
    ensures v + b.load * b.internalResistance == b.startingVoltage
  {
    b.startingVoltage - b.load * b.internalResistance
  }

  /** With no load there is no drop. */
  lemma NoLoadNoDrop(b: Battery)
    requires b.load == 0.0
    ensures Voltage(b) == b.startingVoltage
  {
  }

  /** `Battery().voltage()` is 13.2. */
  lemma DefaultVoltage()
    ensures Voltage(NewBattery()) == 13.2
  {
  }

  /** With a positive internal resistance, more load means a lower voltage. */
  lemma VoltageFallsWithLoad(b: Battery, heavier: real)
    requires b.internalResistance > 0.0 && b.load < heavier
    ensures Voltage(b.(load := heavier)) < Voltage(b)
  {
    assert (heavier - b.load) * b.internalResistance > 0.0;
  }
}
