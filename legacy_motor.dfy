/** The older motor model of frc-rekt/motor.py.  Its functions are the same
    as those of frc_rekt/motor.py except that the data files live under
    `vex_data`; each member here delegates to the Motor module and states
    what the old file's function promises. */
module LegacyMotor {
  import opened Outcomes
  import opened Tables
  import Poly
  import Motor

  const DataFolder: string := "vex_data"

  /** `Motor.get_file_name`, without the encoding detection. */
  function GetFileName(motorType: string, voltage: Option<int>): (r: Result<string>)
    ensures r.Success? <==> motorType in Motor.MotorTypes
    ensures r.Failure? ==> r.error == KeyError(motorType)
    ensures r.Success? && Motor.Truthy(voltage) ==>
      r.value == Motor.StallPath(DataFolder, motorType, voltage.value, Motor.StallDataDate[motorType])
    ensures r.Success? && !Motor.Truthy(voltage) ==>
      r.value == Motor.CurvePath(DataFolder, motorType, Motor.CurveDataDate[motorType])
  {
    Motor.DataPath(DataFolder, motorType, voltage)
  }

  /** The old and the new code name the same files in different folders. */
  lemma SameFileOtherFolder(motorType: string, voltage: Option<int>)
    ensures GetFileName(motorType, voltage).Success? == Motor.FileName(motorType, voltage).Success?
    ensures GetFileName(motorType, voltage).Success? ==>
      GetFileName(motorType, voltage).value != Motor.FileName(motorType, voltage).value
  {
    if GetFileName(motorType, voltage).Success? {
      var p := Motor.TypePrefix(DataFolder, motorType);
      var q := Motor.TypePrefix(Motor.DataFolder, motorType);
      assert p[0] == 'v' && q[0] == 'd';
      if Motor.Truthy(voltage) {
        assert GetFileName(motorType, voltage).value[0] == 'v';
        assert Motor.FileName(motorType, voltage).value[0] == 'd';
      } else {
        assert GetFileName(motorType, voltage).value[0] == 'v';
        assert Motor.FileName(motorType, voltage).value[0] == 'd';
      }
    }
  }

  /** The renaming and unit conversion of `get_curve_frame`. */
  function GetCurveFrame(raw: Frame): (r: Result<Frame>)
    requires WellFormed(raw)
    ensures var h := Rename(raw, Motor.CurveRenames).headers;
      r.Success? <==> "speed" in h && "efficiency" in h
    ensures var h := Rename(raw, Motor.CurveRenames).headers;
      r.Failure? ==> r.error == KeyError(if "speed" !in h then "speed" else "efficiency")
    ensures r.Success? ==>
      && r.value.headers == Rename(raw, Motor.CurveRenames).headers
      && |r.value.columns| == |raw.columns|
      && forall i :: 0 <= i < |raw.columns| ==>
           var h := Renamed(Motor.CurveRenames, raw.headers[i]);
           && |r.value.columns[i]| == |raw.columns[i]|
           && (h == "speed" ==> forall j :: 0 <= j < |raw.columns[i]| ==> r.value.columns[i][j] * 60.0 == raw.columns[i][j])
           && (h == "efficiency" ==> forall j :: 0 <= j < |raw.columns[i]| ==> r.value.columns[i][j] * 100.0 == raw.columns[i][j])
           && (h != "speed" && h != "efficiency" ==> r.value.columns[i] == raw.columns[i])
  {
    Motor.NormalizeCurve(raw)
  }

  /** `choose_stall_indexes`: the same running-maximum selection and table. */
  method ChooseStallIndexes(stallFrames: map<int, seq<Motor.StallRow>>) returns (r: Result<Motor.StallTable>)
    ensures r.Success? <==> Motor.StallFramesUsable(stallFrames)
    ensures r.Success? ==>
      var t := r.value;
      && |t.testVoltage| == |t.time| == |t.current| == |t.voltage| == |t.torque| == 7
      && t.testVoltage == [0.0, 2.0, 4.0, 6.0, 8.0, 10.0, 12.0]
      && t.time[0] == t.current[0] == t.voltage[0] == t.torque[0] == 0.0
      && forall k :: 0 <= k < |Motor.StallVoltages| ==>
           var frame := stallFrames[Motor.StallVoltages[k]];
           var p := Motor.PeakIndex(frame);
           && p < |frame|
           && Motor.IsEarliestPeak(frame, Motor.WindowEnd(|frame|), p)
           && t.time[k + 1] == frame[p].time
           && t.current[k + 1] == frame[p].current
           && t.voltage[k + 1] == frame[p].voltage
           && t.torque[k + 1] == frame[p].torque
  {
    r := Motor.ChooseStallIndexes(stallFrames);
    if r.Success? {
      Motor.StallTableShape(stallFrames);
    }
  }

  /** `generate_voltage_scaled_function`: the same degree-1..3 fit, which
      passes through the origin. */
  method GenerateVoltageScaledFunction(
    stallFrames: map<int, seq<Motor.StallRow>>,
    yLabel: string,
    solve: (seq<real>, seq<real>, seq<nat>) -> seq<real>)
    returns (r: Result<seq<real>>)
    ensures r.Success? ==>
      && Motor.StallFramesUsable(stallFrames)
      && |r.value| == 4
      && r.value[0] == 0.0
      && Poly.Eval(r.value, 0.0) == 0.0
    ensures !Motor.StallFramesUsable(stallFrames) ==> r.Failure?
  {
    r := Motor.GenVoltageScaledFunc(stallFrames, yLabel, solve);
  }
}
