/** The motor model of frc_rekt/motor.py: where the vendor data files live,
    how their headers and units are normalised, how one representative
    sample is chosen from each locked-rotor run, and the voltage-scaled fit
    built on those samples. */
module Motor {
  import opened Outcomes
  import opened Text
  import opened Tables
  import Poly

  const MotorTypes: seq<string> := ["cim", "mini-cim", "775pro", "bag"]
  const StallVoltages: seq<int> := [2, 4, 6, 8, 10, 12]
  const MotorCurveVoltage: real := 12.0

  const DataFolder: string := "data/vex"

  /** A `Motor` object as other components hold it: its type and operating
      point.  Loading its data files on construction is modelled by the
      functions below, not by this record. */
  datatype MotorSpec = MotorSpec(motorType: string, speed: real, voltage: real)

  /** `Motor()`: a CIM at rest. */
  const DefaultMotor: MotorSpec := MotorSpec("cim", 0.0, 0.0)

  const CurveDataDate: map<string, string> :=
    map["cim" := "20151104", "mini-cim" := "20151207", "775pro" := "20151208", "bag" := "20151207"]
  const StallDataDate: map<string, string> :=
    map["cim" := "20151104", "mini-cim" := "20151209", "775pro" := "20151209", "bag" := "20151207"]

  // ---------------------------------------------------------------------
  // Data file paths
  // ---------------------------------------------------------------------

  /** Python truthiness of the optional voltage argument. */
  predicate Truthy(voltage: Option<int>)
  {
    voltage.Some? && voltage.value != 0
  }

  /** `{folder}/{type}/{type}-`, shared by both kinds of file. */
  function TypePrefix(folder: string, motorType: string): string
  {
    folder + "/" + motorType + "/" + motorType + "-"
  }

  function CurvePath(folder: string, motorType: string, date: string): string
  {
    TypePrefix(folder, motorType) + ("motor-curve-data" + "-" + date + ".csv")
  }

  function StallPath(folder: string, motorType: string, v: int, date: string): string
  {
    TypePrefix(folder, motorType) + "locked-rotor-data-" + Decimal(v) + ("v" + "-" + date + ".csv")
  }

  /** The path of a motor's data file under `folder`: the locked-rotor run
      for a truthy voltage, otherwise the motor curve.  The curve date is
      looked up first, so an unknown motor type is a KeyError either way. */
  function DataPath(folder: string, motorType: string, voltage: Option<int>): (r: Result<string>)
    ensures r.Success? <==> motorType in MotorTypes
    ensures r.Failure? ==> r.error == KeyError(motorType)
    ensures r.Success? && Truthy(voltage) ==>
      r.value == StallPath(folder, motorType, voltage.value, StallDataDate[motorType])
    ensures r.Success? && !Truthy(voltage) ==>
      r.value == CurvePath(folder, motorType, CurveDataDate[motorType])
  {
    if motorType !in CurveDataDate then Failure(KeyError(motorType))
    else
      var date := CurveDataDate[motorType];
      if Truthy(voltage) then
        if motorType !in StallDataDate then Failure(KeyError(motorType))
        else Success(StallPath(folder, motorType, voltage.value, StallDataDate[motorType]))
      else Success(CurvePath(folder, motorType, date))
  }

  /** `Motor._get_file_name`, without the encoding detection. */
  function FileName(motorType: string, voltage: Option<int>): (r: Result<string>)
    ensures r.Success? <==> motorType in MotorTypes
    ensures r.Failure? ==> r.error == KeyError(motorType)
    ensures r.Success? && Truthy(voltage) ==>
      r.value == StallPath(DataFolder, motorType, voltage.value, StallDataDate[motorType])
    ensures r.Success? && !Truthy(voltage) ==>
      r.value == CurvePath(DataFolder, motorType, CurveDataDate[motorType])
  {
    DataPath(DataFolder, motorType, voltage)
  }

  /** A voltage of 0 is falsy: it names the motor curve, exactly as None does. */
  lemma ZeroVoltageIsCurve(folder: string, motorType: string)
    ensures DataPath(folder, motorType, Some(0)) == DataPath(folder, motorType, None)
  {
  }

  /** For one motor type and date, every test voltage has its own
      locked-rotor file. */
  lemma StallPathsDistinct(folder: string, motorType: string, date: string, v: int, w: int)
    requires v != w
    ensures StallPath(folder, motorType, v, date) != StallPath(folder, motorType, w, date)
  {
    var a := TypePrefix(folder, motorType) + "locked-rotor-data-";
    var b := "v" + "-" + date + ".csv";
    if StallPath(folder, motorType, v, date) == StallPath(folder, motorType, w, date) {
      SplitEqual(a, Decimal(v), b, Decimal(w));
      DecimalInjective(v, w);
    }
  }

  /** The motor-curve file is never one of the locked-rotor files. */
  lemma CurvePathIsNotAStallPath(folder: string, motorType: string, curveDate: string, stallDate: string, v: int)
    ensures CurvePath(folder, motorType, curveDate) != StallPath(folder, motorType, v, stallDate)
  {
    var a := TypePrefix(folder, motorType);
    var curve := CurvePath(folder, motorType, curveDate);
    var stall := StallPath(folder, motorType, v, stallDate);
    assert stall == a + ("locked-rotor-data-" + Decimal(v) + ("v" + "-" + stallDate + ".csv"));
    assert curve[|a|] == 'm';
    assert stall[|a|] == 'l';
  }

  /** Distinct truthy voltages give distinct paths, and none of them is the
      curve path. */
  lemma DataPathsDistinct(folder: string, motorType: string, v: int, w: int)
    requires motorType in MotorTypes && v != 0 && w != 0
    ensures v != w ==> DataPath(folder, motorType, Some(v)) != DataPath(folder, motorType, Some(w))
    ensures DataPath(folder, motorType, None) != DataPath(folder, motorType, Some(v))
  {
    if v != w {
      StallPathsDistinct(folder, motorType, StallDataDate[motorType], v, w);
    }
    CurvePathIsNotAStallPath(folder, motorType, CurveDataDate[motorType], StallDataDate[motorType], v);
  }

  // ---------------------------------------------------------------------
  // Header and unit normalisation
  // ---------------------------------------------------------------------

  const CurveRenames: map<string, string> := map[
    "Speed (RPM)" := "speed",
    "Torque (N·m)" := "torque",
    "Current (A)" := "current",
    "Supplied Power (W)" := "supplied_power",
    "Output Power (W)" := "output_power",
    "Efficiency (%)" := "efficiency",
    "Power Dissipation (W)" := "power_dissipation"
  ]

  const StallRenames: map<string, string> := map[
    "Time" := "time",
    "Time (s)" := "time",
    "Amps" := "current",
    "Current (A)" := "current",
    "Volts" := "voltage",
    "Voltage (V)" := "voltage",
    "Torque 2V (N · m)" := "torque",
    "Torque 4V (N · m)" := "torque",
    "Torque 6V (N · m)" := "torque",
    "Torque 8V (N · m)" := "torque",
    "Torque 10V (N · m)" := "torque",
    "Torque 12V (N · m)" := "torque"
  ]

  /** The canonical names are not vendor headers, so normalising the
      headers a second time changes nothing. */
  lemma CurveRenamesIdempotent(f: Frame)
    ensures Rename(Rename(f, CurveRenames), CurveRenames) == Rename(f, CurveRenames)
  {
    RenameIdempotent(f, CurveRenames);
  }

  lemma StallRenamesIdempotent(f: Frame)
    ensures Rename(Rename(f, StallRenames), StallRenames) == Rename(f, StallRenames)
  {
    RenameIdempotent(f, StallRenames);
  }

  /** The curve frame of `_get_curve_frame` once read: vendor headers renamed,
      speed from rev/min to rev/s, efficiency from percent to a fraction.
      Other columns and the number of rows are unchanged. */
  function NormalizeCurve(raw: Frame): (r: Result<Frame>)
    requires WellFormed(raw)
    ensures var h := Rename(raw, CurveRenames).headers;
      r.Success? <==> "speed" in h && "efficiency" in h
    ensures var h := Rename(raw, CurveRenames).headers;
      r.Failure? ==> r.error == KeyError(if "speed" !in h then "speed" else "efficiency")
    ensures r.Success? ==>
      && r.value.headers == Rename(raw, CurveRenames).headers
      && |r.value.columns| == |raw.columns|
      && forall i :: 0 <= i < |raw.columns| ==>
           var h := Renamed(CurveRenames, raw.headers[i]);
           && |r.value.columns[i]| == |raw.columns[i]|
           && (h == "speed" ==> forall j :: 0 <= j < |raw.columns[i]| ==> r.value.columns[i][j] * 60.0 == raw.columns[i][j])
           && (h == "efficiency" ==> forall j :: 0 <= j < |raw.columns[i]| ==> r.value.columns[i][j] * 100.0 == raw.columns[i][j])
           && (h != "speed" && h != "efficiency" ==> r.value.columns[i] == raw.columns[i])
  {
    var named := Rename(raw, CurveRenames);
    var bySecond :- DivideColumn(named, "speed", 60.0);
    DivideColumn(bySecond, "efficiency", 100.0)
  }

  /** `_get_stall_frames`: one locked-rotor table per test voltage, read
      with `load` from its data file and with its headers renamed.  The
      first file name of an unknown motor type is a KeyError. */
  method GetStallFrames(motorType: string, load: string -> Frame) returns (r: Result<map<int, Frame>>)
    ensures r.Success? <==> motorType in MotorTypes
    ensures r.Failure? ==> r.error == KeyError(motorType)
    ensures r.Success? ==> forall k :: 0 <= k < |StallVoltages| ==> StallVoltages[k] in r.value
    ensures r.Success? ==> forall v :: v in r.value ==>
      && v in StallVoltages
      && r.value[v] == Rename(load(StallPath(DataFolder, motorType, v, StallDataDate[motorType])), StallRenames)
  {
    var stallFrames: map<int, Frame> := map[];
    for k := 0 to |StallVoltages|
      invariant motorType in MotorTypes || k == 0
      invariant forall j :: 0 <= j < k ==> StallVoltages[j] in stallFrames
      invariant forall v :: v in stallFrames ==>
        && v in StallVoltages
        && motorType in MotorTypes
        && stallFrames[v] == Rename(load(StallPath(DataFolder, motorType, v, StallDataDate[motorType])), StallRenames)
    {
      var voltage := StallVoltages[k];
      var filePath :- FileName(motorType, Some(voltage));
      stallFrames := stallFrames[voltage := Rename(load(filePath), StallRenames)];
    }
    return Success(stallFrames);
  }

  // ---------------------------------------------------------------------
  // Locked-rotor samples
  // ---------------------------------------------------------------------

  datatype StallRow = StallRow(time: real, current: real, voltage: real, torque: real)

  function Power(row: StallRow): real
  {
    row.current * row.voltage
  }

  /** Row i holds the i-th entries of the first columns named time,
      current, voltage and torque in `f`. */
  predicate RowsReadFrom(f: Frame, rows: seq<StallRow>)
  {
    && WellFormed(f)
    && Column(f, "time").Success? && Column(f, "current").Success?
    && Column(f, "voltage").Success? && Column(f, "torque").Success?
    && forall i :: 0 <= i < |rows| ==>
         && i < |Column(f, "time").value| && i < |Column(f, "current").value|
         && i < |Column(f, "voltage").value| && i < |Column(f, "torque").value|
         && rows[i] == StallRow(Column(f, "time").value[i], Column(f, "current").value[i],
                                Column(f, "voltage").value[i], Column(f, "torque").value[i])
  }

  /** The rows of a frame with canonical headers, read from its first
      time, current, voltage and torque columns. */
  function ReadRows(f: Frame): (r: Result<seq<StallRow>>)
    requires WellFormed(f)
    ensures r.Success? <==> "time" in f.headers && "current" in f.headers && "voltage" in f.headers && "torque" in f.headers
    ensures r.Failure? ==> r.error == KeyError(
      if "time" !in f.headers then "time" else if "current" !in f.headers then "current"
      else if "voltage" !in f.headers then "voltage" else "torque")
    ensures r.Success? ==> |f.columns| > 0 && |r.value| == |f.columns[0]|
    ensures r.Success? ==> RowsReadFrom(f, r.value)
  {
    var time :- Column(f, "time");
    var current :- Column(f, "current");
    var voltage :- Column(f, "voltage");
    var torque :- Column(f, "torque");
    ColumnLength(f, "time");
    ColumnLength(f, "current");
    ColumnLength(f, "voltage");
    ColumnLength(f, "torque");
    Success(seq(|time|, i requires 0 <= i < |time| => StallRow(time[i], current[i], voltage[i], torque[i])))
  }

  /** The rows of a locked-rotor frame once its headers are renamed.  The
      renaming cannot fail; a missing column is a KeyError when the rows
      are read. */
  function StallRows(raw: Frame): (r: Result<seq<StallRow>>)
    requires WellFormed(raw)
    ensures var h := Rename(raw, StallRenames).headers;
      r.Success? <==> "time" in h && "current" in h && "voltage" in h && "torque" in h
    ensures var h := Rename(raw, StallRenames).headers;
      r.Failure? ==> r.error == KeyError(
        if "time" !in h then "time" else if "current" !in h then "current"
        else if "voltage" !in h then "voltage" else "torque")
    ensures r.Success? ==> |raw.columns| > 0 && |r.value| == |raw.columns[0]|
    ensures r.Success? ==> RowsReadFrom(Rename(raw, StallRenames), r.value)
  {
    RenameWellFormed(raw, StallRenames);
    ReadRows(Rename(raw, StallRenames))
  }

  /** Exclusive end of the window `iloc[1:10]`: rows 1 to 9 when present. */
  function WindowEnd(n: nat): (e: nat)
    ensures e <= n && e <= 10
  {
    if n < 10 then n else 10
  }

  /** The running maximum after rows 1 .. n-1: (index, power), starting from
      (0, 0) and replaced only by a strictly larger power. */
  function Scan(frame: seq<StallRow>, n: nat): (r: (nat, real))
    requires n <= |frame|
    ensures r.0 == 0 || 1 <= r.0 < n
  {
    if n <= 1 then (0, 0.0)
    else
      var (index, best) := Scan(frame, n - 1);
      if Power(frame[n - 1]) > best then (n - 1, Power(frame[n - 1])) else (index, best)
  }

  /** The index the source picks in one locked-rotor frame. */
  function PeakIndex(frame: seq<StallRow>): (k: nat)
    ensures k < 10
    ensures |frame| > 0 ==> k < |frame|
  {
    Scan(frame, WindowEnd(|frame|)).0
  }

  /** k is the earliest row among 1 .. n-1 of strictly positive maximal power,
      or 0 when no row there has positive power. */
  predicate IsEarliestPeak(frame: seq<StallRow>, n: nat, k: nat)
    requires n <= |frame|
  {
    || (k == 0 && forall j :: 1 <= j < n ==> Power(frame[j]) <= 0.0)
    || (&& 1 <= k < n
        && Power(frame[k]) > 0.0
        && (forall j :: 1 <= j < n ==> Power(frame[j]) <= Power(frame[k]))
        && (forall j :: 1 <= j < k ==> Power(frame[j]) < Power(frame[k])))
  }

  lemma {:induction false} ScanFindsEarliestPeak(frame: seq<StallRow>, n: nat)
    requires n <= |frame|
    ensures IsEarliestPeak(frame, n, Scan(frame, n).0)
    ensures Scan(frame, n).1 == if Scan(frame, n).0 == 0 then 0.0 else Power(frame[Scan(frame, n).0])
  {
    if n > 1 {
      ScanFindsEarliestPeak(frame, n - 1);
    }
  }

  /** The strict `>` makes the choice the earliest row of maximal power;
      only rows 1 to 9 are compared, and row 0 is the answer when none of
      them has positive power. */
  lemma PeakIndexIsEarliestPeak(frame: seq<StallRow>)
    ensures IsEarliestPeak(frame, WindowEnd(|frame|), PeakIndex(frame))
    ensures |frame| > 0 ==> PeakIndex(frame) < |frame|
    ensures PeakIndex(frame) < 10
  {
    ScanFindsEarliestPeak(frame, WindowEnd(|frame|));
  }

  /** At most one index is the earliest peak. */
  lemma EarliestPeakUnique(frame: seq<StallRow>, n: nat, k1: nat, k2: nat)
    requires n <= |frame|
    requires IsEarliestPeak(frame, n, k1) && IsEarliestPeak(frame, n, k2)
    ensures k1 == k2
  {
  }

  /** Row 0, rows from 10 on, and everything but current × voltage in rows
      1 to 9 have no influence on the choice. */
  lemma PeakIgnoresUnscannedRows(f: seq<StallRow>, g: seq<StallRow>)
    requires WindowEnd(|f|) == WindowEnd(|g|)
    requires forall j :: 1 <= j < WindowEnd(|f|) ==> Power(f[j]) == Power(g[j])
    ensures PeakIndex(f) == PeakIndex(g)
  {
    var n := WindowEnd(|f|);
    PeakIndexIsEarliestPeak(f);
    PeakIndexIsEarliestPeak(g);
    assert IsEarliestPeak(g, n, PeakIndex(f));
    EarliestPeakUnique(g, n, PeakIndex(f), PeakIndex(g));
  }

  /** The inner loop of `_choose_stall_indexes` for one frame. */
  method ChoosePeakIndex(frame: seq<StallRow>) returns (maxPowerIndex: nat)
    ensures maxPowerIndex == PeakIndex(frame)
  {
    var end := WindowEnd(|frame|);
    maxPowerIndex := 0;
    var maxPower := 0.0;
    var index := 1;
    while index < end
      invariant end == 0 || 1 <= index <= end
      invariant end == 0 ==> maxPowerIndex == 0
      invariant end == 0 || (maxPowerIndex, maxPower) == Scan(frame, index)
    {
      var power := Power(frame[index]);
      if power > maxPower {
        maxPowerIndex := index;
        maxPower := power;
      }
      index := index + 1;
    }
  }

  /** The table `_choose_stall_indexes` returns: a leading zero row, then one
      row per test voltage in ascending order. */
  datatype StallTable = StallTable(
    testVoltage: seq<real>,
    time: seq<real>,
    current: seq<real>,
    voltage: seq<real>,
    torque: seq<real>)

  /** The frames for the first k test voltages are present and non-empty. */
  predicate UsableUpTo(stallFrames: map<int, seq<StallRow>>, k: nat)
    requires k <= |StallVoltages|
  {
    forall j :: 0 <= j < k ==> StallVoltages[j] in stallFrames && |stallFrames[StallVoltages[j]]| > 0
  }

  lemma UsableStep(stallFrames: map<int, seq<StallRow>>, k: nat)
    requires k < |StallVoltages| && UsableUpTo(stallFrames, k)
    requires StallVoltages[k] in stallFrames && |stallFrames[StallVoltages[k]]| > 0
    ensures UsableUpTo(stallFrames, k + 1)
  {
  }

  predicate StallFramesUsable(stallFrames: map<int, seq<StallRow>>)
  {
    UsableUpTo(stallFrames, |StallVoltages|)
  }

  /** The voltage loop stops at test voltage number k with error e: the
      frames before it are usable, and its own frame is missing (KeyError)
      or empty (IndexError, from `iloc` on an empty frame). */
  predicate FailsAt(stallFrames: map<int, seq<StallRow>>, k: nat, e: Error)
  {
    && k < |StallVoltages|
    && UsableUpTo(stallFrames, k)
    && var v := StallVoltages[k];
       if v !in stallFrames then e == KeyError(Decimal(v))
       else |stallFrames[v]| == 0 && e == IndexError
  }

  function PeakRow(frame: seq<StallRow>): (row: StallRow)
    requires |frame| > 0
    ensures row == frame[PeakIndex(frame)]
  {
    frame[PeakIndex(frame)]
  }

  /** The rows chosen for the first k test voltages, in voltage order. */
  function PickedRows(stallFrames: map<int, seq<StallRow>>, k: nat): (rows: seq<StallRow>)
    requires k <= |StallVoltages| && UsableUpTo(stallFrames, k)
    ensures |rows| == k
  {
    if k == 0 then []
    else PickedRows(stallFrames, k - 1) + [PeakRow(stallFrames[StallVoltages[k - 1]])]
  }

  datatype Quantity = Time | Current | Voltage | Torque

  function Get(row: StallRow, q: Quantity): real
  {
    match q
    case Time => row.time
    case Current => row.current
    case Voltage => row.voltage
    case Torque => row.torque
  }

  /** One column of a list of rows. */
  function ColumnOf(rows: seq<StallRow>, q: Quantity): (col: seq<real>)
    ensures |col| == |rows|
  {
    if |rows| == 0 then [] else ColumnOf(rows[..|rows| - 1], q) + [Get(rows[|rows| - 1], q)]
  }

  lemma {:induction false} ColumnOfAt(rows: seq<StallRow>, q: Quantity, i: nat)
    requires i < |rows|
    ensures ColumnOf(rows, q)[i] == Get(rows[i], q)
  {
    if i < |rows| - 1 {
      ColumnOfAt(rows[..|rows| - 1], q, i);
    }
  }

  lemma ColumnOfAppend(rows: seq<StallRow>, row: StallRow, q: Quantity)
    ensures ColumnOf(rows + [row], q) == ColumnOf(rows, q) + [Get(row, q)]
  {
    assert (rows + [row])[..|rows|] == rows;
  }

  /** Appending a row to the rows appends its fields to the four columns. */
  lemma AppendColumns(
    rows: seq<StallRow>, row: StallRow,
    time: seq<real>, current: seq<real>, voltage: seq<real>, torque: seq<real>)
    requires time == [0.0] + ColumnOf(rows, Time)
    requires current == [0.0] + ColumnOf(rows, Current)
    requires voltage == [0.0] + ColumnOf(rows, Voltage)
    requires torque == [0.0] + ColumnOf(rows, Torque)
    ensures time + [row.time] == [0.0] + ColumnOf(rows + [row], Time)
    ensures current + [row.current] == [0.0] + ColumnOf(rows + [row], Current)
    ensures voltage + [row.voltage] == [0.0] + ColumnOf(rows + [row], Voltage)
    ensures torque + [row.torque] == [0.0] + ColumnOf(rows + [row], Torque)
  {
    ColumnOfAppend(rows, row, Time);
    ColumnOfAppend(rows, row, Current);
    ColumnOfAppend(rows, row, Voltage);
    ColumnOfAppend(rows, row, Torque);
  }

  /** The voltages column for the first k test voltages. */
  function TestVoltages(k: nat): (col: seq<real>)
    requires k <= |StallVoltages|
    ensures |col| == k
  {
    if k == 0 then [] else TestVoltages(k - 1) + [StallVoltages[k - 1] as real]
  }

  lemma TestVoltagesStep(k: nat, testVoltage: seq<real>)
    requires k < |StallVoltages| && testVoltage == [0.0] + TestVoltages(k)
    ensures testVoltage + [StallVoltages[k] as real] == [0.0] + TestVoltages(k + 1)
  {
  }

  /** The stall table for frames that are all present and non-empty. */
  function StallTableOf(stallFrames: map<int, seq<StallRow>>): StallTable
    requires StallFramesUsable(stallFrames)
  {
    var rows := PickedRows(stallFrames, |StallVoltages|);
    StallTable(
      [0.0] + TestVoltages(|StallVoltages|),
      [0.0] + ColumnOf(rows, Time),
      [0.0] + ColumnOf(rows, Current),
      [0.0] + ColumnOf(rows, Voltage),
      [0.0] + ColumnOf(rows, Torque))
  }

  lemma {:induction false} PickedRowsAt(stallFrames: map<int, seq<StallRow>>, k: nat, j: nat)
    requires k <= |StallVoltages| && UsableUpTo(stallFrames, k) && j < k
    ensures PickedRows(stallFrames, k)[j] == PeakRow(stallFrames[StallVoltages[j]])
  {
    if j < k - 1 {
      PickedRowsAt(stallFrames, k - 1, j);
    }
  }

  /** Seven rows; row 0 all zeros; test voltages 0, 2, ..., 12 in order. */
  lemma StallTableLayout(stallFrames: map<int, seq<StallRow>>)
    requires StallFramesUsable(stallFrames)
    ensures var t := StallTableOf(stallFrames);
      && |t.testVoltage| == |t.time| == |t.current| == |t.voltage| == |t.torque| == 7
      && t.testVoltage == [0.0, 2.0, 4.0, 6.0, 8.0, 10.0, 12.0]
      && t.time[0] == t.current[0] == t.voltage[0] == t.torque[0] == 0.0
  {
  }

  /** Row k + 1 copies time, current, voltage and torque from one and the
      same row of the k-th test voltage's frame: its earliest peak. */
  lemma {:induction false} StallTableRow(stallFrames: map<int, seq<StallRow>>, k: nat)
    requires StallFramesUsable(stallFrames) && k < |StallVoltages|
    ensures var t := StallTableOf(stallFrames);
      var frame := stallFrames[StallVoltages[k]];
      var p := PeakIndex(frame);
      && p < |frame|
      && IsEarliestPeak(frame, WindowEnd(|frame|), p)
      && k + 1 < |t.time| == |t.current| == |t.voltage| == |t.torque|
      && t.time[k + 1] == frame[p].time
      && t.current[k + 1] == frame[p].current
      && t.voltage[k + 1] == frame[p].voltage
      && t.torque[k + 1] == frame[p].torque
  {
    var rows := PickedRows(stallFrames, |StallVoltages|);
    PeakIndexIsEarliestPeak(stallFrames[StallVoltages[k]]);
    PickedRowsAt(stallFrames, |StallVoltages|, k);
    ColumnOfAt(rows, Time, k);
    ColumnOfAt(rows, Current, k);
    ColumnOfAt(rows, Voltage, k);
    ColumnOfAt(rows, Torque, k);
  }

  /** The whole table at once: layout and every row. */
  lemma StallTableShape(stallFrames: map<int, seq<StallRow>>)
    requires StallFramesUsable(stallFrames)
    ensures var t := StallTableOf(stallFrames);
      && |t.testVoltage| == |t.time| == |t.current| == |t.voltage| == |t.torque| == 7
      && t.testVoltage == [0.0, 2.0, 4.0, 6.0, 8.0, 10.0, 12.0]
      && t.time[0] == t.current[0] == t.voltage[0] == t.torque[0] == 0.0
      && forall k :: 0 <= k < |StallVoltages| ==>
           var frame := stallFrames[StallVoltages[k]];
           var p := PeakIndex(frame);
           && p < |frame|
           && IsEarliestPeak(frame, WindowEnd(|frame|), p)
           && t.time[k + 1] == frame[p].time
           && t.current[k + 1] == frame[p].current
           && t.voltage[k + 1] == frame[p].voltage
           && t.torque[k + 1] == frame[p].torque
  {
    StallTableLayout(stallFrames);
    forall k | 0 <= k < |StallVoltages| {
      StallTableRow(stallFrames, k);
    }
  }

  /** `_choose_stall_indexes`: five lists appended once per test voltage. */
  method ChooseStallIndexes(stallFrames: map<int, seq<StallRow>>) returns (r: Result<StallTable>)
    ensures r.Success? <==> StallFramesUsable(stallFrames)
    ensures r.Success? ==> r.value == StallTableOf(stallFrames)
    ensures r.Failure? ==> exists k :: FailsAt(stallFrames, k, r.error)
  {
    var time, current, voltage, torque, testVoltage := [0.0], [0.0], [0.0], [0.0], [0.0];
    ghost var rows: seq<StallRow> := [];
    var k := 0;
    while k < |StallVoltages|
      invariant 0 <= k <= |StallVoltages|
      invariant UsableUpTo(stallFrames, k)
      invariant rows == PickedRows(stallFrames, k)
      invariant testVoltage == [0.0] + TestVoltages(k)
      invariant time == [0.0] + ColumnOf(rows, Time)
      invariant current == [0.0] + ColumnOf(rows, Current)
      invariant voltage == [0.0] + ColumnOf(rows, Voltage)
      invariant torque == [0.0] + ColumnOf(rows, Torque)
    {
      var testV := StallVoltages[k];
      if testV !in stallFrames {
        r := Failure(KeyError(Decimal(testV)));
        assert FailsAt(stallFrames, k, r.error);
        return;
      }
      var frame := stallFrames[testV];
      var maxPowerIndex := ChoosePeakIndex(frame);
      if maxPowerIndex >= |frame| {
        // iloc on an empty frame
        r := Failure(IndexError);
        assert FailsAt(stallFrames, k, r.error);
        return;
      }
      var row := frame[maxPowerIndex];
      AppendColumns(rows, row, time, current, voltage, torque);
      UsableStep(stallFrames, k);
      TestVoltagesStep(k, testVoltage);
      testVoltage := testVoltage + [testV as real];
      time := time + [row.time];
      current := current + [row.current];
      voltage := voltage + [row.voltage];
      torque := torque + [row.torque];
      rows := rows + [row];
      k := k + 1;
    }
    r := Success(StallTable(testVoltage, time, current, voltage, torque));
  }

  // ---------------------------------------------------------------------
  // Voltage-scaled fit
  // ---------------------------------------------------------------------

  /** `stall_df[yLabel]`: KeyError for a name that is not one of the columns. */
  function TableColumn(t: StallTable, yLabel: string): (r: Result<seq<real>>)
    ensures r.Failure? <==> yLabel !in {"test_voltage", "time", "current", "voltage", "torque"}
    ensures r.Failure? ==> r.error == KeyError(yLabel)
  {
    if yLabel == "test_voltage" then Success(t.testVoltage)
    else if yLabel == "time" then Success(t.time)
    else if yLabel == "current" then Success(t.current)
    else if yLabel == "voltage" then Success(t.voltage)
    else if yLabel == "torque" then Success(t.torque)
    else Failure(KeyError(yLabel))
  }

  /** Each value as a fraction of the value at row 6, the 12 V row.  With a
      zero there pandas yields infinities and NaN, which is NonFinite here. */
  function PercentOf12V(column: seq<real>): (r: Result<seq<real>>)
    ensures r.Success? <==> |column| > 6 && column[6] != 0.0
    ensures |column| <= 6 ==> r == Failure(IndexError)
    ensures |column| > 6 && column[6] == 0.0 ==> r == Failure(NonFinite)
    ensures r.Success? ==>
      && |r.value| == |column|
      && r.value[6] == 1.0
      && (column[0] == 0.0 ==> r.value[0] == 0.0)
      && forall i :: 0 <= i < |column| ==> r.value[i] * column[6] == column[i]
  {
    if |column| <= 6 then Failure(IndexError)
    else if column[6] == 0.0 then Failure(NonFinite)
    else Success(seq(|column|, i requires 0 <= i < |column| => column[i] / column[6]))
  }

  const VoltageScaledDegrees: seq<nat> := [1, 2, 3]

  /** `_gen_voltage_scaled_func`: the chosen samples' `y_label` column as a
      fraction of its 12 V value, fitted against measured voltage with the
      degrees 1, 2 and 3 only.  `solve` is the least-squares solver: given
      x, y and the degree list it returns one weight per degree. */
  method GenVoltageScaledFunc(
    stallFrames: map<int, seq<StallRow>>,
    yLabel: string,
    solve: (seq<real>, seq<real>, seq<nat>) -> seq<real>)
    returns (r: Result<seq<real>>)
    ensures r.Success? <==>
      && StallFramesUsable(stallFrames)
      && TableColumn(StallTableOf(stallFrames), yLabel).Success?
      && PercentOf12V(TableColumn(StallTableOf(stallFrames), yLabel).value).Success?
    ensures r.Success? ==>
      var t := StallTableOf(stallFrames);
      var percent := PercentOf12V(TableColumn(t, yLabel).value).value;
      && r.value == Poly.Expand(VoltageScaledDegrees, solve(t.voltage, percent, VoltageScaledDegrees))
      && |r.value| == 4
      && r.value[0] == 0.0
      && Poly.Eval(r.value, 0.0) == 0.0
  {
    var stall := ChooseStallIndexes(stallFrames);
    if stall.Failure? {
      return Failure(stall.error);
    }
    var column := TableColumn(stall.value, yLabel);
    if column.Failure? {
      return Failure(column.error);
    }
    var percent := PercentOf12V(column.value);
    if percent.Failure? {
      return Failure(percent.error);
    }
    var weights := solve(stall.value.voltage, percent.value, VoltageScaledDegrees);
    var coefs := Poly.Expand(VoltageScaledDegrees, weights);
    Poly.NoConstantTermVanishesAtZero(VoltageScaledDegrees, weights);
    r := Success(coefs);
  }

  /** The reference row of the percentage is the 12 V row of the table. */
  lemma PercentReferenceIs12V(stallFrames: map<int, seq<StallRow>>)
    requires StallFramesUsable(stallFrames)
    ensures StallTableOf(stallFrames).testVoltage[6] == MotorCurveVoltage
  {
  }
}
