# frc_rekt in Dafny

A model of the deterministic core of frc_rekt, a Python package that turns
VEX motor test data and a 120 A main-breaker datasheet into fitted curves for
FRC robot design. The model covers:

- the motor data-file paths, their header and unit normalisation, and the
  choice of one representative sample from each locked-rotor run;
- the voltage-scaled fit through the origin that is built on those samples;
- the tank-drive robot (`TankRobot`): unit conversions, battery sag, the PWM
  cap, the torque → force → acceleration chain, and the two fitted equations;
- the gearbox, wheel, battery, drivetrain and main-breaker components.

Least-squares fitting (`numpy.polynomial.polyfit`) is a caller-supplied
function `solve(x, y, degrees)` that returns a sequence of weights. Its
length is not constrained: weight i belongs to the i-th listed degree,
surplus weights are ignored and a missing weight counts as 0 when the
weights are placed by degree (`Poly.Expand`). The model proves only what holds for
every such solver. It states where
the weights are placed, the zero constant term of a `[1, 2, 3]` fit, and
what shifting the constant coefficient does.

Modules follow the source files:

| module | source |
|---|---|
| `Motor` | frc_rekt/motor.py |
| `LegacyMotor` | frc-rekt/motor.py (delegates to `Motor`, other data folder) |
| `TankModel` (class `TankRobot`) | frc_rekt/model.py |
| `Gearbox` (class `Gearbox`) | frc_rekt/gearbox.py |
| `Wheel`, `Battery`, `Drivetrain`, `MainBreaker` | frc_rekt/wheel.py, battery.py, drivetrain.py, main_breaker.py |
| `Tables` | the pandas operations the motor code uses (`rename`, column read, column divide) |
| `Poly` | numpy power-series polynomials: evaluation, degree-list expansion |
| `Text` | Python's decimal rendering of an `int` in `str.format` |
| `Outcomes` | `Result` and `Error` standing in for Python exceptions |

Numbers are Dafny `real`s, not IEEE doubles. A Python exception is a
`Failure` carrying `KeyError(key)`, `IndexError`, `ZeroDivisionError` or
`TypeError`. Where pandas would go on with an infinity or NaN, the model
returns `Failure(NonFinite)`.

The pandas index of a stall frame is taken to be 0-based, so an `iterrows`
label equals its `iloc` position.

Stateful parts of the source are imperative in the model:

- `_choose_stall_indexes` is a loop over the test voltages. Its inner loop keeps a running maximum.
- `max_pwm_allowed` and the per-speed PWM column are `for` loops appending to a list.
- `mechanical_advantage` multiplies an accumulator in a loop.
- The `TankRobot` constructor fills fields of a class.
- The two `find_*` methods write their curve columns into fields.
- The reserve shift updates coefficient 0 of an array in place.

Each of these methods is proved equal to a specification function. The
properties are then proved about those functions.

## Model

| member | source | states |
|---|---|---|
| Motor.DataPath | frc_rekt/motor.py:51-76 | Succeeds exactly for the four known motor types, otherwise KeyError of the type; a truthy voltage gives `{folder}/{type}/{type}-locked-rotor-data-{v}v-{stall date}.csv`, None or 0 gives `{folder}/{type}/{type}-motor-curve-data-{curve date}.csv` |
| Motor.FileName | frc_rekt/motor.py:51-79 | Succeeds exactly for a known motor type, KeyError of the type otherwise; the locked-rotor path under `data/vex` for a truthy voltage, the motor-curve path under `data/vex` otherwise |
| Motor.ZeroVoltageIsCurve | frc_rekt/motor.py:67 | Voltage 0 is falsy: it names the same file as no voltage |
| Motor.StallPathsDistinct | frc_rekt/motor.py:68-76 | Different test voltages give different locked-rotor paths |
| Motor.CurvePathIsNotAStallPath | frc_rekt/motor.py:66-76 | The motor-curve path is never a locked-rotor path |
| Motor.DataPathsDistinct | frc_rekt/motor.py:65-76 | For a known type, distinct non-zero voltages give distinct paths, and none equals the curve path |
| Text.DecimalRoundTrip | frc_rekt/motor.py:68 | The decimal rendering of the voltage in the file name reads back as that voltage |
| Text.DecimalInjective | frc_rekt/motor.py:68 | Distinct integers render to distinct decimal strings |
| Tables.Renamed | frc_rekt/motor.py:91-101 | A listed header becomes its mapped name; an unlisted header is kept |
| Tables.Rename | frc_rekt/motor.py:91-101 | Every header is renamed by the map, header count and column data are unchanged |
| Tables.RenameIdempotent | frc_rekt/motor.py:91-101 | Renaming twice equals renaming once when no target name is itself a key |
| Motor.CurveRenamesIdempotent | frc_rekt/motor.py:91-101 | The curve header map is idempotent: the canonical names are not vendor headers |
| Motor.StallRenamesIdempotent | frc_rekt/motor.py:119-134 | The stall header map is idempotent |
| Tables.Column | frc_rekt/motor.py:103-104 | Reading a column succeeds exactly when a column has that name and returns that column; KeyError of the name otherwise |
| Tables.DivideColumn | frc_rekt/motor.py:103-106 | Succeeds exactly when the column exists (KeyError otherwise); that column is divided element-wise, every other column and every length is unchanged |
| Motor.NormalizeCurve | frc_rekt/motor.py:91-106 | Headers renamed; succeeds exactly when `speed` and `efficiency` exist after renaming (KeyError for the first missing); speed ×60 and efficiency ×100 give back the raw values; other columns and row counts unchanged |
| Motor.GetStallFrames | frc_rekt/motor.py:110-137 | KeyError of the type exactly for an unknown motor type; otherwise one frame for each test voltage 2..12 and no other key, each the loaded locked-rotor file of that voltage with its headers renamed |
| Motor.ReadRows | frc_rekt/motor.py:171-183 | Reading `time`, `current`, `voltage` and `torque` succeeds exactly when all four columns exist, KeyError for the first missing one; one row per data row, row i holding the i-th entry of each column |
| Motor.StallRows | frc_rekt/motor.py:119-183 | The same for a frame whose headers are renamed first (renaming at lines 119-134, column reads at 171 and 177-183): the four columns are looked up among the renamed headers, and row i holds the i-th entries of the renamed time, current, voltage and torque columns |
| Motor.PeakIndex | frc_rekt/motor.py:167-174 | The chosen index is below 10 and inside a non-empty frame |
| Motor.ScanFindsEarliestPeak | frc_rekt/motor.py:168-174 | The running maximum starting at (0, 0) with strict `>` ends on the earliest row of maximal positive power among the scanned rows, or on 0 when none is positive; the kept power is that row's |
| Motor.PeakIndexIsEarliestPeak | frc_rekt/motor.py:167-174 | Over rows 1..9 the choice is the earliest row whose power is at least every scanned power and strictly above every earlier one; row 0 when no scanned power exceeds 0 |
| Motor.EarliestPeakUnique | frc_rekt/motor.py:170-174 | At most one index satisfies the earliest-peak property, so it determines the choice |
| Motor.PeakIgnoresUnscannedRows | frc_rekt/motor.py:167-171 | Two frames whose rows 1..9 have the same current × voltage get the same choice: row 0, rows from 10 on and other fields have no influence |
| Motor.ChoosePeakIndex | frc_rekt/motor.py:167-174 | The inner running-maximum loop returns the earliest peak index |
| Motor.StallTableLayout | frc_rekt/motor.py:157-192 | The table has 7 rows; test voltages are 0, 2, 4, 6, 8, 10, 12 in order; row 0 is all zeros |
| Motor.StallTableRow | frc_rekt/motor.py:166-183 | Row k+1 copies time, current, voltage and torque from one and the same row of the k-th frame, its earliest peak |
| Motor.StallTableShape | frc_rekt/motor.py:156-192 | The layout and every row of the table at once |
| Motor.ChooseStallIndexes | frc_rekt/motor.py:156-192 | Succeeds exactly when every test voltage has a non-empty frame, returning the specified table; otherwise fails at the first bad voltage with KeyError (missing) or IndexError (empty) |
| Motor.TableColumn | frc_rekt/motor.py:198 | Reading a stall-table column fails with KeyError exactly for a name not among its five columns |
| Motor.PercentOf12V | frc_rekt/motor.py:198-199 | IndexError with fewer than 7 rows, non-finite with a zero 12 V value; otherwise each value times the row-6 value is the original, row 6 is 1 and a zero row 0 stays 0 |
| Motor.PercentReferenceIs12V | frc_rekt/motor.py:166-199 | Row 6 of the table, the percentage reference, is the 12 V row |
| Motor.GenVoltageScaledFunc | frc_rekt/motor.py:194-206 | Succeeds exactly when the table, the column and the percentage do; the result is the `[1, 2, 3]` fit of the percentage against voltage, 4 coefficients, constant term 0, value 0 at 0 V |
| Poly.Expand | frc_rekt/motor.py:202-205 | A fit over a degree list places weight i at degree deg[i] in a vector of length max degree + 1 and zero at unlisted degrees |
| Poly.NoConstantTermVanishesAtZero | frc_rekt/motor.py:202-205 | A degree list without 0 gives constant coefficient 0, so the polynomial is 0 at 0 |
| Poly.FullDegrees | frc_rekt/model.py:217 | An integer degree d stands for the degrees 0..d |
| LegacyMotor.GetFileName | frc-rekt/motor.py:41-74 | The same path rule under `vex_data`: KeyError for an unknown type, locked-rotor file for a truthy voltage, curve file otherwise |
| LegacyMotor.SameFileOtherFolder | frc-rekt/motor.py:46 | The old and new code agree on which types succeed but never name the same path |
| LegacyMotor.GetCurveFrame | frc-rekt/motor.py:86-101 | Headers renamed by the curve map; succeeds exactly when `speed` and `efficiency` exist after renaming, KeyError for the first missing one; speed ÷60 and efficiency ÷100, other columns and row counts unchanged |
| LegacyMotor.ChooseStallIndexes | frc-rekt/motor.py:153-189 | Succeeds exactly for usable frames; 7 rows, zero row first, voltages 0..12 in order, row k+1 from the earliest peak of rows 1..9 |
| LegacyMotor.GenerateVoltageScaledFunction | frc-rekt/motor.py:191-208 | On success the frames were usable and the fit has constant term 0 and value 0 at 0 V; unusable frames fail |
| TankModel.CurveFile | frc_rekt/model.py:81-93 | The curve file of `cim`, `mini_cim`, `775pro` or `bag`; KeyError for any other type |
| TankModel.PwmLimit | frc_rekt/model.py:129-133 | At or above the limit, cap × current equals the limit; below it, the cap is 1 |
| TankModel.PwmLimitBounds | frc_rekt/model.py:123-134 | With a positive limit and current: the cap is 1 exactly when the current is within the limit, else limit ÷ current, strictly between 0 and 1 |
| TankModel.TankRobot.BatteryVoltageUnderLoad | frc_rekt/model.py:118-121 | Terminal voltage plus the drop current × R is the nominal voltage |
| TankModel.TankRobot.NoCurrentNominalVoltage | frc_rekt/model.py:118-121 | Zero current gives the nominal voltage |
| TankModel.TankRobot.MaxCurrent | frc_rekt/model.py:124-126 | The limit current is the one at which the battery sags to the allowed minimum |
| TankModel.TankRobot.MaxPwmColumn | frc_rekt/model.py:123-134 | ZeroDivisionError when R is 0; non-finite when a zero current reaches the limit; otherwise same length and order as the input, each entry the cap of its current |
| TankModel.TankRobot.MaxPwmAllowed | frc_rekt/model.py:123-134 | The appending loop returns exactly that column or error |
| TankModel.TankRobot.WheelTorque | frc_rekt/model.py:136-140 | Wheel torque × 12 V is curve torque × motor voltage × motors per side × gear ratio × efficiency |
| TankModel.TankRobot.WheelTorqueScalesWithVoltage | frc_rekt/model.py:136-140 | Wheel torque is linear in motor voltage and at 12 V equals curve torque × motors per side × gear ratio × efficiency |
| TankModel.TankRobot.SideWheelForce | frc_rekt/model.py:142-146 | Side force times the diameter is twice the wheel torque (torque over radius) |
| TankModel.TankRobot.TotalWheelForce | frc_rekt/model.py:148-149 | Total force times the diameter is four times the wheel torque (two sides) |
| TankModel.TankRobot.Acceleration | frc_rekt/model.py:151-153 | Acceleration times mass is the force |
| TankModel.TankRobot.RobotAcceleration | frc_rekt/model.py:155-159 | Acceleration times mass is total wheel force times PWM |
| TankModel.TankRobot.NoPwmNoAcceleration | frc_rekt/model.py:155-159 | Zero PWM gives zero acceleration |
| TankModel.TankRobot.RobotVelocity | frc_rekt/model.py:161-162 | Velocity times gear ratio is motor speed × wheel diameter × π |
| TankModel.TankRobot.TotalCurrent | frc_rekt/model.py:102 | Total current of each row is the curve current × 2 × motors per side |
| TankModel.TankRobot.CurveOf | frc_rekt/model.py:95-116 | Building the table succeeds exactly when the PWM column does, propagates its error, and gives aligned columns of the data's length with the data's current and torque columns carried over unchanged |
| TankModel.TankRobot.CurveRow | frc_rekt/model.py:100-114 | Each row: speed ×60 is the rev/min speed, total current, battery sag, PWM cap of the total current, velocity and acceleration as specified |
| TankModel.TankRobot.GenerateMotorCurve | frc_rekt/model.py:95-116 | The method builds exactly that table or error |
| TankModel.ReserveTargetsBelowFit | frc_rekt/model.py:224-230 | The targets keep coefficients 1..3 of the cubic fit and lie the reserve × first-row acceleration below the fit at every speed |
| TankModel.TankRobot.FindVoltageLimitedAccelerationEquation | frc_rekt/model.py:211-235 | TypeError (fields untouched) exactly on an empty curve; otherwise returns the reserve-shifted fit and stores the fit and target columns at every speed |
| TankModel.LimitedRows | frc_rekt/model.py:166-169 | The rows with PWM below 1, each in range, strictly increasing, and every such row listed |
| TankModel.LastLimitedRow | frc_rekt/model.py:166-175 | No limited rows exactly when every PWM is at least 1; otherwise the last limited row is the last capped row of the table |
| TankModel.MaxPwmEquationOf | frc_rekt/model.py:164-202 | The pass-through exactly when no row's PWM is below 1; otherwise a piecewise equation whose quadratic has three coefficients |
| TankModel.Apply | frc_rekt/model.py:198-202 | The returned function is 1 for the pass-through and from the transition speed on, and the quadratic below the transition |
| TankModel.NoCapMeansFullPwm | frc_rekt/model.py:191-202 | With no capped row the equation is the pass-through, 1 at every speed |
| TankModel.TransitionAtLastCappedRow | frc_rekt/model.py:171-175 | With a capped row, the equation is piecewise and its transition is the speed of the last capped row |
| TankModel.FullPwmFromTransitionRow | frc_rekt/model.py:198-202 | On a speed-ordered curve the equation is 1 at the last capped row's speed and at every later row's |
| TankModel.TankRobot.FindMaxPwmAllowedEquation | frc_rekt/model.py:164-209 | Returns the specified piecewise equation and stores its value at every curve speed, in order |
| TankModel.TankRobot.constructor | frc_rekt/model.py:33-64 | mass in kg (×0.453592), diameter in m (×0.0254), perimeter = diameter × π, motors = 2 × per side, curve voltage 12, other parameters as given; then the motor curve, the reserve-shifted acceleration equation, the PWM equation, and the three columns they add: the acceleration fit and the targets at every speed, and the PWM equation's value at every speed |
| TankModel.TankRobot.FitEquations | frc_rekt/model.py:62-64 | Stores the reserve-shifted acceleration equation and the PWM equation with the fit, target and PWM-equation columns at every curve speed |
| Gearbox.Gearbox.constructor | frc_rekt/gearbox.py:27-46 | None or an empty list becomes the gears (14, 50), (16, 48) and three default motors; efficiency stored as given |
| Gearbox.Gearbox.MechanicalAdvantage | frc_rekt/gearbox.py:49-56 | The running product equals the product of driven ÷ driving over all pairs; ZeroDivisionError exactly when a pair has 0 driving teeth |
| Gearbox.AdvantageAppend | frc_rekt/gearbox.py:52-56 | Appending a pair multiplies the advantage by its ratio |
| Gearbox.AdvantageConcat | frc_rekt/gearbox.py:52-56 | Two trains in series have the product of their advantages |
| Gearbox.AdvantageRemove | frc_rekt/gearbox.py:52-56 | Removing pair i divides the advantage by its ratio |
| Gearbox.AdvantagePositive | frc_rekt/gearbox.py:52-56 | Positive tooth counts give a positive advantage |
| Gearbox.AdvantagePermutation | frc_rekt/gearbox.py:53-55 | Reordering the pairs does not change the advantage |
| Gearbox.DefaultAdvantage | frc_rekt/gearbox.py:40-42 | The default train's advantage is 75/7 |
| Gearbox.DefaultGearboxAdvantage | tests/test_gearbox.py:7-9 | `Gearbox().mechanical_advantage` is 75/7 |
| Wheel.NewWheel | frc_rekt/wheel.py:25-38 | Friction and torque stored as given (the diameter in metres) |
| Wheel.Diameter | frc_rekt/wheel.py:46-49 | The reported inches times 0.0254 is the stored metres |
| Wheel.DiameterRoundTrip | frc_rekt/wheel.py:36-49 | The diameter a wheel is built with is the one it reports |
| Wheel.NewtonForce | frc_rekt/wheel.py:51-54 | ZeroDivisionError exactly for a zero diameter; otherwise force × diameter is twice the torque |
| Wheel.Force | frc_rekt/wheel.py:56-59 | The same error; otherwise force × diameter is 2 × torque × 0.737562149277 |
| Wheel.ForceLinearInTorque | frc_rekt/wheel.py:51-59 | Scaling the torque scales the force by the same factor |
| Wheel.ZeroTorqueNoForce | frc_rekt/wheel.py:51-59 | Zero torque gives zero force |
| Wheel.DefaultWheel | tests/test_wheel.py:8-13 | `Wheel()` reports diameter 4, friction 1.3, torque 0 and force 0 |
| Battery.NewBattery | frc_rekt/battery.py:25-42 | Starting voltage, load and resistance stored unchanged |
| Battery.Voltage | frc_rekt/battery.py:45-49 | Voltage plus load × resistance is the starting voltage |
| Battery.NoLoadNoDrop | frc_rekt/battery.py:45-49 | Zero load gives the starting voltage |
| Battery.DefaultVoltage | tests/test_battery.py:17-18 | `Battery().voltage()` is 13.2 |
| Battery.VoltageFallsWithLoad | frc_rekt/battery.py:49 | With positive resistance, more load gives a strictly lower voltage |
| Drivetrain.NewDrivetrain | frc_rekt/drivetrain.py:28-50 | A missing wheel or motor is replaced by the default one; given ones are kept |
| Drivetrain.Length | frc_rekt/drivetrain.py:61-64 | The reported inches times 0.0254 is the stored metres |
| Drivetrain.Width | frc_rekt/drivetrain.py:66-69 | The reported inches times 0.0254 is the stored metres |
| Drivetrain.DimensionsRoundTrip | frc_rekt/drivetrain.py:43-44 | Length and width read back as given in inches |
| Drivetrain.DefaultDrivetrain | frc_rekt/drivetrain.py:28 | `Drivetrain()` has the default wheel and motor and a 34 by 28 inch base |
| MainBreaker.FileName | frc_rekt/main_breaker.py:41-45 | The path is `data/data_sheets/120-main-breaker-{datatype}-{boundary}.csv`: under `data/data_sheets/120-main-breaker-` and ending in `.csv` |
| MainBreaker.FileNameInjective | frc_rekt/main_breaker.py:41-45 | `data/data_sheets/120-main-breaker-{datatype}-{boundary}.csv` determines a dash-free datatype and the boundary |
| MainBreaker.GetFrame | frc_rekt/main_breaker.py:49-59 | The frame is the loaded file, unmodified |
| MainBreaker.Frames | frc_rekt/main_breaker.py:61-73 | Keys exactly `min` and `max`, each the table for that boundary of the datatype |
| MainBreaker.NewMainBreaker | frc_rekt/main_breaker.py:27-37 | Ambient temperature stored; temp-derate and trip-time frame maps loaded |
| MainBreaker.FourDistinctFiles | frc_rekt/main_breaker.py:61-73 | The four datasheet tables come from four different files |

## Left out

- Least-squares fitting: `polyfit` is the `solve` parameter. Nothing is proved about the quality of the fit.
- `_generate_basic_function` / `generate_basic_function`, the degree-1 current and torque fits against speed: they are bare fits with nothing to state beyond `solve`.
- Reading CSV files and detecting their encoding: file reading is the input data (`Frame`, `CurveData`, the stall frames, the `load` parameter). `get_file_encoding` is not part of this model.
- Logging, pandas display options, `__str__`/`__repr__` and the `print` output of `find_max_pwm_allowed_equation`.
- Plotting (`plot`, `plot_func`, `plot_fit`).
- The module-level script and the commented-out controller in frc_rekt/model.py.
- frc-rekt/main_breaker.py is not part of this model: it calls functions it does not define.
- vex_data/download_curves.py (network download and unzipping) is not part of this model.
- The breaker's derating and trip-time fits: frc_rekt/main_breaker.py does not define them.
- `Motor` construction loading its files: other components hold a motor as `MotorSpec(type, speed, voltage)`. `Motor()` is the `cim` spec at speed and voltage 0.
- Floating-point behaviour: all arithmetic is exact over the reals, so `Gearbox().mechanical_advantage` is 75/7 rather than its double. `math.pi` is the constant 3.141592653589793.
- Non-finite values: where pandas or numpy would carry an infinity or NaN, the model fails with `NonFinite`. This applies to a 12 V reference value of 0 and a zero current at a non-positive limit.
- pandas index labels: a stall frame's index is taken to be 0, 1, 2, … so the `iterrows` label equals the `iloc` position.
- Motor.ReadRows: when a frame has two columns of one name, the model reads the first of them. pandas returns all of them, so the source then fails comparing powers (ValueError at frc_rekt/motor.py:171-172) or stores a Series in the table (line 177).
- Motor.StallRows: `StallRenames` maps two vendor spellings to each canonical name (`Amps` and `Current (A)` both become `current`). A file with both spellings therefore yields a duplicated column, which the model reads as its first column, where the source fails as described for `Motor.ReadRows`.
- Vendor curve columns the robot does not use: `CurveData` holds only speed, current and torque.
- A curve file without a `speed`, `current` or `torque` column: `generate_motor_curve` would raise KeyError for it, but `CurveData` always has the three columns, so the model cannot express that input.
- Motor.ChooseStallIndexes: it takes the locked-rotor frames already read into rows (`StallRows`). For a renamed frame that lacks one of the four columns, the source fails inside `_choose_stall_indexes`. An empty frame raises IndexError from `iloc[0]` (frc_rekt/motor.py:177) before any column is read. A non-empty frame raises KeyError, and which column it names depends on the frame's length (`current` first when rows beyond the first exist). The model reports the first missing column in the order time, current, voltage, torque.
- TankModel.TankRobot.constructor: it requires what the formulas it calls need. Mass, gear ratio, wheel diameter and internal resistance must be non-zero, the motor type must have a curve file, the data non-empty and rectangular, and every PWM cap finite. The source would raise or carry NaN in those cases.
- TankModel.TankRobot.WheelTorque and the other force and acceleration functions require the converted parameters to be consistent (`Physical`). This is the state the constructor establishes.
- LegacyMotor.GenerateVoltageScaledFunction: it states the zero intercept and the success condition only in one direction; the exact fit is in Motor.GenVoltageScaledFunc.
- The frames the source stores on the `TankRobot` and `Motor` objects are not aliased or shared in the model. Each column is a value.
