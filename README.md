# Drivetrain subsystem: velocity arcade mixer and drivetrain state

This project models the `Drivetrain` subsystem of a 2022 FRC robot. It covers:

- the arithmetic `arcadeDriveVelocity` uses to turn two joystick axes
  (throttle and rotation) into left and right velocity setpoints, in encoder
  ticks per 100 ms;
- the subsystem state around that mixer: the encoder positions of the two
  main motor controllers, their slot-0 PIDF gains, the four live-tunable
  dashboard entries `driveP`, `driveI`, `driveD` and `driveF`, and the last
  velocity setpoints sent.

The project has two modules:

- `ArcadeMixer` (`mixer.dfy`) holds the pure mixing math.
  - `Mix` is the whole mixer as a function. It is built from `ShapeAxis`
    (clamp, 0.2 deadband with rescaling, signed square), `Shape` (both axes)
    and `Quadrant` (the four-way rule that pins one side to 1.0).
  - `ShapeSticks` and `QuadrantOutputs` are methods that reassign `xSpeed`,
    `zRotation`, `leftOutput` and `rightOutput` step by step, as the Java
    method does. Each is proved equal to its function.
  - The lemmas state the mixer's properties.
- `DrivetrainSubsystem` (`drivetrain.dfy`) holds the class `Drivetrain`.
  - Its fields are the tick counts, the gains of both controllers, the
    dashboard entries and the two setpoints.
  - Its methods are `ResetDistance`, `SetPID`, `SetPIDFromStore` (the
    no-argument `setPID()`), `Periodic` and `ArcadeDriveVelocity`.
  - `LeftDistance`, `RightDistance` and `TotalDistance` are functions that
    read the fields.

Java `double` is modelled as `real`. `MathUtil.clamp` is `max(low, min(v, high))`.
`Math.copySign` takes the magnitude of its first argument and the sign of its second.

The model follows the code as written, including two behaviours a reader may
not expect:

- **The rotation deadband zeroes the throttle.** When the clamped rotation lies
  inside the deadband, the `else` branch clears `xSpeed`, not `zRotation`
  (`Drivetrain.java:189`). The throttle is lost, and the rotation is squared
  without rescaling, so it stays within [-0.04, 0.04].
- **The same side is pinned in two quadrants.** The left side is pinned to 1.0
  whenever the shaped axes agree in sign, in both the
  "both non-negative" and "both negative" quadrants. The pinned value is
  always +1.0, so the mixer is not point-symmetric.

As a result:

- full throttle with a centred rotation stick gives (100, 0), not full forward;
- centred sticks give (100, 0), not a stop;
- with both sticks outside the deadband, negating both sticks keeps the same
  side at +100 and negates only the other side;
- with either stick inside its deadband (and the rotation not centred), the
  shaped throttle is 0 and negating both sticks swaps the two setpoints, so
  the pinned side moves to the other wheel.

`CentredRotationMix`, `MixNegatedSticks` and
`MixNegatedInsideDeadband` state these results. A textbook arcade mix
would behave symmetrically here; the model follows the code.

`ShapeSticks` is proved equal to `Shape` through small step lemmas
(`ShapeAxisSteps`, `ShapeSteps`, `ShapeOutsideRotationDeadband`,
`ShapeInsideRotationDeadband`), and `ArcadeDriveVelocity` is proved equal to
`Mix` through `MixSteps`. These lemmas only unfold the definitions and state
nothing beyond them.

On the dashboard side, `ReadEntry` is the definition of `getDouble(0)` (an
entry's value, or 0 when it has none), and `StoreGains` reads the four entries
in P, I, D, F order. What the reads promise together with the writes of
`PushGains` is stated by `PushThenReadGains`, `PullPushKeepsReadings` and
`PullPushOnFullStore`.

## Model

| member | source | states |
|---|---|---|
| ArcadeMixer.Clamp | src/main/java/frc/robot/subsystems/Drivetrain.java:169 | for low <= high the result lies in [low, high]; a value already in range is returned unchanged; a value below or above gives the nearer bound |
| ArcadeMixer.Unit | src/main/java/frc/robot/subsystems/Drivetrain.java:169-181 | clamping a stick to [-1, 1]: the result lies in [-1, 1], an input in range is unchanged, and inputs beyond either end give that end |
| ArcadeMixer.CopySign | src/main/java/frc/robot/subsystems/Drivetrain.java:179 | the result has the magnitude of the first argument and the sign of the second; it is non-zero when the magnitude is |
| ArcadeMixer.Rescale | src/main/java/frc/robot/subsystems/Drivetrain.java:170-175 | maps (0.2, 1] into (0, 1] and [-1, -0.2) into [-1, 0); the deadband edge moves to 0 (result times 0.8 equals v minus or plus 0.2) |
| ArcadeMixer.DeadbandRescale | src/main/java/frc/robot/subsystems/Drivetrain.java:169-178 | the result is 0 exactly when abs(v) <= 0.2, and positive exactly when v > 0.2; an input in [-1, 1] gives a result in [-1, 1] |
| ArcadeMixer.SignedSquare | src/main/java/frc/robot/subsystems/Drivetrain.java:179 | the magnitude of the result is v*v; it has the sign of v and is 0 only at 0; [-1, 1] maps into [-1, 1] |
| ArcadeMixer.ShapeAxis | src/main/java/frc/robot/subsystems/Drivetrain.java:169-179 | the shaped throttle lies in [-1, 1]; it is 0 exactly when the clamped input lies inside the deadband, and positive exactly when the clamped input exceeds 0.2 |
| ArcadeMixer.Quadrant | src/main/java/frc/robot/subsystems/Drivetrain.java:193-211 | when the two axes agree in sign (zero counted as non-negative) left is 1.0 and right is x - z; otherwise left is x + z and right is 1.0 |
| ArcadeMixer.Mix | src/main/java/frc/robot/subsystems/Drivetrain.java:165-214 | for every real throttle and rotation, both velocity setpoints lie in [-100, 100] |
| ArcadeMixer.ShapeFacts | src/main/java/frc/robot/subsystems/Drivetrain.java:169-191 | the contract of Shape, the two-axis shaping: both shaped axes lie in [-1, 1]; outside the rotation deadband each axis is ShapeAxis of its input; inside it the throttle is 0 and the rotation is the signed square of the clamped value; a zero shaped rotation means a zero shaped throttle |
| ArcadeMixer.ShapeSticks | src/main/java/frc/robot/subsystems/Drivetrain.java:160-191 | the step-by-step reassignment of xSpeed and zRotation ends with exactly the two axes Shape defines |
| ArcadeMixer.QuadrantOutputs | src/main/java/frc/robot/subsystems/Drivetrain.java:193-211 | the nested quadrant branches assign exactly the outputs Quadrant defines |
| ArcadeMixer.ShapeAxisPositive | src/main/java/frc/robot/subsystems/Drivetrain.java:169-179 | for a clamped input v in (0.2, 1] the shaped value is ((v - 0.2) / 0.8)^2 and lies in (0, 1] |
| ArcadeMixer.UnitOdd | src/main/java/frc/robot/subsystems/Drivetrain.java:169 | clamping to [-1, 1] commutes with negation |
| ArcadeMixer.DeadbandRescaleOdd | src/main/java/frc/robot/subsystems/Drivetrain.java:170-178 | the deadband with rescaling commutes with negation |
| ArcadeMixer.SignedSquareOdd | src/main/java/frc/robot/subsystems/Drivetrain.java:179 | the signed square commutes with negation |
| ArcadeMixer.ShapeAxisOdd | src/main/java/frc/robot/subsystems/Drivetrain.java:169-179 | a negative input gives the negated mirror of the positive one |
| ArcadeMixer.ShapeAxisSaturates | src/main/java/frc/robot/subsystems/Drivetrain.java:169-179 | inputs at or beyond +1 give exactly 1 and at or beyond -1 give exactly -1; every input shapes like its clamped value |
| ArcadeMixer.ShapeAxisStrictlyIncreasing | src/main/java/frc/robot/subsystems/Drivetrain.java:169-179 | on (0.2, 1] the shaping curve is strictly increasing |
| ArcadeMixer.ShapeAxisMonotone | src/main/java/frc/robot/subsystems/Drivetrain.java:169-179 | over all reals the shaping curve never decreases |
| ArcadeMixer.ThrottleDeadband | src/main/java/frc/robot/subsystems/Drivetrain.java:169-179 | a clamped throttle with magnitude at most 0.2 gives a shaped throttle of 0 |
| ArcadeMixer.RotationDeadbandQuirk | src/main/java/frc/robot/subsystems/Drivetrain.java:181-191 | a clamped rotation with magnitude at most 0.2 zeroes the shaped throttle whatever the throttle; the shaped rotation is the signed square of the unrescaled clamped value and lies in [-0.04, 0.04] |
| ArcadeMixer.CentredRotationMix | src/main/java/frc/robot/subsystems/Drivetrain.java:188-197 | with rotation 0, every throttle gives left 100 and right 0; in particular full throttle (1, 0) and centred sticks (0, 0) both give (100, 0) |
| ArcadeMixer.FullRotationNoThrottle | src/main/java/frc/robot/subsystems/Drivetrain.java:181-214 | throttle 0 with rotation 1 gives left 100 and right -100 |
| ArcadeMixer.MixPinsOneSide | src/main/java/frc/robot/subsystems/Drivetrain.java:193-214 | when the shaped axes agree in sign, left is exactly 100 and right is 100 * clamp(x - z) and below 100; otherwise right is exactly 100 and left is 100 * clamp(x + z) and below 100 |
| ArcadeMixer.MixExactlyOnePinned | src/main/java/frc/robot/subsystems/Drivetrain.java:193-214 | exactly one of the two setpoints equals 100 |
| ArcadeMixer.MixClampsInputs | src/main/java/frc/robot/subsystems/Drivetrain.java:169-181 | throttle and rotation beyond full scale mix exactly like full scale |
| ArcadeMixer.ShapeNegated | src/main/java/frc/robot/subsystems/Drivetrain.java:169-191 | with both clamped inputs outside the deadband, negating the sticks negates both shaped axes, and both are non-zero |
| ArcadeMixer.QuadrantNegated | src/main/java/frc/robot/subsystems/Drivetrain.java:193-211 | negating two non-zero axes keeps the pinned side at 1.0 and negates the other output |
| ArcadeMixer.MixNegatedSticks | src/main/java/frc/robot/subsystems/Drivetrain.java:193-214 | with both clamped inputs outside the deadband, negating both sticks keeps the same side at +100 and negates the other side's setpoint |
| ArcadeMixer.MixNegatedInsideDeadband | src/main/java/frc/robot/subsystems/Drivetrain.java:169-214 | with the throttle or the rotation inside its deadband and a non-zero clamped rotation, negating both sticks swaps the two setpoints, so the pinned side moves; left is pinned exactly when the clamped rotation is positive |
| ArcadeMixer.NegatedShapeInsideDeadband | src/main/java/frc/robot/subsystems/Drivetrain.java:169-191 | with either stick inside its deadband and a non-zero clamped rotation, the shaped throttle is 0 for the sticks and for their negation, and the shaped rotation is negated, lies in [-1, 1], is non-zero and has the sign of the clamped rotation |
| ArcadeMixer.MixWithoutThrottle | src/main/java/frc/robot/subsystems/Drivetrain.java:193-214 | with a shaped throttle of 0, a non-negative shaped rotation z gives (100, -100 z) and a negative one gives (100 z, 100) |
| DrivetrainSubsystem.PushGains | src/main/java/frc/robot/subsystems/Drivetrain.java:136-139 | after the four setDouble calls, all four entries have a value |
| DrivetrainSubsystem.TicksToMeters | src/main/java/frc/robot/subsystems/Drivetrain.java:82-93 | the distance times 4096 is the tick count times the wheel circumference: ticks / 4096 revolutions of one circumference each |
| DrivetrainSubsystem.TicksToMetersLinear | src/main/java/frc/robot/subsystems/Drivetrain.java:82-93 | the tick-to-metre conversion is additive and scales with integer factors, and 0 ticks is 0 m |
| DrivetrainSubsystem.TicksToMetersRoundTrip | src/main/java/frc/robot/subsystems/Drivetrain.java:82-93 | for a non-zero circumference the distance gives back the tick count, and 4096 ticks per turn is one circumference per turn |
| DrivetrainSubsystem.PushThenReadGains | src/main/java/frc/robot/subsystems/Drivetrain.java:110-139 | reading the dashboard right after pushing gains gives those gains |
| DrivetrainSubsystem.PullPushKeepsReadings | src/main/java/frc/robot/subsystems/Drivetrain.java:108-140 | writing back the gains read from the dashboard changes no reading and no entry that had a value; an entry without a value gets 0 |
| DrivetrainSubsystem.PullPushOnFullStore | src/main/java/frc/robot/subsystems/Drivetrain.java:108-140 | once every entry has a value, writing back what was read leaves the dashboard unchanged |
| DrivetrainSubsystem.Drivetrain.GainsSynced | src/main/java/frc/robot/subsystems/Drivetrain.java:124-140 | the invariant that both controllers hold the same gains and those are the getDouble(0) readings of the four dashboard entries; the constructor, SetPID, SetPIDFromStore and Periodic establish it, and ResetDistance and ArcadeDriveVelocity preserve it |
| DrivetrainSubsystem.Drivetrain.LeftDistance | src/main/java/frc/robot/subsystems/Drivetrain.java:82-86 | the left distance is the left tick count converted to metres: times 4096 it is the tick count times the circumference |
| DrivetrainSubsystem.Drivetrain.RightDistance | src/main/java/frc/robot/subsystems/Drivetrain.java:89-93 | the right distance is the right tick count converted to metres: times 4096 it is the tick count times the circumference |
| DrivetrainSubsystem.Drivetrain.TotalDistance | src/main/java/frc/robot/subsystems/Drivetrain.java:96-99 | the total lies between the two side distances, and twice the total is the distance of the summed tick counts |
| DrivetrainSubsystem.Drivetrain.constructor | src/main/java/frc/robot/subsystems/Drivetrain.java:65-70 | construction applies setPID with the configured gains to a dashboard with no values yet, so both controllers and the dashboard hold those gains and all four entries have a value; the encoders start at the given positions and the setpoints at 0 |
| DrivetrainSubsystem.Drivetrain.ResetDistance | src/main/java/frc/robot/subsystems/Drivetrain.java:102-105 | both tick counts become 0, so left, right and total distance read 0; gains, dashboard and setpoints are unchanged, so the gain invariant is kept |
| DrivetrainSubsystem.Drivetrain.SetPID | src/main/java/frc/robot/subsystems/Drivetrain.java:124-140 | both controllers get (P, I, D, F) and the four dashboard entries are set to them, so the dashboard reads (P, I, D, F); ticks and setpoints are unchanged |
| DrivetrainSubsystem.Drivetrain.SetPIDFromStore | src/main/java/frc/robot/subsystems/Drivetrain.java:108-115 | both controllers get the gains the dashboard showed (0 for an entry without a value); the dashboard readings do not change, and a dashboard whose entries all have values is left unchanged |
| DrivetrainSubsystem.Drivetrain.Periodic | src/main/java/frc/robot/subsystems/Drivetrain.java:221-224 | one scheduler cycle has exactly the effect of setPID() |
| DrivetrainSubsystem.Drivetrain.ArcadeDriveVelocity | src/main/java/frc/robot/subsystems/Drivetrain.java:148-218 | the setpoints sent to the two main controllers are Mix of the sticks, each in [-100, 100]; ticks, gains and dashboard are unchanged, so the gain invariant is kept |
| DrivetrainSubsystem.SetPIDThenPeriodic | src/main/java/frc/robot/subsystems/Drivetrain.java:108-140 | after setPID(P, I, D, F) a scheduler cycle leaves the dashboard as setPID wrote it (returned as afterFirst), and a second cycle leaves it exactly so; both controllers hold (P, I, D, F), and ticks and setpoints are unchanged |

## Left out

- `arcadeDrivePercentOutput` (`Drivetrain.java:143-145`) is left out. It
  only delegates to WPILib's `DifferentialDrive.arcadeDrive`, which is not part
  of this model.
- The constructor's hardware configuration and the motor controllers' onboard
  behaviour are left out, because they are vendor I/O with no logic to state:
  - creating the Talons, inversion, `follow`, current limits and safety;
  - the unused `DifferentialDriveKinematics` and the Shuffleboard tab;
  - `simulationPeriodic`, which is empty;
  - the unused `driveLeftSetpoint` and `driveRightSetpoint` entries;
  - the closed-loop velocity control run on the controllers.
- The constructor models only the initial state. Sending a setpoint is
  modelled as storing it in `leftSetpoint` and `rightSetpoint`.
- The constructor's `leftSetpoint == 0.0 && rightSetpoint == 0.0` is a
  modelling choice. The Java constructor never sends a setpoint, so the
  controllers' setpoint before the first `arcadeDriveVelocity` call is not
  given by the code.
- `Chassis.WHEEL_CIRCUM` and the `Talon.Drivetrain` P/I/D/F constants are not
  part of this model. They become the constructor's `wheelCircum` and
  `initial` parameters. The dashboard starts with no values, since the
  constructor's `setPID` overwrites all four entries whatever they held.
- The four `NetworkTableEntry` fields are never assigned anywhere in
  `Drivetrain.java`, so the code as written would dereference null on its first
  `setPID`. The model treats the entries as an abstract store, a map from the
  four keys to values, in which a missing key is an entry with no value. It
  does not model the null failure.
- `SetPIDFromStore` and `Periodic` run each call as one atomic step. An
  operator's dashboard edit is modelled only as an assignment to the `store`
  field between calls. In the program the entries are updated asynchronously
  over NetworkTables. An edit to an entry that lands after `setPID()` reads it
  (`Drivetrain.java:111-114`) and before `setPID(P, I, D, F)` writes it back
  (`Drivetrain.java:136-139`) is overwritten with the old value. This lost
  update is not modelled, so "the dashboard readings do not change" holds only
  for a call that no edit interleaves with.
- The controllers' encoder positions are modelled as integer tick counts, set
  through the constructor or by `ResetDistance`. Encoder movement is hardware
  input and is not modelled.
- IEEE-754 `double` behaviour is not modelled: rounding, NaN, infinities and the
  signed zero `Math.copySign` can produce. Reals replace doubles throughout,
  including `WHEEL_CIRCUM / 4096`.
- `RobotContainer` is left out. It is only command-framework wiring and
  controller bindings.
- `ArcadeDriveVelocity` is written in three steps: `ShapeSticks`,
  `QuadrantOutputs`, then the final clamp and scaling. This is the Java
  method's body cut at its natural seams. Each step is proved equal to the
  matching function. The inner `if (v > 0.0)` sign branch of each deadband is
  the function `Rescale`. The local `maxVelocityTicks = 100` is the constant
  `MaxVelocityTicks`.
