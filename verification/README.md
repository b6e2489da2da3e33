# PracticeBot control core, modelled in Dafny

This project models the parts of an FRC competition robot's Kotlin control code that have behaviour worth stating:

- teleop drive-input shaping (`PadDrive`);
- the bookkeeping of one swerve module: unit conversions, the desired-state setter, and the slot-0 closed-loop gains with their dashboard tunables (`SwerveModule`);
- D-pad decoding of the gaming pad (`GamingController`);
- least-ambiguity camera selection and the per-tick target update of the vision subsystem (`PhotonVision`);
- the coral-intake flag of the outtake shooter (`OuttakeShooter`);
- the elevator's target level and position command (`Elevator`, `ElevatorState`);
- the PID-plus-velocity gain record (`PIDVController`).

Everything is written as immutable records and pure state-to-state functions. The two exceptions are methods in the vision subsystem: the camera selection `CameraWithLeastAmbiguity`, whose nested loops follow the source, and the tick `Periodic`, which calls it. Hardware reads are fields of the device records or explicit parameters:

- motor position and velocities;
- sensor angle;
- connection flags;
- the coral sensor reading;
- dashboard tunables;
- camera result lists.

Arithmetic is on Dafny `real` and `int`.

Files and modules:

| file | module | models |
|---|---|---|
| common.dfy | `Common` | nullable values and the exceptions `!!` and `lateinit` raise |
| hardware.dfy | `Hardware` | motor and encoder records: position, velocities, connection, last control request, applied slot-0 gains |
| pidv.dfy | `PIDV` | `PIDVController` and its two constructors |
| elevator_state.dfy | `ElevatorStates` | the five elevator levels and their positions |
| elevator.dfy | `ElevatorSubsystem` | `Elevator`: initialisation, tunables, `toBeSetState`, `elevatorMove` |
| outtake_shooter.dfy | `OuttakeShooterSubsystem` | `OuttakeShooter`: intake flag, `periodic`, `shootMotor` |
| swerve_module.dfy | `SwerveModules` | `SwerveModule` |
| pad_drive.dfy | `PadDriveCommand` | `PadDrive.positionSet` and `execute` |
| gaming_controller.dfy | `GamingControllers` | D-pad decoding |
| photon_vision.dfy | `PhotonVisionSubsystem` | camera selection, `periodic`, `hasTag` |

Behaviour of the code worth noting:

- The disconnect alerts of a swerve module are set once, in `initializeAlarms` (SwerveModule.kt:309-311), from the devices' connection flags. No other code writes them. `SwerveModules.OperationsKeepAppliedAndAlerts` states that no operation changes them.
- `PadDrive.positionSet` applies the dead-zone to the negated, scaled value (`-axis * MAX_SPEED`, PadDrive.kt:67-71), not to the raw stick value. A raw deflection below the dead-zone therefore still drives whenever its scaled value reaches the dead-zone. `PadDriveCommand.DeadzoneIsOnScaledValue` gives an instance: stick 0.05, maximum speed 4, dead-zone 0.1 gives a speed of 0.2, not 0.
- The state setter calls the framework's `optimize` (SwerveModule.kt:101), whose code is not part of this model. The model takes the optimizer as an arbitrary function and proves nothing about its flip rule.

Modelling conventions:

- Angles are in rotations. `Rotation2d.fromRotations(x).rotations` is taken to be `x`.
- Kotlin `Int` division truncates toward zero, and `Double.toInt()` truncates and saturates. Both are written out (`TruncDiv`, `TruncToInt`), because Dafny's `/` and `Floor` round down.
- `Double.MAX_VALUE`, the selection's starting bound, is the exact real value of the largest finite double.

## Model

| member | source | states |
|---|---|---|
| PIDV.FromGains | src/main/java/frc/robot/utils/PIDVController.kt:23-25 | the primary constructor yields PID gains (kp, ki, kd) and v = kV |
| PIDV.FromController | src/main/java/frc/robot/utils/PIDVController.kt:34-40 | the copy constructor's PID view is exactly the source controller and its v is kV |
| PIDV.SetV | src/main/java/frc/robot/utils/PIDVController.kt:13 | assigning the mutable v changes v only; the PID gains are unchanged |
| PIDV.ConstructorsAgree | src/main/java/frc/robot/utils/PIDVController.kt:23-40 | copying a controller equals building from its gains, and equals overwriting its own v: the source's v plays no part |
| PIDV.CopyRoundTrip | src/main/java/frc/robot/utils/PIDVController.kt:34-40 | the copy constructor applied to a controller's PID view and its own v rebuilds the controller |
| ElevatorStates.Pos | src/main/java/frc/robot/utils/emu/ElevatorState.kt:9-13 | every level position lies in [0, 65] |
| ElevatorStates.PosIsHeightTimesStep | src/main/java/frc/robot/utils/emu/ElevatorState.kt:9-13 | level Lk sits at k * 16.25 |
| ElevatorStates.DeclaredOrderStrictlyDecreasing | src/main/java/frc/robot/utils/emu/ElevatorState.kt:9-13 | positions strictly decrease in declaration order L4..L0, and the declaration lists every level |
| ElevatorStates.EquallySpaced | src/main/java/frc/robot/utils/emu/ElevatorState.kt:9-13 | consecutive declared levels are exactly 16.25 apart |
| ElevatorStates.PosInjective | src/main/java/frc/robot/utils/emu/ElevatorState.kt:9-13 | two levels with the same position are the same level |
| ElevatorSubsystem.Init | src/main/java/frc/robot/subsystems/Elevator.kt:48-96 | initialisation fails exactly when the gain bundle's v or s is null (v checked first); otherwise the position is zeroed, the slot and motion-profile values come from the bundles, the device holds the slot-0 gains (p, i, d, v), kG is the default 0, the tunables equal the configuration and no target level is set |
| ElevatorSubsystem.InitializeTunables | src/main/java/frc/robot/subsystems/Elevator.kt:102-132 | each of the nine elevator tunables starts at the configured value it mirrors |
| ElevatorSubsystem.ToBeSetState | src/main/java/frc/robot/subsystems/Elevator.kt:46 | reading the target level succeeds exactly when one was assigned; otherwise it is an uninitialised-property error |
| ElevatorSubsystem.SetToBeSetState | src/main/java/frc/robot/subsystems/Elevator.kt:98-100 | after assigning a level, reading the target gives that level; motor, configuration and tunables are unchanged |
| ElevatorSubsystem.ElevatorMove | src/main/java/frc/robot/subsystems/Elevator.kt:134-136 | the motor receives a position request at height(level) * 16.25, within [0, 65]; nothing else on the motor changes, and the target level and gains are unchanged |
| ElevatorSubsystem.MoveSetpointDeterminesLevel | src/main/java/frc/robot/subsystems/Elevator.kt:134-136 | equal commanded setpoints come from equal levels |
| ElevatorSubsystem.LastSetWins | src/main/java/frc/robot/subsystems/Elevator.kt:98-100 | two assignments of the target level are the same as the last one alone |
| ElevatorSubsystem.SetAndMoveCommute | src/main/java/frc/robot/subsystems/Elevator.kt:98-136 | selecting a level and commanding a move touch disjoint state, so they commute |
| ElevatorSubsystem.MoveToSelectedLevel | src/main/java/frc/robot/subsystems/ShootCoral.kt:11 | moving to the stored target after selecting a level commands that level's position |
| OuttakeShooterSubsystem.Init | src/main/java/frc/robot/subsystems/OuttakeShooter.kt:32-57 | the intake flag starts clear and the shooter position is zeroed |
| OuttakeShooterSubsystem.IntakeCoral | src/main/java/frc/robot/subsystems/OuttakeShooter.kt:71-73 | sets the flag and leaves the motor untouched |
| OuttakeShooterSubsystem.Periodic | src/main/java/frc/robot/subsystems/OuttakeShooter.kt:59-69 | flag clear: nothing changes; flag set with sensor false: motor stopped, flag cleared; flag set with sensor true: position request 1.0, flag kept; only the motor's control request can change |
| OuttakeShooterSubsystem.ClearedStaysCleared | src/main/java/frc/robot/subsystems/OuttakeShooter.kt:59-73 | from a cleared flag, any number of ticks with any readings changes nothing until intakeCoral is called |
| OuttakeShooterSubsystem.FlagClearsOnFirstFalse | src/main/java/frc/robot/subsystems/OuttakeShooter.kt:59-69 | while intaking, after any run of ticks the flag is still set iff no reading was false |
| OuttakeShooterSubsystem.LastCommandOfRun | src/main/java/frc/robot/subsystems/OuttakeShooter.kt:59-69 | after a non-empty run from an intaking state, the motor's last command is the forward hold if the flag survived and Stopped otherwise |
| OuttakeShooterSubsystem.IntakeThenRun | src/main/java/frc/robot/subsystems/OuttakeShooter.kt:59-73 | after intakeCoral and a non-empty run, the motor is stopped iff some sensor reading was false |
| OuttakeShooterSubsystem.ShootMotor | src/main/java/frc/robot/subsystems/OuttakeShooter.kt:75-78 | the elevator is moved to L4 (setpoint 65) and the shooter to position 65; only the shooter's control request changes, and the intake flag is unchanged |
| OuttakeShooterSubsystem.IntakeTickOverridesShot | src/main/java/frc/robot/subsystems/OuttakeShooter.kt:59-78 | a shot leaves an intake running: the next tick with a true reading replaces the shot's request with the 1.0 forward hold |
| GamingControllers.TruncDiv | src/main/java/frc/robot/utils/controller/GamingController.kt:130 | Kotlin Int division by a positive divisor: the quotient truncates toward zero, with remainder bounds on both signs |
| GamingControllers.TruncToInt | src/main/java/frc/robot/utils/controller/GamingController.kt:119 | Double.toInt truncates toward zero inside the Int range, and returns Int.MAX_VALUE or Int.MIN_VALUE exactly for inputs at or beyond that bound |
| GamingControllers.CheckDPadAngle | src/main/java/frc/robot/utils/controller/GamingController.kt:114-120 | checkDPad(angle, inDegrees) holds iff the truncated degree value equals the POV |
| GamingControllers.CheckDPadOutOfRange | src/main/java/frc/robot/utils/controller/GamingController.kt:105 | checkDPad(index) is false for any index outside 0..7 |
| GamingControllers.CheckDPadIsAngle | src/main/java/frc/robot/utils/controller/GamingController.kt:105 | for index 0..7, checkDPad(index) holds iff POV == 45 * index |
| GamingControllers.CheckDPadMatchesDPad | src/main/java/frc/robot/utils/controller/GamingController.kt:105-131 | checkDPad(index) holds iff the POV is a multiple of 45 in [0, 360) and dPad == index |
| GamingControllers.CardinalDirections | src/main/java/frc/robot/utils/controller/GamingController.kt:87-105 | up/right/down/left hold exactly at POV 0/90/180/270, and at most one holds |
| GamingControllers.DPadOnReportedRange | src/main/java/frc/robot/utils/controller/GamingController.kt:128-146 | for POV -1 or 0..359: pressed iff dPad != -1, and a pressed dPad is the 45-degree sector 0..7 holding the POV |
| GamingControllers.DPadAmbiguousOffRange | src/main/java/frc/robot/utils/controller/GamingController.kt:128-146 | outside the reported range the readings disagree: POV -45 is pressed yet dPad is -1 |
| GamingControllers.CheckDPadAngleInterval | src/main/java/frc/robot/utils/controller/GamingController.kt:114-120 | checkDPad(angle, true) accepts exactly a unit interval of angles: [pov, pov+1) for pov > 0, (pov-1, pov] for pov < 0, (-1, 1) for 0 |
| PadDriveCommand.PositionSet | src/main/java/frc/robot/commands/PadDrive.kt:66-74 | each output is either exactly 0 or the negated, scaled stick value |
| PadDriveCommand.Rotation | src/main/java/frc/robot/commands/PadDrive.kt:36-41 | rotation is either 0 or the negated axis times the maximum angular speed |
| PadDriveCommand.Execute | src/main/java/frc/robot/commands/PadDrive.kt:33-49 | the chassis receives (y, x, rotation / 2, isFieldOriented): the axes swapped and the rotation halved |
| PadDriveCommand.XDeadzone | src/main/java/frc/robot/commands/PadDrive.kt:67-68 | x is -leftX * MAX_SPEED when that has magnitude >= X_DEADZONE, and exactly 0 otherwise |
| PadDriveCommand.YDeadzone | src/main/java/frc/robot/commands/PadDrive.kt:70-71 | y is -leftY * MAX_SPEED when that has magnitude >= Y_DEADZONE, and exactly 0 otherwise |
| PadDriveCommand.NoOutputInsideDeadzone | src/main/java/frc/robot/commands/PadDrive.kt:67-71 | every nonzero translation output has magnitude at least its dead-zone |
| PadDriveCommand.DeadzoneIsOnScaledValue | src/main/java/frc/robot/commands/PadDrive.kt:67-68 | the dead-zone compares the scaled value: stick (0.05, 0.9) at maximum speed 4 with dead-zones 0.1 gives (-0.2, -3.6) |
| PadDriveCommand.RotationThresholdIncluded | src/main/java/frc/robot/commands/PadDrive.kt:36-41 | rotation is 0 when abs(rightX) < 0.1 and -rightX * MAX_ANGULAR_SPEED from 0.1 on, the boundary included |
| PadDriveCommand.ExecuteIsOdd | src/main/java/frc/robot/commands/PadDrive.kt:33-74 | negating all three stick axes negates all three speed arguments of the chassis call |
| PadDriveCommand.ExecuteBounded | src/main/java/frc/robot/commands/PadDrive.kt:36-74 | with axes in [-1, 1] and non-negative maxima, translations are bounded by MAX_SPEED and the passed rotation by half of MAX_ANGULAR_SPEED |
| SwerveModules.SpeedRoundTrip | src/main/java/frc/robot/subsystems/SwerveModule.kt:87-112 | a speed converted to rotor velocity (speed * G / M) and reported back (/ G * M) is the same speed |
| SwerveModules.RotorRoundTrip | src/main/java/frc/robot/subsystems/SwerveModule.kt:87-112 | a rotor velocity reported as a speed and commanded again is the same rotor velocity |
| SwerveModules.DistanceMonotonic | src/main/java/frc/robot/subsystems/SwerveModule.kt:78-79 | zero drive rotations are zero metres, and the distance strictly increases with the drive position |
| SwerveModules.Init | src/main/java/frc/robot/subsystems/SwerveModule.kt:143-212 | drive slot 0 = DRIVE_PID_AUTO; steer slot 0 = STEER_PID_AUTO's P/I/D with kV 0; both applied to the motors; tunables equal the slots; each alert = its device not connected; the motors are otherwise as found, so positions are not re-zeroed |
| SwerveModules.GetPosition | src/main/java/frc/robot/subsystems/SwerveModule.kt:69-82 | reports the sensor angle and distance = drivePosition / G * M; refreshes the four cached readings and nothing else |
| SwerveModules.GetState | src/main/java/frc/robot/subsystems/SwerveModule.kt:85-94 | reports the sensor angle and a speed that converts back to the measured rotor velocity; overwrites the stored state only |
| SwerveModules.ResetDrivePosition | src/main/java/frc/robot/subsystems/SwerveModule.kt:281-283 | zeroes the drive motor's position and changes nothing else |
| SwerveModules.ResetThenPositionIsZero | src/main/java/frc/robot/subsystems/SwerveModule.kt:281-283 | reading the position right after a reset reports exactly 0 metres |
| SwerveModules.SetState | src/main/java/frc/robot/subsystems/SwerveModule.kt:95-133 | the steer motor gets the optimized angle in rotations; the drive motor gets a velocity that converts back to the optimized speed; the stored state becomes the optimized state; nothing else changes |
| SwerveModules.SetStateThenTrackedRead | src/main/java/frc/robot/subsystems/SwerveModule.kt:85-133 | if the hardware reaches the commanded angle and rotor velocity, the state getter reads back the optimized state |
| SwerveModules.Stop | src/main/java/frc/robot/subsystems/SwerveModule.kt:215-218 | both motors are stopped and nothing else changes |
| SwerveModules.SetDrivePID | src/main/java/frc/robot/subsystems/SwerveModule.kt:226-235 | drive slot 0 becomes (p, i, d, velocity) and is applied; nothing else changes |
| SwerveModules.SetSteerPID | src/main/java/frc/robot/subsystems/SwerveModule.kt:243-252 | steer slot 0 becomes (p, i, d, velocity) and is applied; nothing else changes |
| SwerveModules.SetTelePID | src/main/java/frc/robot/subsystems/SwerveModule.kt:270-273 | both slots take the TELE sets, each with its own v, and are applied; nothing else on the module changes |
| SwerveModules.SetAutoPID | src/main/java/frc/robot/subsystems/SwerveModule.kt:276-278 | the drive slot takes DRIVE_PID_AUTO and is applied; nothing else on the module changes, the steer configuration and motor included |
| SwerveModules.ApplyTelePIDValues | src/main/java/frc/robot/subsystems/SwerveModule.kt:254-267 | drive and steer slot 0 equal the eight tunables, V included, and are applied; nothing else on the module changes |
| SwerveModules.UpdateTelePID | src/main/java/frc/robot/subsystems/SwerveModule.kt:314-324 | the TELE sets take the tunables' P/I/D but keep their own v; the AUTO sets are unchanged; then all eight tunables are applied, and nothing else on the module changes |
| SwerveModules.OperationsKeepAppliedAndAlerts | src/main/java/frc/robot/subsystems/SwerveModule.kt:297-311 | every operation keeps the motors holding the configured gains, and none changes the alerts set at construction |
| SwerveModules.DriveAndSteerSettersCommute | src/main/java/frc/robot/subsystems/SwerveModule.kt:226-252 | the drive and steer gain setters touch disjoint state and commute |
| SwerveModules.GainWritesIdempotent | src/main/java/frc/robot/subsystems/SwerveModule.kt:226-278 | selecting TELE, selecting AUTO or applying the tunables twice equals doing it once |
| SwerveModules.AutoAfterTeleKeepsTeleSteer | src/main/java/frc/robot/subsystems/SwerveModule.kt:270-278 | switching from TELE to AUTO leaves the steer motor on the TELE steer set |
| SwerveModules.UpdateThenTeleKeepsOldV | src/main/java/frc/robot/subsystems/SwerveModule.kt:270-324 | after updateTelePID, selecting TELE gives the tunables' P/I/D with the old TELE v; it matches the applied tunables iff the drive V values already agreed |
| SwerveModules.ApplyTunablesAfterInitIsNoOp | src/main/java/frc/robot/subsystems/SwerveModule.kt:254-295 | applying the tunables right after construction changes nothing |
| PhotonVisionSubsystem.CameraWithLeastAmbiguity | src/main/java/frc/robot/subsystems/PhotonVision.kt:118-144 | no camera is chosen iff no non-null result with targets has a non-null best target below Double.MAX_VALUE; otherwise the chosen camera offers an ambiguity no camera beats, every earlier camera offers only strictly larger ones, and its list is non-null and non-empty |
| PhotonVisionSubsystem.LeastAmbiguityCameraUnique | src/main/java/frc/robot/subsystems/PhotonVision.kt:125-144 | the selection's characterisation admits at most one camera |
| PhotonVisionSubsystem.LastWins | src/main/java/frc/robot/subsystems/PhotonVision.kt:101-105 | after the target loop, yaw, y and dist come from the last target; an empty list keeps them |
| PhotonVisionSubsystem.Update | src/main/java/frc/robot/subsystems/PhotonVision.kt:89-111 | a null second read from a chosen camera throws; with no camera or no current result the target, ambiguity and readings are kept; otherwise the target is the best target, the ambiguity is its ambiguity or 7157.0, and the readings come from the last target |
| PhotonVisionSubsystem.Periodic | src/main/java/frc/robot/subsystems/PhotonVision.kt:89-116 | the stored best camera satisfies the least-ambiguity characterisation and is absent iff no camera offers a target; with none the tick only clears the camera |
| PhotonVisionSubsystem.HasTagAfterUpdate | src/main/java/frc/robot/subsystems/PhotonVision.kt:93-155 | after an update from a chosen camera, hasTag holds iff the second read's first result is non-null and has targets, and then the readings are its last target's |
| PhotonVisionSubsystem.UpdateWithoutCameraIdempotent | src/main/java/frc/robot/subsystems/PhotonVision.kt:89-91 | without a chosen camera a tick succeeds, and repeating it changes nothing |
| PhotonVisionSubsystem.InitialState | src/main/java/frc/robot/subsystems/PhotonVision.kt:38-58 | before the first tick no tag is visible, the ambiguity is 7157.0 and the yaw is -15.0 |

## Left out

- Vendor configuration is not modelled: current limits, soft limits, motion-magic settings other than the elevator's cruise velocity, acceleration and jerk, inversion, neutral mode, sensor direction, magnet offset and ramp periods. It is declarative and has no behaviour to state.
- The framework's state optimizer, angle wrapping and `Swerve.setDriveSpeeds` are not part of this model. The optimizer is a function parameter; the chassis call is recorded by its arguments only.
- Pose estimation, `estimatedGlobalPose`, `distanceAprilTag` and the `pivotPosition` polynomial are left out: they are floating-point numerics and calls into the vision library.
- The camera queue semantics of `getAllUnreadResults` are outside the code. The two reads per tick are independent inputs.
- Telemetry (`log`), alert display text (which embeds the device ids), and dashboard and connectivity polling are I/O. Tunables and connection flags are plain values.
- IEEE-754 rounding, NaN and infinities are not modelled; arithmetic is exact on `real`. In particular `Double.toInt` of NaN, and ambiguities that are NaN, are not covered.
- `SwerveModules.DistanceMeters`, `SpeedFromRotor`, `RotorFromSpeed`: the gear ratio and metres-per-revolution are required to be positive physical constants. A zero divisor would give an infinite or NaN double in the source.
- `GamingControllers.CheckDPadAngle`: the radians-to-degrees conversion (`Math.toDegrees`) is a parameter, because pi is not a Dafny real.
- `getDPad(inDegrees)`, the trigger and stick getters, the button getters and `setRumble` of the gaming pad are left out. They pass hardware values straight through or write to the hardware.
- `SwerveModules.Init`: the device ids and the steer set-point offset only feed vendor configuration and alert text, so they are not parameters.
- The elevator's and shooter's unused control requests (velocity, voltage, duty-cycle, motion-magic objects) are left out, as are the elevator configuration writes beyond the slot and motion-profile values.
- `OuttakeShooterSubsystem.Init`: the shooter motor's `configureWithDefaults(PIVOT_PINGU, …)` (OuttakeShooter.kt:35-41) is a library call that is not part of this model. The shooter motor's `applied` gains are therefore not maintained. The elevator's `Init` does set them, but only kP, kI, kD and kV: the device record has no kS or kG.
- `SwerveModules.SetState`, `SwerveModules.GetState`, `SwerveModules.GetPosition`: these model values, not shared objects. In the source, `optimize` changes the caller's state object in place (SwerveModule.kt:101), and the setter then makes that same object the module's stored state (:132). Each later read of `state` writes its angle and speed into that object (:86-87), and `position` returns the same `swerveModulePosition` object on every call (:69-81). The model returns fresh values, so a caller that keeps one of these objects and sees it change later is not modelled.
- The elevator and shooter motors are separate `Motor` records. In the source both are `TalonFX(0)` (Elevator.kt:28, OuttakeShooter.kt:24), so the two subsystems would talk to one device. `shootMotor`'s shooter request would then replace its elevator request, and the shooter's stop, forward hold and `setPosition(0.0)` would act on the elevator. The intake and outtake-pivot motors also use id 0 (Intake.kt:30,32, OuttakePivot.kt:30), so the ids look like placeholders that were never filled in. The model treats each subsystem's motor as its own device.
- LED animation, button bindings and the autonomous chooser are left out: they are hardware output and framework wiring. So are the intake and outtake-pivot subsystems, which are thin wrappers issuing constant setpoints.
