/** One swerve module (SwerveModule.kt): a drive motor, a steer motor and an
    absolute angle sensor. The model covers the unit conversions between
    motor rotations and metres, the desired-state setter, and the bookkeeping
    of the slot-0 closed-loop gains: the drive and steer configurations, the
    eight dashboard tunables, and the shared AUTO/TELE gain sets.

    Angles are kept in rotations, the unit both the sensor and the steer
    command use; converting a rotation count to an angle object and back is
    the identity. The state optimizer of the robotics framework is not shown
    and is passed in as an arbitrary function. */
module SwerveModules {
  import opened Hardware
  import opened PIDV

  /** The drive train constants: motor rotations per wheel rotation, and
      metres travelled per wheel rotation. */
  datatype MotorParameters = MotorParameters(driveGearRatio: real, metersPerRev: real)

  /** Physical constants are strictly positive. */
  predicate ValidParameters(mp: MotorParameters) {
    mp.driveGearRatio > 0.0 && mp.metersPerRev > 0.0
  }

  /** The process-wide gain sets. The TELE sets are mutable and are rewritten
      from the dashboard by `updateTelePID`. */
  datatype PIDParameters = PIDParameters(
    driveAuto: PIDVController, driveTele: PIDVController,
    steerAuto: PIDVController, steerTele: PIDVController)

  /** Speed in metres per second and wheel angle in rotations. */
  datatype ModuleState = ModuleState(speedMetersPerSecond: real, angle: real)

  /** Distance travelled in metres and wheel angle in rotations. */
  datatype ModulePosition = ModulePosition(distanceMeters: real, angle: real)

  /** The eight dashboard tunables, each a plain value the dashboard may overwrite. */
  datatype Tunables = Tunables(drive: Slot, steer: Slot)

  /** The three disconnect alerts: true means the alert is raised. */
  datatype Alerts = Alerts(driveDisconnected: bool, turnDisconnected: bool, canCoderDisconnected: bool)

  /** The readings cached by the position getter. */
  datatype Cache = Cache(driveVelocity: real, drivePosition: real, steerVelocity: real, steerPosition: real)

  datatype SwerveModule = SwerveModule(
    driveMotor: Motor,
    steerMotor: Motor,
    canCoder: Encoder,
    driveConfig: Slot,  // slot 0 of the drive motor's configuration object
    steerConfig: Slot,  // slot 0 of the steer motor's configuration object
    tunables: Tunables,
    alerts: Alerts,
    cache: Cache,
    state: ModuleState,        // backing field of the `state` property
    position: ModulePosition   // the position object the getter fills in
  )

  /** The state optimizer: from a desired state and the current angle, an
      equivalent state to command. */
  type Optimizer = (ModuleState, real) -> ModuleState

  // ---------------------------------------------------------------------------
  // Unit conversions

  /** Drive motor rotations to metres of travel. */
  function DistanceMeters(rotations: real, mp: MotorParameters): real
    requires ValidParameters(mp)
  {
    rotations / mp.driveGearRatio * mp.metersPerRev
  }

  /** Drive rotor velocity (rotations per second) to wheel speed (m/s). */
  function SpeedFromRotor(rotorVelocity: real, mp: MotorParameters): real
    requires ValidParameters(mp)
  {
    rotorVelocity / mp.driveGearRatio * mp.metersPerRev
  }

  /** Wheel speed (m/s) to the drive velocity setpoint (rotations per second). */
  function RotorFromSpeed(speed: real, mp: MotorParameters): real
    requires ValidParameters(mp)
  {
    speed * (mp.driveGearRatio / mp.metersPerRev)
  }

  /** A commanded speed converted to a rotor velocity and reported back is the
      speed itself. */
  lemma SpeedRoundTrip(speed: real, mp: MotorParameters)
    requires ValidParameters(mp)
    ensures SpeedFromRotor(RotorFromSpeed(speed, mp), mp) == speed
  {
  }

  /** And the other way: a rotor velocity reported as a speed and commanded
      again is the same rotor velocity. */
  lemma RotorRoundTrip(rotorVelocity: real, mp: MotorParameters)
    requires ValidParameters(mp)
    ensures RotorFromSpeed(SpeedFromRotor(rotorVelocity, mp), mp) == rotorVelocity
  {
  }

  /** The distance conversion is linear and strictly increasing, so a zero
      motor position is exactly zero metres and more rotations are more
      distance. */
  lemma DistanceMonotonic(a: real, b: real, mp: MotorParameters)
    requires ValidParameters(mp)
    ensures DistanceMeters(0.0, mp) == 0.0
    ensures a < b ==> DistanceMeters(a, mp) < DistanceMeters(b, mp)
  {
  }

  // ---------------------------------------------------------------------------
  // Construction

  function SlotOf(c: PIDVController): Slot {
    Slot(c.p, c.i, c.d, c.v)
  }

  /** The gains the motors hold are the gains the configurations hold. */
  predicate Applied(m: SwerveModule) {
    m.driveMotor.applied == m.driveConfig && m.steerMotor.applied == m.steerConfig
  }

  /** The constructor, given the devices as found at start-up. */
  function Init(drive: Motor, steer: Motor, canCoder: Encoder, pid: PIDParameters): (m: SwerveModule)
    ensures m.driveConfig == Slot(pid.driveAuto.p, pid.driveAuto.i, pid.driveAuto.d, pid.driveAuto.v)
    ensures m.steerConfig == Slot(pid.steerAuto.p, pid.steerAuto.i, pid.steerAuto.d, 0.0)
    ensures Applied(m)
    // each tunable starts at the slot value it mirrors
    ensures m.tunables.drive == m.driveConfig && m.tunables.steer == m.steerConfig
    // each alert is raised iff its device is not connected
    ensures m.alerts == Alerts(!drive.connected, !steer.connected, !canCoder.connected)
    ensures m.cache == Cache(drive.velocity, drive.position, steer.velocity, steer.position)
    ensures m.state == ModuleState(0.0, 0.0) && m.position == ModulePosition(0.0, 0.0)
    ensures m.driveMotor.control == drive.control && m.steerMotor.control == steer.control
    ensures m.canCoder == canCoder
    // construction applies the slots and nothing else: positions are not re-zeroed
    ensures m.driveMotor == drive.(applied := m.driveConfig) && m.steerMotor == steer.(applied := m.steerConfig)
  {
    var driveConfig := SlotOf(pid.driveAuto);
    var steerConfig := Slot(pid.steerAuto.p, pid.steerAuto.i, pid.steerAuto.d, 0.0);
    SwerveModule(
      Apply(drive, driveConfig), Apply(steer, steerConfig), canCoder,
      driveConfig, steerConfig,
      Tunables(driveConfig, steerConfig),
      Alerts(!drive.connected, !steer.connected, !canCoder.connected),
      Cache(drive.velocity, drive.position, steer.velocity, steer.position),
      ModuleState(0.0, 0.0), ModulePosition(0.0, 0.0))
  }

  // ---------------------------------------------------------------------------
  // Measured state

  /** The `position` getter: refresh the cached readings and report the
      sensor angle and the drive distance in metres. */
  function GetPosition(m: SwerveModule, mp: MotorParameters): (r: (SwerveModule, ModulePosition))
    requires ValidParameters(mp)
    ensures r.1.angle == m.canCoder.absolutePosition
    ensures r.1.distanceMeters * mp.driveGearRatio == m.driveMotor.position * mp.metersPerRev
    ensures r.0.position == r.1
    ensures r.0.cache == Cache(m.driveMotor.velocity, m.driveMotor.position,
                               m.steerMotor.velocity, m.steerMotor.position)
    ensures r.0 == m.(cache := r.0.cache, position := r.1)
  {
    var pos := ModulePosition(DistanceMeters(m.driveMotor.position, mp), m.canCoder.absolutePosition);
    (m.(cache := Cache(m.driveMotor.velocity, m.driveMotor.position, m.steerMotor.velocity, m.steerMotor.position),
        position := pos),
     pos)
  }

  /** The `state` getter: the sensor angle and the wheel speed derived from
      the drive rotor velocity; the backing field is overwritten with them. */
  function GetState(m: SwerveModule, mp: MotorParameters): (r: (SwerveModule, ModuleState))
    requires ValidParameters(mp)
    ensures r.1.angle == m.canCoder.absolutePosition
    ensures RotorFromSpeed(r.1.speedMetersPerSecond, mp) == m.driveMotor.rotorVelocity
    ensures r.0 == m.(state := r.1)
  {
    RotorRoundTrip(m.driveMotor.rotorVelocity, mp);
    var s := ModuleState(SpeedFromRotor(m.driveMotor.rotorVelocity, mp), m.canCoder.absolutePosition);
    (m.(state := s), s)
  }

  /** `resetDrivePosition()`: zero the drive motor's position reference. */
  function ResetDrivePosition(m: SwerveModule): (r: SwerveModule)
    ensures r.driveMotor.position == 0.0
    ensures r == m.(driveMotor := r.driveMotor)
    ensures r.driveMotor == m.driveMotor.(position := 0.0)
  {
    m.(driveMotor := SetPosition(m.driveMotor, 0.0))
  }

  /** Reading the position right after a reset reports zero distance. */
  lemma ResetThenPositionIsZero(m: SwerveModule, mp: MotorParameters)
    requires ValidParameters(mp)
    ensures GetPosition(ResetDrivePosition(m), mp).1.distanceMeters == 0.0
    ensures GetPosition(ResetDrivePosition(m), mp).1.angle == m.canCoder.absolutePosition
  {
    DistanceMonotonic(0.0, 0.0, mp);
  }

  // ---------------------------------------------------------------------------
  // Commanding

  /** The `state` setter: optimize the desired state against the sensor
      angle, send the optimized angle to the steer motor as a position and
      the optimized speed to the drive motor as a rotor velocity, and store
      the optimized state. Gains, tunables and alerts are untouched. */
  function SetState(m: SwerveModule, value: ModuleState, mp: MotorParameters, optimize: Optimizer): (r: SwerveModule)
    requires ValidParameters(mp)
    ensures var opt := optimize(value, m.canCoder.absolutePosition);
      && r.steerMotor.control == PositionRequest(opt.angle)
      && r.driveMotor.control.VelocityRequest?
      && SpeedFromRotor(r.driveMotor.control.velocity, mp) == opt.speedMetersPerSecond
      && r.state == opt
    ensures r.driveMotor == m.driveMotor.(control := r.driveMotor.control)
    ensures r.steerMotor == m.steerMotor.(control := r.steerMotor.control)
    ensures r.canCoder == m.canCoder && r.driveConfig == m.driveConfig && r.steerConfig == m.steerConfig
    ensures r.tunables == m.tunables && r.alerts == m.alerts && r.cache == m.cache && r.position == m.position
  {
    var opt := optimize(value, m.canCoder.absolutePosition);
    SpeedRoundTrip(opt.speedMetersPerSecond, mp);
    m.(steerMotor := SetControl(m.steerMotor, PositionRequest(opt.angle)),
       driveMotor := SetControl(m.driveMotor, VelocityRequest(RotorFromSpeed(opt.speedMetersPerSecond, mp))),
       state := opt)
  }

  /** If the hardware then reaches what was commanded (the sensor reports the
      commanded angle and the rotor spins at the commanded velocity), the
      `state` getter reads back exactly the optimized state. */
  lemma SetStateThenTrackedRead(m: SwerveModule, value: ModuleState, mp: MotorParameters, optimize: Optimizer)
    requires ValidParameters(mp)
    ensures var r := SetState(m, value, mp, optimize);
            var tracked := r.(canCoder := r.canCoder.(absolutePosition := r.steerMotor.control.position),
                              driveMotor := r.driveMotor.(rotorVelocity := r.driveMotor.control.velocity));
            GetState(tracked, mp).1 == optimize(value, m.canCoder.absolutePosition)
  {
  }

  /** `stop()`: both motors are stopped; nothing else changes. */
  function Stop(m: SwerveModule): (r: SwerveModule)
    ensures r.driveMotor.control == Stopped && r.steerMotor.control == Stopped
    ensures r == m.(driveMotor := m.driveMotor.(control := Stopped),
                    steerMotor := m.steerMotor.(control := Stopped))
  {
    m.(driveMotor := SetControl(m.driveMotor, Stopped), steerMotor := SetControl(m.steerMotor, Stopped))
  }

  // ---------------------------------------------------------------------------
  // Gain bookkeeping

  /** `setDrivePID(pid, velocity)`: overwrite and apply drive slot 0 only. */
  function SetDrivePID(m: SwerveModule, pid: PIDController, velocity: real): (r: SwerveModule)
    ensures r.driveConfig == Slot(pid.p, pid.i, pid.d, velocity)
    ensures r.driveMotor.applied == r.driveConfig
    ensures r == m.(driveConfig := r.driveConfig, driveMotor := m.driveMotor.(applied := r.driveConfig))
  {
    var s := Slot(pid.p, pid.i, pid.d, velocity);
    m.(driveConfig := s, driveMotor := Apply(m.driveMotor, s))
  }

  /** `setSteerPID(pid, velocity)`: overwrite and apply steer slot 0 only. */
  function SetSteerPID(m: SwerveModule, pid: PIDController, velocity: real): (r: SwerveModule)
    ensures r.steerConfig == Slot(pid.p, pid.i, pid.d, velocity)
    ensures r.steerMotor.applied == r.steerConfig
    ensures r == m.(steerConfig := r.steerConfig, steerMotor := m.steerMotor.(applied := r.steerConfig))
  {
    var s := Slot(pid.p, pid.i, pid.d, velocity);
    m.(steerConfig := s, steerMotor := Apply(m.steerMotor, s))
  }

  /** `setTelePID()`: both slots take the TELE gain sets, each with its own `v`. */
  function SetTelePID(m: SwerveModule, pid: PIDParameters): (r: SwerveModule)
    ensures r.driveConfig == SlotOf(pid.driveTele) && r.steerConfig == SlotOf(pid.steerTele)
    ensures Applied(r)
    ensures r.tunables == m.tunables && r.alerts == m.alerts && r.state == m.state
    ensures r.driveMotor.control == m.driveMotor.control && r.steerMotor.control == m.steerMotor.control
    // only the two configurations and the gains the motors hold change
    ensures r == m.(driveConfig := SlotOf(pid.driveTele), steerConfig := SlotOf(pid.steerTele),
                    driveMotor := m.driveMotor.(applied := SlotOf(pid.driveTele)),
                    steerMotor := m.steerMotor.(applied := SlotOf(pid.steerTele)))
  {
    SetSteerPID(SetDrivePID(m, pid.driveTele.Pid(), pid.driveTele.v), pid.steerTele.Pid(), pid.steerTele.v)
  }

  /** `setAutoPID()`: the drive slot takes the AUTO drive set; the steer
      configuration and the steer motor are left exactly as they were. */
  function SetAutoPID(m: SwerveModule, pid: PIDParameters): (r: SwerveModule)
    ensures r.driveConfig == SlotOf(pid.driveAuto)
    ensures r.driveMotor.applied == r.driveConfig
    ensures r.steerConfig == m.steerConfig && r.steerMotor == m.steerMotor
    ensures r.tunables == m.tunables && r.alerts == m.alerts && r.state == m.state
    // only the drive configuration and the gains the drive motor holds change
    ensures r == m.(driveConfig := SlotOf(pid.driveAuto),
                    driveMotor := m.driveMotor.(applied := SlotOf(pid.driveAuto)))
  {
    SetDrivePID(m, pid.driveAuto.Pid(), pid.driveAuto.v)
  }

  /** `applyTelePIDValues()`: both slots take the eight tunables, V included. */
  function ApplyTelePIDValues(m: SwerveModule): (r: SwerveModule)
    ensures r.driveConfig == m.tunables.drive && r.steerConfig == m.tunables.steer
    ensures Applied(r)
    ensures r.tunables == m.tunables && r.alerts == m.alerts && r.state == m.state
    ensures r.driveMotor.control == m.driveMotor.control && r.steerMotor.control == m.steerMotor.control
    // only the two configurations and the gains the motors hold change
    ensures r == m.(driveConfig := m.tunables.drive, steerConfig := m.tunables.steer,
                    driveMotor := m.driveMotor.(applied := m.tunables.drive),
                    steerMotor := m.steerMotor.(applied := m.tunables.steer))
  {
    m.(driveConfig := m.tunables.drive, steerConfig := m.tunables.steer,
       driveMotor := Apply(m.driveMotor, m.tunables.drive),
       steerMotor := Apply(m.steerMotor, m.tunables.steer))
  }

  /** `updateTelePID()`: copy P, I and D (not V) of the tunables into the
      TELE gain sets, then apply all eight tunables. The AUTO sets and the
      TELE `v` terms are unchanged. */
  function UpdateTelePID(m: SwerveModule, pid: PIDParameters): (r: (SwerveModule, PIDParameters))
    ensures r.1.driveTele.Pid() == PIDController(m.tunables.drive.kP, m.tunables.drive.kI, m.tunables.drive.kD)
    ensures r.1.steerTele.Pid() == PIDController(m.tunables.steer.kP, m.tunables.steer.kI, m.tunables.steer.kD)
    ensures r.1.driveTele.v == pid.driveTele.v && r.1.steerTele.v == pid.steerTele.v
    ensures r.1.driveAuto == pid.driveAuto && r.1.steerAuto == pid.steerAuto
    ensures r.0.driveConfig == m.tunables.drive && r.0.steerConfig == m.tunables.steer
    ensures Applied(r.0)
    // only the configurations and the gains the motors hold change on the module
    ensures r.0 == m.(driveConfig := m.tunables.drive, steerConfig := m.tunables.steer,
                      driveMotor := m.driveMotor.(applied := m.tunables.drive),
                      steerMotor := m.steerMotor.(applied := m.tunables.steer))
  {
    var t := m.tunables;
    var pid' := pid.(driveTele := pid.driveTele.(p := t.drive.kP, i := t.drive.kI, d := t.drive.kD),
                     steerTele := pid.steerTele.(p := t.steer.kP, i := t.steer.kI, d := t.steer.kD));
    (ApplyTelePIDValues(m), pid')
  }

  /** The dashboard overwriting the tunables. */
  function Tune(m: SwerveModule, t: Tunables): SwerveModule {
    m.(tunables := t)
  }

  // ---------------------------------------------------------------------------
  // Properties of the gain bookkeeping

  /** Every operation on a constructed module keeps the motors holding the
      configured gains, and none of them touches the alerts: the alerts keep
      the values construction gave them. */
  lemma OperationsKeepAppliedAndAlerts(m: SwerveModule, mp: MotorParameters, pid: PIDParameters,
                                       value: ModuleState, optimize: Optimizer, c: PIDController, v: real, t: Tunables)
    requires ValidParameters(mp) && Applied(m)
    ensures Applied(SetState(m, value, mp, optimize)) && SetState(m, value, mp, optimize).alerts == m.alerts
    ensures Applied(Stop(m)) && Stop(m).alerts == m.alerts
    ensures Applied(ResetDrivePosition(m)) && ResetDrivePosition(m).alerts == m.alerts
    ensures Applied(GetPosition(m, mp).0) && GetPosition(m, mp).0.alerts == m.alerts
    ensures Applied(GetState(m, mp).0) && GetState(m, mp).0.alerts == m.alerts
    ensures Applied(SetDrivePID(m, c, v)) && SetDrivePID(m, c, v).alerts == m.alerts
    ensures Applied(SetSteerPID(m, c, v)) && SetSteerPID(m, c, v).alerts == m.alerts
    ensures Applied(SetAutoPID(m, pid)) && SetAutoPID(m, pid).alerts == m.alerts
    ensures Applied(UpdateTelePID(m, pid).0) && UpdateTelePID(m, pid).0.alerts == m.alerts
    ensures Applied(Tune(m, t)) && Tune(m, t).alerts == m.alerts
  {
  }

  /** Setting the drive gains never disturbs the steer gains and vice versa,
      so the two setters commute. */
  lemma DriveAndSteerSettersCommute(m: SwerveModule, a: PIDController, va: real, b: PIDController, vb: real)
    ensures SetSteerPID(SetDrivePID(m, a, va), b, vb) == SetDrivePID(SetSteerPID(m, b, vb), a, va)
  {
  }

  /** Gain writes are idempotent: applying the same set twice is applying it once. */
  lemma GainWritesIdempotent(m: SwerveModule, pid: PIDParameters)
    ensures SetTelePID(SetTelePID(m, pid), pid) == SetTelePID(m, pid)
    ensures SetAutoPID(SetAutoPID(m, pid), pid) == SetAutoPID(m, pid)
    ensures ApplyTelePIDValues(ApplyTelePIDValues(m)) == ApplyTelePIDValues(m)
  {
  }

  /** Switching from TELE to AUTO changes only the drive gains: the steer
      motor keeps the TELE steer set. */
  lemma AutoAfterTeleKeepsTeleSteer(m: SwerveModule, pid: PIDParameters)
    ensures var r := SetAutoPID(SetTelePID(m, pid), pid);
            r.driveConfig == SlotOf(pid.driveAuto) && r.steerConfig == SlotOf(pid.steerTele)
            && Applied(r)
  {
  }

  /** After `updateTelePID`, re-selecting TELE reproduces the tunables' P, I
      and D, but the V term comes from the old TELE set, not from the
      tunables: the two agree on V only when they agreed before. */
  lemma UpdateThenTeleKeepsOldV(m: SwerveModule, pid: PIDParameters)
    ensures var r := UpdateTelePID(m, pid);
            var tele := SetTelePID(r.0, r.1);
            && tele.driveConfig == m.tunables.drive.(kV := pid.driveTele.v)
            && tele.steerConfig == m.tunables.steer.(kV := pid.steerTele.v)
            && (tele.driveConfig == r.0.driveConfig <==> m.tunables.drive.kV == pid.driveTele.v)
  {
  }

  /** Right after construction, `applyTelePIDValues` changes no gain: the
      tunables still hold the configured values. */
  lemma ApplyTunablesAfterInitIsNoOp(drive: Motor, steer: Motor, canCoder: Encoder, pid: PIDParameters)
    ensures var m := Init(drive, steer, canCoder, pid);
            ApplyTelePIDValues(m) == m
  {
  }
}
