/** The elevator subsystem (Elevator.kt): its construction-time gains and
    dashboard tunables, the operator-selected target level, and the position
    command that moves the carriage to a level. */
module ElevatorSubsystem {
  import opened Common
  import opened Hardware
  import opened ElevatorStates

  /** The gain bundle the elevator is configured from. `v` and `s` are
      nullable in that bundle and are dereferenced with `!!`. */
  datatype GainBundle = GainBundle(p: real, i: real, d: real, v: Option<real>, s: Option<real>)

  /** The motion-profile bundle: cruise velocity, acceleration and jerk. */
  datatype MotionBundle = MotionBundle(velocity: real, acceleration: real, jerk: real)

  /** Slot-0 gains plus motion-profile values: the shape of both the motor
      configuration and the nine dashboard tunables that mirror it. */
  datatype ElevatorGains = ElevatorGains(
    kP: real, kI: real, kD: real, kV: real, kS: real, kG: real,
    cruiseVelocity: real, acceleration: real, jerk: real)

  /** `kG` is never assigned, so it keeps the configuration object's default. */
  const DefaultKG: real := 0.0

  datatype Elevator = Elevator(
    motor: Motor,
    config: ElevatorGains,
    tunables: ElevatorGains,
    toBeSetState: Option<ElevatorState>  // `lateinit`: None until first assigned
  )

  /** The subsystem's initialisation. `motor` is the device as found at start-up.
      Dereferencing a null `v` or `s` of the gain bundle throws. */
  function Init(gains: GainBundle, motion: MotionBundle, motor: Motor): (r: Result<Elevator>)
    ensures r.Ok? <==> gains.v.Some? && gains.s.Some?
    ensures gains.v.None? ==> r == Failure(NullDereference("ELEVATOR_PINGU.v"))
    ensures gains.v.Some? && gains.s.None? ==> r == Failure(NullDereference("ELEVATOR_PINGU.s"))
    ensures r.Ok? ==>
      var e := r.value;
      && e.motor.position == 0.0
      && e.motor.control == motor.control
      // slot 0 of the configuration is applied to the device
      && e.motor.applied == Slot(gains.p, gains.i, gains.d, gains.v.value)
      && (e.config.kP, e.config.kI, e.config.kD) == (gains.p, gains.i, gains.d)
      && e.config.kV == gains.v.value && e.config.kS == gains.s.value
      && e.config.kG == DefaultKG
      && (e.config.cruiseVelocity, e.config.acceleration, e.config.jerk)
         == (motion.velocity, motion.acceleration, motion.jerk)
      && e.tunables == e.config
      && e.toBeSetState.None?
  {
    if gains.v.None? then Failure(NullDereference("ELEVATOR_PINGU.v"))
    else if gains.s.None? then Failure(NullDereference("ELEVATOR_PINGU.s"))
    else
      var config := ElevatorGains(gains.p, gains.i, gains.d, gains.v.value, gains.s.value, DefaultKG,
                                  motion.velocity, motion.acceleration, motion.jerk);
      Ok(Elevator(Apply(SetPosition(motor, 0.0), Slot(config.kP, config.kI, config.kD, config.kV)),
                 config, InitializeTunables(config), None))
  }

  /** `initializeLoggedNetworkPID`: each tunable starts at the configured value
      it mirrors. */
  function InitializeTunables(config: ElevatorGains): (t: ElevatorGains)
    ensures t.kP == config.kP && t.kI == config.kI && t.kD == config.kD
    ensures t.kV == config.kV && t.kS == config.kS && t.kG == config.kG
    ensures t.cruiseVelocity == config.cruiseVelocity
    ensures t.acceleration == config.acceleration && t.jerk == config.jerk
  {
    ElevatorGains(config.kP, config.kI, config.kD, config.kV, config.kS, config.kG,
                  config.cruiseVelocity, config.acceleration, config.jerk)
  }

  /** Reading `toBeSetState`; before the first assignment this throws. */
  function ToBeSetState(e: Elevator): (r: Result<ElevatorState>)
    ensures r.Ok? <==> e.toBeSetState.Some?
    ensures r.Ok? ==> r.value == e.toBeSetState.value
    ensures r.Failure? ==> r.fault.UninitializedProperty?
  {
    match e.toBeSetState
    case Some(s) => Ok(s)
    case None => Failure(UninitializedProperty("toBeSetState"))
  }

  /** `setToBeSetState(level)`: remember the level; nothing else changes. */
  function SetToBeSetState(e: Elevator, level: ElevatorState): (r: Elevator)
    ensures ToBeSetState(r) == Ok(level)
    ensures r.motor == e.motor && r.config == e.config && r.tunables == e.tunables
  {
    e.(toBeSetState := Some(level))
  }

  /** `elevatorMove(state)`: command the level's position as a closed-loop
      position setpoint; the stored target level is untouched. */
  function ElevatorMove(e: Elevator, state: ElevatorState): (r: Elevator)
    ensures r.motor.control.PositionRequest?
    ensures 0.0 <= r.motor.control.position <= 65.0
    ensures r.motor.control.position == Height(state) as real * Step
    // only the control request changes on the motor
    ensures r.motor == e.motor.(control := PositionRequest(Pos(state)))
    ensures r.toBeSetState == e.toBeSetState && r.config == e.config && r.tunables == e.tunables
  {
    PosIsHeightTimesStep(state);
    e.(motor := SetControl(e.motor, PositionRequest(Pos(state))))
  }

  /** The commanded setpoint identifies the level it came from. */
  lemma MoveSetpointDeterminesLevel(e: Elevator, s: ElevatorState, t: ElevatorState)
    requires ElevatorMove(e, s).motor.control == ElevatorMove(e, t).motor.control
    ensures s == t
  {
    PosInjective(s, t);
  }

  /** Only the last assignment of the target level is observable. */
  lemma LastSetWins(e: Elevator, a: ElevatorState, b: ElevatorState)
    ensures SetToBeSetState(SetToBeSetState(e, a), b) == SetToBeSetState(e, b)
  {
  }

  /** Choosing a level and moving the carriage touch disjoint state, so the
      order in which they happen does not matter. */
  lemma SetAndMoveCommute(e: Elevator, level: ElevatorState, state: ElevatorState)
    ensures ElevatorMove(SetToBeSetState(e, level), state)
         == SetToBeSetState(ElevatorMove(e, state), level)
  {
  }

  /** Moving to the stored target level after selection:
      the setpoint is the selected level's position. */
  lemma MoveToSelectedLevel(e: Elevator, level: ElevatorState)
    ensures var e' := SetToBeSetState(e, level);
            ToBeSetState(e').Ok? &&
            ElevatorMove(e', ToBeSetState(e').value).motor.control == PositionRequest(Pos(level))
  {
  }
}
