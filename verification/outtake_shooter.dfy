/** The outtake shooter (OuttakeShooter.kt): a one-flag coral-intake state
    machine driven by the coral sensor reading, plus the shot that raises the
    elevator to L4. The machine reacts only to the sensor reading being
    false; what the sensor's true or false means physically is not modelled. */
module OuttakeShooterSubsystem {
  import opened Hardware
  import opened ElevatorStates
  import ElevatorSubsystem

  /** Position the shooter holds while feeding coral in (`FORWARD.pos`). */
  const ForwardPos: real := 1.0
  /** Position the shooter is driven to by a shot. */
  const ShootPos: real := 65.0

  datatype OuttakeShooter = OuttakeShooter(motor: Motor, intakingCoral: bool)

  /** The subsystem's initialisation: the flag starts clear and the motor's
      position reference is zeroed. The motor's vendor configuration is done
      by a library call outside this model, so its gains are not stated. */
  function Init(motor: Motor): (r: OuttakeShooter)
    ensures !r.intakingCoral
    ensures r.motor.position == 0.0
    ensures r.motor.control == motor.control
  {
    OuttakeShooter(SetPosition(motor, 0.0), false)
  }

  /** `intakeCoral()`: raise the flag; no motor is commanded here. */
  function IntakeCoral(o: OuttakeShooter): (r: OuttakeShooter)
    ensures r.intakingCoral
    ensures r.motor == o.motor
  {
    o.(intakingCoral := true)
  }

  /** One scheduler tick with the coral sensor reading `sensor`. */
  function Periodic(o: OuttakeShooter, sensor: bool): (r: OuttakeShooter)
    // idle: nothing is commanded and the flag stays clear
    ensures !o.intakingCoral ==> r == o
    // intaking and the reading is false: stop and clear the flag
    ensures o.intakingCoral && !sensor ==>
      r.motor.control == Stopped && !r.intakingCoral
    // intaking and the reading is true: hold the forward position and keep the flag
    ensures o.intakingCoral && sensor ==>
      r.motor.control == PositionRequest(ForwardPos) && r.intakingCoral
    // only the control request ever changes on the motor
    ensures r.motor == o.motor.(control := r.motor.control)
  {
    if o.intakingCoral then
      if !sensor then OuttakeShooter(SetControl(o.motor, Stopped), false)
      else o.(motor := SetControl(o.motor, PositionRequest(ForwardPos)))
    else o
  }

  /** The state after one tick per element of `sensors`, in order. */
  function Run(o: OuttakeShooter, sensors: seq<bool>): OuttakeShooter
    decreases |sensors|
  {
    if |sensors| == 0 then o else Run(Periodic(o, sensors[0]), sensors[1..])
  }

  /** Once the flag is clear it stays clear and the motor is left alone, over
      any number of ticks and any sensor readings. */
  lemma {:induction false} ClearedStaysCleared(o: OuttakeShooter, sensors: seq<bool>)
    requires !o.intakingCoral
    ensures Run(o, sensors) == o
    decreases |sensors|
  {
    if |sensors| > 0 {
      ClearedStaysCleared(Periodic(o, sensors[0]), sensors[1..]);
    }
  }

  /** While intaking, the flag survives exactly as long as the sensor keeps
      reading true: after any run it is set iff no reading was false. */
  lemma {:induction false} FlagClearsOnFirstFalse(o: OuttakeShooter, sensors: seq<bool>)
    requires o.intakingCoral
    ensures Run(o, sensors).intakingCoral <==> forall k :: 0 <= k < |sensors| ==> sensors[k]
    decreases |sensors|
  {
    if |sensors| > 0 {
      var o' := Periodic(o, sensors[0]);
      if sensors[0] {
        FlagClearsOnFirstFalse(o', sensors[1..]);
        assert forall k :: 1 <= k < |sensors| ==> sensors[k] == sensors[1..][k - 1];
      } else {
        ClearedStaysCleared(o', sensors[1..]);
      }
    }
  }

  /** `shootMotor()`: the elevator is commanded to L4 and the shooter to the
      shot position; the intake flag is untouched. */
  function ShootMotor(o: OuttakeShooter, e: ElevatorSubsystem.Elevator): (r: (OuttakeShooter, ElevatorSubsystem.Elevator))
    ensures r.1 == ElevatorSubsystem.ElevatorMove(e, L4)
    ensures r.1.motor.control == PositionRequest(65.0)
    ensures r.0.motor.control == PositionRequest(ShootPos)
    ensures r.0.intakingCoral == o.intakingCoral
    // only the control request changes on the shooter motor
    ensures r.0.motor == o.motor.(control := PositionRequest(ShootPos))
  {
    (o.(motor := SetControl(o.motor, PositionRequest(ShootPos))), ElevatorSubsystem.ElevatorMove(e, L4))
  }

  /** Starting an intake and then ticking: the motor ends up stopped exactly
      when some reading was false, and holding forward otherwise. */
  lemma IntakeThenRun(o: OuttakeShooter, sensors: seq<bool>)
    requires |sensors| > 0
    ensures var r := Run(IntakeCoral(o), sensors);
            (exists k :: 0 <= k < |sensors| && !sensors[k]) <==> r.motor.control == Stopped
  {
    FlagClearsOnFirstFalse(IntakeCoral(o), sensors);
    LastCommandOfRun(IntakeCoral(o), sensors);
  }

  /** While intaking, every tick commands the motor, so after a non-empty run
      the last command is Stopped once the flag has dropped and the forward
      hold otherwise. */
  lemma {:induction false} LastCommandOfRun(o: OuttakeShooter, sensors: seq<bool>)
    requires o.intakingCoral && |sensors| > 0
    ensures Run(o, sensors).motor.control
         == if Run(o, sensors).intakingCoral then PositionRequest(ForwardPos) else Stopped
    decreases |sensors|
  {
    var o' := Periodic(o, sensors[0]);
    if |sensors| == 1 {
      assert Run(o', sensors[1..]) == o';
    } else if o'.intakingCoral {
      LastCommandOfRun(o', sensors[1..]);
    } else {
      ClearedStaysCleared(o', sensors[1..]);
    }
  }

  /** The shot does not end an intake: with the flag still set, the next tick
      with a true reading replaces the shot's request by the forward hold. */
  lemma IntakeTickOverridesShot(o: OuttakeShooter, e: ElevatorSubsystem.Elevator)
    requires o.intakingCoral
    ensures var shot := ShootMotor(o, e).0;
            shot.intakingCoral && Periodic(shot, true).motor.control == PositionRequest(ForwardPos)
  {
  }
}
