/** Teleop drive-input shaping (PadDrive.kt): stick axes become chassis
    speeds. Translation axes are negated, scaled by the maximum speed and then
    dead-zoned; rotation is dead-zoned on the raw axis, negated and scaled by
    the maximum angular speed, and halved when handed to the chassis. */
module PadDriveCommand {

  /** The drive constants the command reads. Their values live in the robot's
      parameter file, which is not part of this model. */
  datatype DriveParameters = DriveParameters(
    maxSpeed: real, maxAngularSpeed: real, xDeadzone: real, yDeadzone: real)

  /** One sample of the three stick axes the command reads. */
  datatype PadAxes = PadAxes(leftX: real, leftY: real, rightX: real)

  /** The arguments of the chassis call `setDriveSpeeds(a, b, rot, fieldOriented)`,
      in call order. What the chassis does with them is not modelled. */
  datatype DriveCall = DriveCall(first: real, second: real, rotation: real, fieldOriented: bool)

  /** The raw rotation-axis threshold below which rotation is ignored. */
  const RotationThreshold: real := 0.1

  /** Share of the computed rotation passed on to the chassis. */
  const RotationScale: real := 0.5

  function Abs(r: real): real {
    if r < 0.0 then -r else r
  }

  /** Negate and scale one axis, then zero it when the scaled value is
      smaller in magnitude than the dead-zone. */
  function ShapeAxis(axis: real, maxSpeed: real, deadzone: real): real {
    var v := -axis * maxSpeed;
    if Abs(v) < deadzone then 0.0 else v
  }

  /** `positionSet(pad)`: the pair (x, y). */
  function PositionSet(pad: PadAxes, p: DriveParameters): (xy: (real, real))
    ensures xy.0 == 0.0 || xy.0 == -pad.leftX * p.maxSpeed
    ensures xy.1 == 0.0 || xy.1 == -pad.leftY * p.maxSpeed
  {
    (ShapeAxis(pad.leftX, p.maxSpeed, p.xDeadzone), ShapeAxis(pad.leftY, p.maxSpeed, p.yDeadzone))
  }

  /** The rotation computed by `execute()`, before it is halved. */
  function Rotation(pad: PadAxes, p: DriveParameters): (rot: real)
    ensures rot == 0.0 || rot == -pad.rightX * p.maxAngularSpeed
  {
    if Abs(pad.rightX) >= RotationThreshold then -pad.rightX * p.maxAngularSpeed else 0.0
  }

  /** `execute()`: the call made on the chassis each scheduler tick. */
  function Execute(pad: PadAxes, p: DriveParameters, isFieldOriented: bool): (call: DriveCall)
    // the y output goes first and the x output second
    ensures (call.second, call.first) == PositionSet(pad, p)
    ensures call.rotation * 2.0 == Rotation(pad, p)
    ensures call.fieldOriented == isFieldOriented
  {
    var xy := PositionSet(pad, p);
    DriveCall(xy.1, xy.0, Rotation(pad, p) * RotationScale, isFieldOriented)
  }

  /** The x output is the negated, scaled stick value exactly when that value
      reaches the dead-zone in magnitude, and exactly zero otherwise. */
  lemma XDeadzone(pad: PadAxes, p: DriveParameters)
    ensures Abs(-pad.leftX * p.maxSpeed) >= p.xDeadzone ==> PositionSet(pad, p).0 == -pad.leftX * p.maxSpeed
    ensures Abs(-pad.leftX * p.maxSpeed) < p.xDeadzone ==> PositionSet(pad, p).0 == 0.0
  {
    assert PositionSet(pad, p).0 == ShapeAxis(pad.leftX, p.maxSpeed, p.xDeadzone);
  }

  /** The same for y, with its own dead-zone. */
  lemma YDeadzone(pad: PadAxes, p: DriveParameters)
    ensures Abs(-pad.leftY * p.maxSpeed) >= p.yDeadzone ==> PositionSet(pad, p).1 == -pad.leftY * p.maxSpeed
    ensures Abs(-pad.leftY * p.maxSpeed) < p.yDeadzone ==> PositionSet(pad, p).1 == 0.0
  {
    assert PositionSet(pad, p).1 == ShapeAxis(pad.leftY, p.maxSpeed, p.yDeadzone);
  }

  /** Because the dead-zone is applied to the scaled value, no output is
      ever smaller in magnitude than its dead-zone unless it is exactly zero. */
  lemma NoOutputInsideDeadzone(pad: PadAxes, p: DriveParameters)
    ensures PositionSet(pad, p).0 != 0.0 ==> Abs(PositionSet(pad, p).0) >= p.xDeadzone
    ensures PositionSet(pad, p).1 != 0.0 ==> Abs(PositionSet(pad, p).1) >= p.yDeadzone
  {
  }

  /** The dead-zone compares the scaled value, not the raw stick: with a
      maximum speed of 4 and an x dead-zone of 0.1, a stick deflection of
      0.05 is below 0.1 yet still drives at 0.2. */
  lemma DeadzoneIsOnScaledValue()
    ensures var p := DriveParameters(4.0, 1.0, 0.1, 0.1);
            PositionSet(PadAxes(0.05, 0.9, 0.0), p) == (-0.2, -3.6)
  {
  }

  /** Rotation is zero strictly below the raw threshold and proportional to
      the axis from the threshold on, the threshold itself included. */
  lemma RotationThresholdIncluded(pad: PadAxes, p: DriveParameters)
    ensures Abs(pad.rightX) < RotationThreshold ==> Rotation(pad, p) == 0.0
    ensures Abs(pad.rightX) >= RotationThreshold ==> Rotation(pad, p) == -pad.rightX * p.maxAngularSpeed
  {
  }

  /** Shaping is odd: mirroring every stick axis mirrors every argument of the
      chassis call. */
  lemma ExecuteIsOdd(pad: PadAxes, p: DriveParameters, isFieldOriented: bool)
    ensures var m := Execute(PadAxes(-pad.leftX, -pad.leftY, -pad.rightX), p, isFieldOriented);
            var c := Execute(pad, p, isFieldOriented);
            m.first == -c.first && m.second == -c.second && m.rotation == -c.rotation
  {
    assert Abs(-(-pad.leftX) * p.maxSpeed) == Abs(-pad.leftX * p.maxSpeed);
    assert Abs(-(-pad.leftY) * p.maxSpeed) == Abs(-pad.leftY * p.maxSpeed);
  }

  /** With every stick axis in [-1, 1] and non-negative maxima, the two
      translation arguments are bounded by the maximum speed and the rotation
      argument by half the maximum angular speed. */
  lemma ExecuteBounded(pad: PadAxes, p: DriveParameters, isFieldOriented: bool)
    requires -1.0 <= pad.leftX <= 1.0 && -1.0 <= pad.leftY <= 1.0 && -1.0 <= pad.rightX <= 1.0
    requires p.maxSpeed >= 0.0 && p.maxAngularSpeed >= 0.0
    ensures var c := Execute(pad, p, isFieldOriented);
            && Abs(c.first) <= p.maxSpeed && Abs(c.second) <= p.maxSpeed
            && Abs(c.rotation) * 2.0 <= p.maxAngularSpeed
  {
    var c := Execute(pad, p, isFieldOriented);
    ShapeAxisBounded(pad.leftX, p.maxSpeed, p.xDeadzone);
    ShapeAxisBounded(pad.leftY, p.maxSpeed, p.yDeadzone);
    RotationBounded(pad, p);
    assert c.rotation * 2.0 == Rotation(pad, p);
  }

  lemma ShapeAxisBounded(a: real, m: real, deadzone: real)
    requires -1.0 <= a <= 1.0 && m >= 0.0
    ensures Abs(ShapeAxis(a, m, deadzone)) <= m
  {
    ScaledAxisBounded(a, m);
  }

  lemma RotationBounded(pad: PadAxes, p: DriveParameters)
    requires -1.0 <= pad.rightX <= 1.0 && p.maxAngularSpeed >= 0.0
    ensures Abs(Rotation(pad, p)) <= p.maxAngularSpeed
  {
    ScaledAxisBounded(pad.rightX, p.maxAngularSpeed);
    var r := Rotation(pad, p);
    if r != 0.0 {
      assert r == -pad.rightX * p.maxAngularSpeed;
    }
  }

  lemma ScaledAxisBounded(a: real, m: real)
    requires -1.0 <= a <= 1.0 && m >= 0.0
    ensures -m <= -a * m <= m
  {
    if a >= 0.0 {
      assert a * m <= 1.0 * m;
    } else {
      assert (-a) * m <= 1.0 * m;
    }
  }
}
