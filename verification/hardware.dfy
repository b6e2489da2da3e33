/** Value records standing in for the vendor motor controller (TalonFX) and the
    absolute angle sensor (CANcoder). Only what the modelled code reads or
    writes is kept: the reported position and velocities, the connection flag,
    the last control request and the closed-loop gains last applied to slot 0.
    Sensor values are whatever the hardware reports; callers choose them. */
module Hardware {

  /** The four slot-0 closed-loop gains of a motor configuration. */
  datatype Slot = Slot(kP: real, kI: real, kD: real, kV: real)

  /** The last control request sent to a motor. */
  datatype Control =
    | NoRequest                 // nothing commanded since construction
    | Stopped                   // `stopMotor()`
    | PositionRequest(position: real)  // closed-loop position, in rotations
    | VelocityRequest(velocity: real)  // closed-loop velocity, in rotations per second

  datatype Motor = Motor(
    position: real,       // integrated position, rotations
    velocity: real,       // mechanism velocity, rotations per second
    rotorVelocity: real,  // rotor velocity, rotations per second
    connected: bool,
    control: Control,
    applied: Slot         // slot-0 gains held by the device
  )

  datatype Encoder = Encoder(absolutePosition: real, connected: bool)

  /** `setPosition(p)`: re-zero the motor's integrated position reference. */
  function SetPosition(m: Motor, p: real): (r: Motor)
  {
    m.(position := p)
  }

  /** `setControl(request)`: replaces the last control request and nothing else. */
  function SetControl(m: Motor, c: Control): (r: Motor)
  {
    m.(control := c)
  }

  /** `configurator.apply(config)`: the device now holds the configured slot-0 gains. */
  function Apply(m: Motor, s: Slot): (r: Motor)
  {
    m.(applied := s)
  }
}
