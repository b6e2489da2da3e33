/** A PID gain set extended with a velocity feed-forward term `v`
    (PIDVController.kt). The framework PID controller is reduced to its three
    gains; its integrator, tolerance and timing state are not modelled. */
module PIDV {

  /** The framework PID controller, as far as the robot code reads it. */
  datatype PIDController = PIDController(p: real, i: real, d: real)

  /** A PID controller that also carries a feed-forward velocity gain. It is a
      PID controller, so `Pid()` is the view every PID consumer sees. */
  datatype PIDVController = PIDVController(p: real, i: real, d: real, v: real) {
    function Pid(): PIDController {
      PIDController(p, i, d)
    }
  }

  /** Primary constructor `PIDVController(kp, ki, kd, kV)`. */
  function FromGains(kp: real, ki: real, kd: real, kV: real): (c: PIDVController)
    ensures c.Pid() == PIDController(kp, ki, kd)
    ensures c.v == kV
  {
    PIDVController(kp, ki, kd, kV)
  }

  /** Copy constructor `PIDVController(controller, kV)`: the PID gains come from
      `controller`, the velocity term from `kV` alone. */
  function FromController(controller: PIDController, kV: real): (c: PIDVController)
    ensures c.Pid() == controller
    ensures c.v == kV
  {
    PIDVController(controller.p, controller.i, controller.d, kV)
  }

  /** Assigning the mutable property `v`. */
  function SetV(c: PIDVController, kV: real): (r: PIDVController)
    ensures r.Pid() == c.Pid()
    ensures r.v == kV
  {
    c.(v := kV)
  }

  /** The two constructors agree: copying a controller is the same as passing
      its gains one by one, and the source's own `v` plays no part. */
  lemma ConstructorsAgree(src: PIDVController, kV: real)
    ensures FromController(src.Pid(), kV) == FromGains(src.p, src.i, src.d, kV)
    ensures FromController(src.Pid(), kV) == SetV(src, kV)
  {
  }

  /** Every controller is rebuilt by the copy constructor from its PID view
      and its own `v`: the PID view and `v` together lose nothing. */
  lemma CopyRoundTrip(c: PIDVController)
    ensures FromController(c.Pid(), c.v) == c
  {
  }
}
