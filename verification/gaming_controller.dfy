/** D-pad decoding of the gaming pad (GamingController.kt). The pad reports
    its D-pad as a POV angle in whole degrees, clockwise from up in steps of
    45, or -1 when nothing is pressed. The POV is a 32-bit Kotlin `Int`. */
module GamingControllers {

  const IntMin: int := -0x8000_0000
  const IntMax: int := 0x7fff_ffff

  /** Kotlin's `Int` division by a positive divisor, which truncates toward
      zero (Dafny's `/` is Euclidean and rounds negative dividends down). */
  function TruncDiv(a: int, b: int): (q: int)
    requires b > 0
    ensures a >= 0 ==> 0 <= a - b * q < b
    ensures a < 0 ==> 0 <= b * q - a < b
  {
    if a >= 0 then a / b else -((-a) / b)
  }

  /** Kotlin's `Double.toInt()` on a real value: truncate toward zero, then
      saturate to the `Int` range. */
  function TruncToInt(x: real): (n: int)
    ensures IntMin <= n <= IntMax
    ensures IntMin < n < IntMax && n > 0 ==> n as real <= x < n as real + 1.0
    ensures IntMin < n < IntMax && n < 0 ==> n as real - 1.0 < x <= n as real
    ensures n == 0 ==> -1.0 < x < 1.0
    // saturation: the extremes are reached exactly by the out-of-range inputs
    ensures n == IntMax <==> x >= IntMax as real
    ensures n == IntMin <==> x <= IntMin as real
  {
    var t := if x >= 0.0 then x.Floor else -((-x).Floor);
    if t < IntMin then IntMin else if t > IntMax then IntMax else t
  }

  /** `checkDPad(index)`: the D-pad points in direction `index` (0 = up,
      counting clockwise in eighths). */
  function CheckDPad(pov: int, index: int): bool {
    0 <= index && index <= 7 && index * 45 == pov
  }

  /** `dPad`: the direction index, or -1 when released. */
  function DPad(pov: int): int {
    if pov == -1 then pov else TruncDiv(pov, 45)
  }

  /** `dPadIsPressed()`. */
  function DPadIsPressed(pov: int): bool {
    pov != -1
  }

  function DPadUp(pov: int): bool { CheckDPad(pov, 0) }
  function DPadRight(pov: int): bool { CheckDPad(pov, 2) }
  function DPadDown(pov: int): bool { CheckDPad(pov, 4) }
  function DPadLeft(pov: int): bool { CheckDPad(pov, 6) }

  /** `checkDPad(angle, inDegrees)`: the angle, converted to degrees when
      given in radians, truncated to an `Int`, equals the POV. The
      radians-to-degrees conversion is floating point and is a parameter. */
  function CheckDPadAngle(pov: int, angle: real, inDegrees: bool, toDegrees: real -> real): (r: bool)
    ensures inDegrees ==> (r <==> TruncToInt(angle) == pov)
    ensures !inDegrees ==> (r <==> TruncToInt(toDegrees(angle)) == pov)
  {
    var angdeg := if inDegrees then angle else toDegrees(angle);
    TruncToInt(angdeg) == pov
  }

  /** Indices outside 0..7 never match, whatever the POV. */
  lemma CheckDPadOutOfRange(pov: int, index: int)
    requires index < 0 || index > 7
    ensures !CheckDPad(pov, index)
  {
  }

  /** `checkDPad(index)` holds exactly on the eight multiples of 45 in
      [0, 360), and then `dPad` reports that same index: the two decodings
      agree. */
  lemma CheckDPadMatchesDPad(pov: int, index: int)
    ensures CheckDPad(pov, index) <==> 0 <= pov < 360 && pov % 45 == 0 && DPad(pov) == index
  {
  }

  /** For index 0..7, `checkDPad(index)` holds iff the POV is 45 * index. */
  lemma CheckDPadIsAngle(pov: int, index: int)
    requires 0 <= index <= 7
    ensures CheckDPad(pov, index) <==> pov == 45 * index
  {
  }

  /** The four named directions are up, right, down, left, and at most one
      of them reads true for any POV. */
  lemma CardinalDirections(pov: int)
    ensures DPadUp(pov) <==> pov == 0
    ensures DPadRight(pov) <==> pov == 90
    ensures DPadDown(pov) <==> pov == 180
    ensures DPadLeft(pov) <==> pov == 270
    ensures (if DPadUp(pov) then 1 else 0) + (if DPadRight(pov) then 1 else 0)
          + (if DPadDown(pov) then 1 else 0) + (if DPadLeft(pov) then 1 else 0) <= 1
  {
  }

  /** For every POV the hardware reports (-1, or 0..359 degrees), `dPad` is
      -1 or a direction index 0..7, the index is the 45-degree sector holding
      the POV, and the pad is pressed exactly when `dPad` is not -1. */
  lemma DPadOnReportedRange(pov: int)
    requires pov == -1 || 0 <= pov < 360
    ensures DPadIsPressed(pov) <==> DPad(pov) != -1
    ensures DPadIsPressed(pov) ==> 0 <= DPad(pov) <= 7 && 45 * DPad(pov) <= pov < 45 * DPad(pov) + 45
  {
  }

  /** Outside the reported range the two readings disagree: a POV of -45
      counts as pressed while `dPad` is -1. */
  lemma DPadAmbiguousOffRange()
    ensures DPadIsPressed(-45) && DPad(-45) == -1
  {
  }

  /** With the angle in degrees, `checkDPad(angle, true)` accepts exactly the
      angles whose truncation toward zero is the POV: a unit interval closed
      toward zero and open away from it, and (-1, 1) for POV 0. */
  lemma CheckDPadAngleInterval(pov: int, angle: real, toDegrees: real -> real)
    requires IntMin < pov < IntMax
    ensures pov > 0 ==> (CheckDPadAngle(pov, angle, true, toDegrees) <==> pov as real <= angle < pov as real + 1.0)
    ensures pov < 0 ==> (CheckDPadAngle(pov, angle, true, toDegrees) <==> pov as real - 1.0 < angle <= pov as real)
    ensures pov == 0 ==> (CheckDPadAngle(pov, angle, true, toDegrees) <==> -1.0 < angle < 1.0)
  {
    var n := TruncToInt(angle);
    if pov > 0 && pov as real <= angle < pov as real + 1.0 {
      assert angle.Floor == pov;
    }
    if pov < 0 && pov as real - 1.0 < angle <= pov as real {
      assert (-angle).Floor == -pov;
    }
    if pov == 0 && -1.0 < angle < 1.0 {
      if angle >= 0.0 { assert angle.Floor == 0; } else { assert (-angle).Floor == 0; }
    }
  }
}
