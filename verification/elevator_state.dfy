/** The elevator's named levels and their calibrated positions (ElevatorState.kt). */
module ElevatorStates {

  /** The enum constants, in declaration order L4, L3, L2, L1, L0. */
  datatype ElevatorState = L4 | L3 | L2 | L1 | L0

  /** The constants as `values()` lists them. */
  const Declared: seq<ElevatorState> := [L4, L3, L2, L1, L0]

  /** Spacing between consecutive levels, in motor rotations. */
  const Step: real := 16.25

  /** The `pos` property of each constant. */
  function Pos(s: ElevatorState): (p: real)
    ensures 0.0 <= p <= 65.0
  {
    match s
    case L4 => 65.0
    case L3 => 48.75
    case L2 => 32.5
    case L1 => 16.25
    case L0 => 0.0
  }

  /** The digit in the constant's name: `Lk` has height `k`. */
  function Height(s: ElevatorState): (k: nat)
    ensures k <= 4
  {
    match s
    case L4 => 4
    case L3 => 3
    case L2 => 2
    case L1 => 1
    case L0 => 0
  }

  /** Level `Lk` sits exactly `k` steps above the bottom. */
  lemma PosIsHeightTimesStep(s: ElevatorState)
    ensures Pos(s) == Height(s) as real * Step
  {
  }

  /** Positions strictly decrease along the declaration order, so no two
      levels share a position and `Declared` lists every constant once. */
  lemma DeclaredOrderStrictlyDecreasing()
    ensures forall i, j :: 0 <= i < j < |Declared| ==> Pos(Declared[i]) > Pos(Declared[j])
    ensures forall s :: s in Declared
  {
    forall i, j | 0 <= i < j < |Declared|
      ensures Pos(Declared[i]) > Pos(Declared[j])
    {
      PosIsHeightTimesStep(Declared[i]);
      PosIsHeightTimesStep(Declared[j]);
      assert Height(Declared[i]) == 4 - i;
      assert Height(Declared[j]) == 4 - j;
    }
    forall s: ElevatorState ensures s in Declared {
      assert Declared[4 - Height(s)] == s;
    }
  }

  /** Consecutive declared levels are exactly one `Step` apart. */
  lemma EquallySpaced(i: nat)
    requires i + 1 < |Declared|
    ensures Pos(Declared[i]) - Pos(Declared[i + 1]) == Step
  {
  }

  /** Distinct levels have distinct positions. */
  lemma PosInjective(s: ElevatorState, t: ElevatorState)
    requires Pos(s) == Pos(t)
    ensures s == t
  {
  }
}
