/** Camera selection and target bookkeeping of the vision subsystem
    (PhotonVision.kt). Each scheduler tick picks the camera whose unread
    results contain the best target with the least pose ambiguity, reads that
    camera's results once more, and copies the first result's best target and
    its targets' readings into the subsystem. Camera reads are inputs: one
    list per camera for the selection pass, and the list the chosen camera
    returns on the second read. */
module PhotonVisionSubsystem {
  import opened Common

  /** The fields of a tracked target the subsystem reads. */
  datatype Target = Target(poseAmbiguity: real, yaw: real, cameraToTargetX: real, cameraToTargetZ: real)

  /** A pipeline result: its targets and the best of them (which the vision
      library chooses; the model takes it as given). */
  datatype PipelineResult = PipelineResult(targets: seq<Target>, bestTarget: Option<Target>) {
    predicate HasTargets() { |targets| > 0 }
  }

  /** What one camera read returns: a nullable list of nullable results. */
  type ReadList = Option<seq<Option<PipelineResult>>>

  /** Yaw, y and distance as last copied from a target. */
  datatype TargetReading = TargetReading(yaw: real, y: real, dist: real)

  datatype PhotonVision = PhotonVision(
    bestCamera: Option<nat>,  // index into the camera list
    currentResult: Option<PipelineResult>,
    currentTarget: Option<Target>,
    reading: TargetReading,
    targetPoseAmbiguity: real)

  /** The ambiguity reported while no best target is known. */
  const NoAmbiguity: real := 7157.0

  /** `Double.MAX_VALUE`, the starting bound of the selection. */
  const DoubleMax: real := 179769313486231570814527423731704356798070567525844996598917476803157260780028538760589558632766878171540458953514382464234321326889464182768467546703537516986049910576551282076245490090389328944075868508455133942304583236903222948165808559332123348274797826204144723168738177180919299881250404026184124858368 as real

  /** The subsystem's state before its first tick. */
  const Initial: PhotonVision := PhotonVision(None, None, None, TargetReading(-15.0, 0.0, 0.0), NoAmbiguity)

  // ---------------------------------------------------------------------------
  // Least-ambiguity camera selection

  /** The ambiguity a result contributes to the selection: only a non-null
      result with targets and a non-null best target contributes. */
  function Considered(r: Option<PipelineResult>): Option<real> {
    if r.Some? && r.value.HasTargets() && r.value.bestTarget.Some?
    then Some(r.value.bestTarget.value.poseAmbiguity) else None
  }

  /** Among the first `k` results of a camera's list, one contributes
      ambiguity `a`, and `a` beats the starting bound. */
  predicate OffersWithin(rl: ReadList, k: int, a: real) {
    rl.Some? && 0 <= k <= |rl.value| && a < DoubleMax &&
    exists j :: 0 <= j < k && Considered(rl.value[j]) == Some(a)
  }

  /** Extending the prefix by one result adds exactly that result's contribution. */
  lemma OffersWithinStep(rl: ReadList, k: int, k': int)
    requires rl.Some? && 0 <= k < |rl.value| && k' == k + 1
    ensures forall a :: OffersWithin(rl, k', a) <==>
      OffersWithin(rl, k, a) || (Considered(rl.value[k]) == Some(a) && a < DoubleMax)
  {
    forall a | OffersWithin(rl, k', a)
      ensures OffersWithin(rl, k, a) || (Considered(rl.value[k]) == Some(a) && a < DoubleMax)
    {
      var j :| 0 <= j < k' && Considered(rl.value[j]) == Some(a);
      if j < k {
        assert OffersWithin(rl, k, a);
      }
    }
  }

  /** Some result of the camera's list contributes ambiguity `a`. */
  predicate Offers(rl: ReadList, a: real) {
    rl.Some? && OffersWithin(rl, |rl.value|, a)
  }

  /** Camera `c` is the answer: it offers an ambiguity that no camera beats,
      and every earlier camera only offers strictly larger ones. */
  ghost predicate IsLeastAmbiguityCamera(lists: seq<ReadList>, c: nat) {
    c < |lists| &&
    exists a :: Offers(lists[c], a) &&
      (forall c', a' :: 0 <= c' < |lists| && Offers(lists[c'], a') ==> a <= a') &&
      (forall c', a' :: 0 <= c' < c && Offers(lists[c'], a') ==> a < a')
  }

  /** The `cameraWithLeastAmbiguity` getter. The comparison is strict, so
      on a tie the earliest camera is kept. */
  method CameraWithLeastAmbiguity(lists: seq<ReadList>) returns (best: Option<nat>)
    ensures best.None? <==> forall c, a :: 0 <= c < |lists| ==> !Offers(lists[c], a)
    ensures best.Some? ==> IsLeastAmbiguityCamera(lists, best.value)
    // a camera whose list is null or empty is never chosen
    ensures best.Some? ==> lists[best.value].Some? && |lists[best.value].value| > 0
  {
    best := None;
    var bestAmbiguity := DoubleMax;
    var c := 0;
    while c < |lists|
      invariant 0 <= c <= |lists|
      invariant best.None? ==> bestAmbiguity == DoubleMax
      invariant best.None? ==> forall c', a :: 0 <= c' < c ==> !Offers(lists[c'], a)
      invariant best.Some? ==> best.value < c && Offers(lists[best.value], bestAmbiguity)
      invariant forall c', a :: 0 <= c' < c && Offers(lists[c'], a) ==> bestAmbiguity <= a
      invariant best.Some? ==> forall c', a :: 0 <= c' < best.value && Offers(lists[c'], a) ==> bestAmbiguity < a
    {
      var results := lists[c];
      if results.Some? && |results.value| > 0 {
        var list := results.value;
        var k := 0;
        while k < |list|
          invariant 0 <= k <= |list|
          invariant best.None? ==> bestAmbiguity == DoubleMax
          invariant best.None? ==> forall c', a :: 0 <= c' < c ==> !Offers(lists[c'], a)
          invariant best.None? ==> forall a :: !OffersWithin(results, k, a)
          invariant best.Some? ==> best.value <= c
          invariant best.Some? && best.value < c ==> Offers(lists[best.value], bestAmbiguity)
          invariant best.Some? && best.value == c ==> OffersWithin(results, k, bestAmbiguity)
          invariant forall c', a :: 0 <= c' < c && Offers(lists[c'], a) ==> bestAmbiguity <= a
          invariant forall a :: OffersWithin(results, k, a) ==> bestAmbiguity <= a
          invariant best.Some? ==> forall c', a :: 0 <= c' < best.value && Offers(lists[c'], a) ==> bestAmbiguity < a
        {
          ghost var before := bestAmbiguity;
          var result := list[k];
          if result.Some? && result.value.HasTargets() {
            var target := result.value.bestTarget;
            if target.Some? && target.value.poseAmbiguity < bestAmbiguity {
              bestAmbiguity := target.value.poseAmbiguity;
              best := Some(c);
            }
          }
          assert Considered(list[k]).Some? ==> bestAmbiguity <= Considered(list[k]).value;
          assert bestAmbiguity != before ==> Considered(list[k]) == Some(bestAmbiguity) && bestAmbiguity < before;
          OffersWithinStep(results, k, k + 1);
          k := k + 1;
        }
        assert forall a :: OffersWithin(results, k, a) <==> Offers(lists[c], a);
      }
      c := c + 1;
    }
    if best.Some? {
      assert IsLeastAmbiguityCamera(lists, best.value) by {
        assert Offers(lists[best.value], bestAmbiguity);
      }
    }
  }

  /** The characterisation leaves no choice: at most one camera satisfies it. */
  lemma LeastAmbiguityCameraUnique(lists: seq<ReadList>, c: nat, d: nat)
    requires IsLeastAmbiguityCamera(lists, c) && IsLeastAmbiguityCamera(lists, d)
    ensures c == d
  {
    var a :| Offers(lists[c], a) &&
      (forall c', a' :: 0 <= c' < |lists| && Offers(lists[c'], a') ==> a <= a') &&
      (forall c', a' :: 0 <= c' < c && Offers(lists[c'], a') ==> a < a');
    var b :| Offers(lists[d], b) &&
      (forall c', a' :: 0 <= c' < |lists| && Offers(lists[c'], a') ==> b <= a') &&
      (forall c', a' :: 0 <= c' < d && Offers(lists[c'], a') ==> b < a');
    assert a <= b && b <= a;
    assert c < d ==> b < a;
    assert d < c ==> a < b;
  }

  // ---------------------------------------------------------------------------
  // Periodic update

  function ReadingOf(t: Target): TargetReading {
    TargetReading(t.yaw, t.cameraToTargetX, t.cameraToTargetZ)
  }

  /** The loop over a result's targets: each target overwrites yaw, y and
      dist, so the last one wins and an empty list changes nothing. */
  function LastWins(acc: TargetReading, targets: seq<Target>): (r: TargetReading)
    ensures |targets| == 0 ==> r == acc
    ensures |targets| > 0 ==> r == ReadingOf(targets[|targets| - 1])
    decreases |targets|
  {
    if |targets| == 0 then acc else LastWins(ReadingOf(targets[0]), targets[1..])
  }

  /** What `periodic` does once the best camera is known. `secondRead` is what
      the chosen camera's second read returns; dereferencing it when null
      throws. */
  function Update(s: PhotonVision, best: Option<nat>, secondRead: ReadList): (r: Result<PhotonVision>)
    ensures r.Failure? <==> best.Some? && secondRead.None?
    ensures r.Ok? ==> r.value.bestCamera == best
    // no best camera, or no current result: target, ambiguity and readings are kept
    ensures r.Ok? && (best.None? || r.value.currentResult.None?) ==>
      r.value.currentTarget == s.currentTarget && r.value.targetPoseAmbiguity == s.targetPoseAmbiguity &&
      r.value.reading == s.reading
    ensures best.None? ==> r == Ok(s.(bestCamera := None))
    // otherwise the current result is the first of the second read, if any
    ensures best.Some? && secondRead.Some? ==>
      r.value.currentResult == (if |secondRead.value| == 0 then None else secondRead.value[0])
    ensures r.Ok? && best.Some? && r.value.currentResult.Some? ==>
      var res := r.value.currentResult.value;
      && r.value.currentTarget == res.bestTarget
      && r.value.targetPoseAmbiguity == (if res.bestTarget.Some? then res.bestTarget.value.poseAmbiguity else NoAmbiguity)
      && (res.HasTargets() ==> r.value.reading == ReadingOf(res.targets[|res.targets| - 1]))
      && (!res.HasTargets() ==> r.value.reading == s.reading)
  {
    var s1 := s.(bestCamera := best);
    if best.None? then Ok(s1)
    else if secondRead.None? then Failure(NullDereference("allUnreadResults"))
    else
      var list := secondRead.value;
      var current := if |list| == 0 then None else list[0];
      var s2 := s1.(currentResult := current);
      if current.None? then Ok(s2)
      else
        var target := current.value.bestTarget;
        Ok(s2.(currentTarget := target,
               targetPoseAmbiguity := if target.Some? then target.value.poseAmbiguity else NoAmbiguity,
               reading := LastWins(s.reading, current.value.targets)))
  }

  /** `periodic()`: select the best camera from the first lists, then update
      from its second read. */
  method Periodic(s: PhotonVision, lists: seq<ReadList>, secondRead: ReadList) returns (r: Result<PhotonVision>)
    ensures r.Ok? ==> (r.value.bestCamera.Some? ==> IsLeastAmbiguityCamera(lists, r.value.bestCamera.value))
    ensures r.Ok? ==> (r.value.bestCamera.None? <==> forall c, a :: 0 <= c < |lists| ==> !Offers(lists[c], a))
    ensures (forall c, a :: 0 <= c < |lists| ==> !Offers(lists[c], a)) ==> r == Ok(s.(bestCamera := None))
    ensures exists best :: r == Update(s, best, secondRead)
  {
    var best := CameraWithLeastAmbiguity(lists);
    r := Update(s, best, secondRead);
  }

  /** `hasTag()`. */
  function HasTag(s: PhotonVision): bool {
    s.currentResult.Some? && s.currentResult.value.HasTargets()
  }

  /** After an update from a chosen camera, a tag is visible exactly when the
      second read's first result is non-null and has targets; and then the
      readings come from that result's last target. */
  lemma HasTagAfterUpdate(s: PhotonVision, c: nat, list: seq<Option<PipelineResult>>)
    ensures var r := Update(s, Some(c), Some(list));
            r.Ok? &&
            (HasTag(r.value) <==> |list| > 0 && list[0].Some? && |list[0].value.targets| > 0)
    ensures var r := Update(s, Some(c), Some(list));
            HasTag(r.value) ==> r.value.reading == ReadingOf(list[0].value.targets[|list[0].value.targets| - 1])
  {
  }

  /** With no camera chosen, a tick changes nothing but the (already absent)
      camera choice: ticking again is a no-op. */
  lemma UpdateWithoutCameraIdempotent(s: PhotonVision, secondRead: ReadList)
    ensures Update(s, None, secondRead).Ok?
    ensures Update(Update(s, None, secondRead).value, None, secondRead) == Update(s, None, secondRead)
  {
  }

  /** Before the first tick no tag is visible and the placeholders hold. */
  lemma InitialState()
    ensures !HasTag(Initial)
    ensures Initial.targetPoseAmbiguity == NoAmbiguity && Initial.reading.yaw == -15.0
  {
  }
}
