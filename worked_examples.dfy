/** Concrete paths between two poses with circles of radius 1: start at
    `a` = (0, 0) heading `up` = (0, 1), end at `b` = (4, 0) heading up. For
    LSL the construction and every measurement is computed exactly; for LSR
    the centres, the straight length and validity; and for LSR with an end
    pose too close to the start, the NaN path that is not valid. The poses
    are parameters pinned by `requires` so that the proofs reason about
    them symbolically. */
module WorkedExamples {
  import opened Wrappers
  import opened Numerics
  import opened PathTypes
  import opened Dubins
  import opened DubinsProperties

  predicate ExamplePoses(a: Vec, up: Vec, b: Vec) {
    a == Vec(0.0, 0.0) && up == Vec(0.0, 1.0) && b == Vec(4.0, 0.0)
  }

  /** Normalizing a vector that is already a unit vector returns it. */
  lemma UnitIsNormalized(m: Elementary, v: Vec)
    requires SqrtLaws(m) && NormSq(v) == 1.0
    ensures NormalizeVector(m, v) == v
  {
    SqrtOfSquare(m, 1.0);
  }

  /** A counter-clockwise turn heading up is centred one radius to the left
      of the position, a clockwise one one radius to the right. */
  lemma CentersOfUpwardPose(position: Vec, up: Vec)
    requires up == Vec(0.0, 1.0)
    ensures ComputeCenterPosition(position, up, 1.0, Left) == Vec(position.x - 1.0, position.y)
    ensures ComputeCenterPosition(position, up, 1.0, Right) == Vec(position.x + 1.0, position.y)
  {
  }

  /** A vector along the positive x axis has its x component as norm. */
  lemma NormOfAxisVector(m: Elementary, v: Vec, s: real)
    requires SqrtLaws(m) && v == Vec(s, 0.0) && 0.0 <= s
    ensures Norm(m, v) == s
  {
    SqrtOfSquare(m, s);
    assert NormSq(v) == s * s;
  }

  lemma LslOffset(c1: Vec, c2: Vec)
    requires c1 == Vec(-1.0, 0.0) && c2 == Vec(3.0, 0.0)
    ensures Sub(c2, c1) == Vec(4.0, 0.0)
  {
  }

  lemma LslOffsetNorm(m: Elementary, offset: Vec)
    requires SqrtLaws(m) && offset == Vec(4.0, 0.0)
    ensures Norm(m, offset) == 4.0
    ensures DivideBy(offset, Norm(m, offset)) == Vec(1.0, 0.0)
  {
    NormOfAxisVector(m, offset, 4.0);
  }

  /** Centres (-1, 0) and (3, 0) are 4 apart, along the x axis. */
  lemma LslCenterOffset(m: Elementary, c1: Vec, c2: Vec)
    requires SqrtLaws(m)
    requires c1 == Vec(-1.0, 0.0) && c2 == Vec(3.0, 0.0)
    ensures Norm(m, Sub(c2, c1)) == 4.0
    ensures DivideBy(Sub(c2, c1), Norm(m, Sub(c2, c1))) == Vec(1.0, 0.0)
  {
    LslOffset(c1, c2);
    LslOffsetNorm(m, Sub(c2, c1));
  }

  lemma LslTangentsShifted(m: Elementary, c1: Vec, c2: Vec)
    requires SqrtLaws(m) && RotationLaws(m)
    requires c1 == Vec(-1.0, 0.0) && c2 == Vec(3.0, 0.0)
    ensures ComputeTangentPositions(m, c1, c2, 1.0, LSL)
              == Success(Some(TangentPositions(Add(Scale(1.0, Vec(0.0, -1.0)), c1), Add(Scale(1.0, Vec(0.0, -1.0)), c2))))
  {
    LslCenterOffset(m, c1, c2);
    OuterTangentPositions(m, c1, c2, 1.0, LSL);
  }

  /** The outer tangent between the two LSL circles touches both at their
      lowest points. */
  lemma LslTangentPositions(m: Elementary, c1: Vec, c2: Vec)
    requires SqrtLaws(m) && RotationLaws(m)
    requires c1 == Vec(-1.0, 0.0) && c2 == Vec(3.0, 0.0)
    ensures ComputeTangentPositions(m, c1, c2, 1.0, LSL)
              == Success(Some(TangentPositions(Vec(-1.0, -1.0), Vec(3.0, -1.0))))
  {
    LslTangentsShifted(m, c1, c2);
  }

  /** An LSL path between poses sharing one unit heading, assembled from
      its centres and its tangent points. */
  lemma LslFromParts(m: Elementary, a: Vec, up: Vec, b: Vec, c1: Vec, c2: Vec, tangents: Option<TangentPositions>)
    requires NormalizeVector(m, up) == up
    requires ComputeCenterPosition(a, up, 1.0, Left) == c1
    requires ComputeCenterPosition(b, up, 1.0, Left) == c2
    requires ComputeTangentPositions(m, c1, c2, 1.0, LSL) == Success(tangents)
    ensures NewDubinsPath(m, LSL, 1.0, a, up, b, up) == Success(Path(LSL, 1.0, a, up, b, up, c1, c2, tangents))
  {
    NewDubinsPathFromParts(m, LSL, 1.0, a, up, b, up, up, up, c1, c2, tangents);
  }

  /** LSL: centres (-1, 0) and (3, 0), tangent points (-1, -1) and (3, -1). */
  lemma LslConstruction(m: Elementary, a: Vec, up: Vec, b: Vec, c1: Vec, c2: Vec, tangents: Option<TangentPositions>)
    requires SqrtLaws(m) && RotationLaws(m) && ExamplePoses(a, up, b)
    requires c1 == Vec(-1.0, 0.0) && c2 == Vec(3.0, 0.0)
    requires tangents == Some(TangentPositions(Vec(-1.0, -1.0), Vec(3.0, -1.0)))
    ensures NewDubinsPath(m, LSL, 1.0, a, up, b, up) == Success(Path(LSL, 1.0, a, up, b, up, c1, c2, tangents))
  {
    UnitIsNormalized(m, up);
    LslTangentPositions(m, c1, c2);
    CentersOfUpwardPose(a, up);
    CentersOfUpwardPose(b, up);
    LslFromParts(m, a, up, b, c1, c2, tangents);
  }

  predicate IsLslPath(p: DubinsPath, a: Vec, up: Vec, b: Vec) {
    p == Path(LSL, 1.0, a, up, b, up, Vec(-1.0, 0.0), Vec(3.0, 0.0),
              Some(TangentPositions(Vec(-1.0, -1.0), Vec(3.0, -1.0))))
  }

  lemma LslStraightLength(m: Elementary, a: Vec, up: Vec, b: Vec, p: DubinsPath)
    requires SqrtLaws(m) && ExamplePoses(a, up, b) && IsLslPath(p, a, up, b)
    ensures StraightLength(m, p) == Some(4.0)
  {
    SqrtOfSquare(m, 4.0);
    assert NormSq(Sub(Vec(3.0, -1.0), Vec(-1.0, -1.0))) == 4.0 * 4.0;
  }

  /** Reduced modulo a full turn, a quarter turn clockwise is three
      quarters of a turn counter-clockwise. */
  lemma QuarterTurnClockwiseReduced(m: Elementary)
    requires PiLaws(m)
    ensures FloorMod(-0.5 * m.pi, 2.0 * m.pi) == 1.5 * m.pi
  {
    FloorModOfShift(-0.5 * m.pi, 2.0 * m.pi, 1);
  }

  /** Seen from `c`, a point straight below lies a quarter turn clockwise
      of a point straight to the right. */
  lemma AzimuthRightToBelow(m: Elementary, p: Vec, q: Vec, c: Vec)
    requires Atan2Laws(m)
    requires c.x < p.x && p.y == c.y && q.x == c.x && q.y < c.y
    ensures RelativeAzimuth(m, p, q, c) == -0.5 * m.pi
  {
    var initialVector, finalVector := Sub(p, c), Sub(q, c);
    assert initialVector.y == 0.0 && 0.0 < initialVector.x;
    assert finalVector.x == 0.0 && finalVector.y < 0.0;
  }

  /** Seen from `c`, a point straight to the right lies a quarter turn
      counter-clockwise of a point straight below. */
  lemma AzimuthBelowToRight(m: Elementary, p: Vec, q: Vec, c: Vec)
    requires Atan2Laws(m)
    requires p.x == c.x && p.y < c.y && c.x < q.x && q.y == c.y
    ensures RelativeAzimuth(m, p, q, c) == 0.5 * m.pi
  {
    var initialVector, finalVector := Sub(p, c), Sub(q, c);
    assert initialVector.x == 0.0 && initialVector.y < 0.0;
    assert finalVector.y == 0.0 && 0.0 < finalVector.x;
  }

  /** From (0, 0), three quarters of a counter-clockwise turn about (-1, 0)
      reach (-1, -1). */
  lemma LslInitialArcAngle(m: Elementary, a: Vec, up: Vec, b: Vec, p: DubinsPath)
    requires PiLaws(m) && Atan2Laws(m) && ExamplePoses(a, up, b) && IsLslPath(p, a, up, b)
    ensures InitialArcAngle(m, p) == Some(1.5 * m.pi)
  {
    var azimuth := RelativeAzimuth(m, p.initialPosition, p.tangentPositions.value.initial, p.initialCenterPosition);
    AzimuthRightToBelow(m, p.initialPosition, p.tangentPositions.value.initial, p.initialCenterPosition);
    assert Signed(InitialDirection(p.pathType), azimuth) == -0.5 * m.pi;
    QuarterTurnClockwiseReduced(m);
  }

  /** From (3, -1), a quarter of a counter-clockwise turn about (3, 0)
      reaches (4, 0). */
  lemma LslFinalArcAngle(m: Elementary, a: Vec, up: Vec, b: Vec, p: DubinsPath)
    requires PiLaws(m) && Atan2Laws(m) && ExamplePoses(a, up, b) && IsLslPath(p, a, up, b)
    ensures FinalArcAngle(m, p) == Some(0.5 * m.pi)
  {
    AzimuthBelowToRight(m, p.tangentPositions.value.final, p.finalPosition, p.finalCenterPosition);
    FloorModOfShift(0.5 * m.pi, 2.0 * m.pi, 0);
  }

  /** On a circle of radius 1, arcs of three quarters and one quarter of a
      turn and a straight run of 4 add up to 4 + 2 pi. */
  lemma UnitRadiusTotal(m: Elementary, p: DubinsPath)
    requires PiLaws(m) && p.Path? && p.radius == 1.0
    requires StraightLength(m, p) == Some(4.0)
    requires InitialArcAngle(m, p) == Some(1.5 * m.pi)
    requires FinalArcAngle(m, p) == Some(0.5 * m.pi)
    ensures TotalLength(m, p).Some? && TotalLength(m, p).value == 4.0 + 2.0 * m.pi
  {
    ArcLengthsOfAngles(m, p, 1.5 * m.pi, 0.5 * m.pi);
    TotalLengthOfParts(m, p, 1.5 * m.pi, 4.0, 0.5 * m.pi);
  }

  /** LSL: a straight run of 4, three quarters of a turn on the first circle
      and one quarter on the second, 4 + 2 pi in all. */
  lemma LslMeasurements(m: Elementary, a: Vec, up: Vec, b: Vec, p: DubinsPath)
    requires PiLaws(m) && SqrtLaws(m) && Atan2Laws(m) && ExamplePoses(a, up, b) && IsLslPath(p, a, up, b)
    ensures StraightLength(m, p) == Some(4.0)
    ensures InitialArcAngle(m, p) == Some(1.5 * m.pi)
    ensures FinalArcAngle(m, p) == Some(0.5 * m.pi)
    ensures TotalLength(m, p).Some? && TotalLength(m, p).value == 4.0 + 2.0 * m.pi
    ensures IsValid(m, p)
  {
    LslStraightLength(m, a, up, b, p);
    LslInitialArcAngle(m, a, up, b, p);
    LslFinalArcAngle(m, a, up, b, p);
    UnitRadiusTotal(m, p);
  }

  /** A clockwise turn heading down is centred one radius to the left of
      the position (as drawn), a counter-clockwise one to the right. */
  lemma CentersOfDownwardPose(position: Vec, down: Vec)
    requires down == Vec(0.0, -1.0)
    ensures ComputeCenterPosition(position, down, 1.0, Right) == Vec(position.x - 1.0, position.y)
    ensures ComputeCenterPosition(position, down, 1.0, Left) == Vec(position.x + 1.0, position.y)
  {
  }

  lemma LsrCenterDistance(c1: Vec, c2: Vec)
    requires c1 == Vec(-1.0, 0.0) && c2 == Vec(5.0, 0.0)
    ensures NormSq(Sub(c2, c1)) == 36.0
  {
  }

  lemma NearLsrCenterDistance(c1: Vec, c2: Vec)
    requires c1 == Vec(-1.0, 0.0) && c2 == Vec(0.0, 0.0)
    ensures NormSq(Sub(c2, c1)) == 1.0
  {
  }

  lemma LsrCenterPoints(a: Vec, up: Vec, b: Vec)
    requires ExamplePoses(a, up, b)
    ensures ComputeCenterPosition(a, up, 1.0, InitialDirection(LSR)) == Vec(-1.0, 0.0)
    ensures ComputeCenterPosition(b, up, 1.0, FinalDirection(LSR)) == Vec(5.0, 0.0)
  {
    assert InitialDirection(LSR) == Left;
    assert FinalDirection(LSR) == Right;
    CentersOfUpwardPose(a, up);
    CentersOfUpwardPose(b, up);
  }

  /** LSR between the example poses: the centres are (-1, 0) and (5, 0),
      6 apart. */
  lemma LsrCenters(a: Vec, up: Vec, b: Vec)
    requires ExamplePoses(a, up, b)
    ensures var c1 := ComputeCenterPosition(a, up, 1.0, InitialDirection(LSR));
      var c2 := ComputeCenterPosition(b, up, 1.0, FinalDirection(LSR));
      c1 == Vec(-1.0, 0.0) && c2 == Vec(5.0, 0.0) && NormSq(Sub(c2, c1)) == 36.0
  {
    var c1 := ComputeCenterPosition(a, up, 1.0, InitialDirection(LSR));
    var c2 := ComputeCenterPosition(b, up, 1.0, FinalDirection(LSR));
    LsrCenterPoints(a, up, b);
    LsrCenterDistance(c1, c2);
  }

  /** LSR between the example poses: construction succeeds. */
  lemma LsrSucceeds(m: Elementary, a: Vec, up: Vec, b: Vec)
    requires SqrtLaws(m) && ExamplePoses(a, up, b)
    ensures NewDubinsPath(m, LSR, 1.0, a, up, b, up).Success?
  {
    UnitIsNormalized(m, up);
    LsrCenters(a, up, b);
    NewDubinsPathSucceeds(m, LSR, 1.0, a, up, b, up, up, up, 36.0);
  }

  /** An LSR path of radius 1 with centres 6 apart is defined and valid,
      and its straight run, crossing between the circles, has length
      sqrt(32). */
  lemma LsrMeasurements(m: Elementary, p: DubinsPath)
    requires PiLaws(m) && SqrtLaws(m) && RotationLaws(m) && ArccosLaws(m)
    requires Constructed(m, p) && p.pathType == LSR && p.radius == 1.0
    requires NormSq(Sub(p.finalCenterPosition, p.initialCenterPosition)) == 36.0
    ensures p.IsDefined()
    ensures StraightLength(m, p).Some? && StraightLength(m, p).value * StraightLength(m, p).value == 32.0
    ensures IsValid(m, p)
  {
    ConstructedFeasibility(m, p);
    ConstructedStraightLength(m, p);
    ConstructedValidity(m, p);
  }


  /** The end pose (1, 0) heading down, one unit from the start. */
  predicate NearPoses(a: Vec, up: Vec, b: Vec, down: Vec) {
    a == Vec(0.0, 0.0) && up == Vec(0.0, 1.0) && b == Vec(1.0, 0.0) && down == Vec(0.0, -1.0)
  }

  lemma NearLsrCenterPoints(a: Vec, up: Vec, b: Vec, down: Vec)
    requires NearPoses(a, up, b, down)
    ensures ComputeCenterPosition(a, up, 1.0, InitialDirection(LSR)) == Vec(-1.0, 0.0)
    ensures ComputeCenterPosition(b, down, 1.0, FinalDirection(LSR)) == Vec(0.0, 0.0)
  {
    assert InitialDirection(LSR) == Left;
    assert FinalDirection(LSR) == Right;
    CentersOfUpwardPose(a, up);
    CentersOfDownwardPose(b, down);
  }

  /** LSR to the near pose: the centres are (-1, 0) and (0, 0), one unit
      apart. */
  lemma NearLsrCenters(a: Vec, up: Vec, b: Vec, down: Vec)
    requires NearPoses(a, up, b, down)
    ensures var c1 := ComputeCenterPosition(a, up, 1.0, InitialDirection(LSR));
      var c2 := ComputeCenterPosition(b, down, 1.0, FinalDirection(LSR));
      c1 == Vec(-1.0, 0.0) && c2 == Vec(0.0, 0.0) && NormSq(Sub(c2, c1)) == 1.0
  {
    var c1 := ComputeCenterPosition(a, up, 1.0, InitialDirection(LSR));
    var c2 := ComputeCenterPosition(b, down, 1.0, FinalDirection(LSR));
    NearLsrCenterPoints(a, up, b, down);
    NearLsrCenterDistance(c1, c2);
  }

  /** LSR to the near pose: construction succeeds, though the path it
      yields is a NaN one. */
  lemma NearLsrSucceeds(m: Elementary, a: Vec, up: Vec, b: Vec, down: Vec)
    requires SqrtLaws(m) && NearPoses(a, up, b, down)
    ensures NewDubinsPath(m, LSR, 1.0, a, up, b, down).Success?
  {
    UnitIsNormalized(m, up);
    UnitIsNormalized(m, down);
    NearLsrCenters(a, up, b, down);
    NewDubinsPathSucceeds(m, LSR, 1.0, a, up, b, down, up, down, 1.0);
  }

  /** An LSR path of radius 1 with centres one unit apart has no tangent
      points and no total length, and is not valid. */
  lemma NearLsrIsInvalid(m: Elementary, p: DubinsPath)
    requires PiLaws(m) && SqrtLaws(m)
    requires Constructed(m, p) && p.pathType == LSR && p.radius == 1.0
    requires NormSq(Sub(p.finalCenterPosition, p.initialCenterPosition)) == 1.0
    ensures p.Path? && p.tangentPositions.None?
    ensures TotalLength(m, p).None?
    ensures !IsValid(m, p)
  {
    ConstructedFeasibility(m, p);
  }
}
