/** Plane-geometry facts about the tangent points and the path measurements
    of python/dubins/dubins2.py: the tangent points lie on their circles, the
    straight segment touches both circles, its length depends on the family,
    crossing families are feasible exactly when the centres are at least two
    radii apart, and validity, arc and total lengths behave as the source
    promises. */
module DubinsProperties {
  import opened Wrappers
  import opened Numerics
  import opened PathTypes
  import opened Dubins

  /** ComputeTangentPositions, when it yields points, spelled out with the
      centre distance and the unit offset named. */
  lemma TangentPositionsUnfolded(m: Elementary, initialCenter: Vec, finalCenter: Vec, radius: real, pathType: PathType)
    requires ComputeTangentPositions(m, initialCenter, finalCenter, radius, pathType).Success?
    requires ComputeTangentPositions(m, initialCenter, finalCenter, radius, pathType).value.Some?
    ensures var offset := Sub(finalCenter, initialCenter);
      var distance := Norm(m, offset);
      && !IsCloseToZero(distance)
      && RelativeAzimuths(m, radius, distance, pathType).Some?
      && var (a1, a2) := RelativeAzimuths(m, radius, distance, pathType).value;
         var u := DivideBy(offset, distance);
         ComputeTangentPositions(m, initialCenter, finalCenter, radius, pathType).value.value
           == TangentPositions(Add(Scale(radius, RotateVector(m, u, a1)), initialCenter),
                               Add(Scale(radius, RotateVector(m, u, a2)), finalCenter))
  {
  }

  /** Outer families: both tangent points are reached by the same quarter
      turn of the unit offset, which is then perpendicular to the offset. */
  lemma OuterAzimuths(m: Elementary, u: Vec, distance: real, radius: real, pathType: PathType)
    requires RotationLaws(m) && !pathType.IsCrossing() && distance != 0.0
    ensures var (a1, a2) := RelativeAzimuths(m, radius, distance, pathType).value;
      && a1 == a2
      && Dot(u, RotateVector(m, u, a1)) == 0.0
  {
    var (a1, a2) := RelativeAzimuths(m, radius, distance, pathType).value;
    RotateVectorQuarterTurns(m, u);
  }

  /** For LSL and RSR the two tangent points are the two centres shifted by
      r at right angles to the centre line: to its right for LSL, to its
      left for RSR. */
  lemma OuterTangentPositions(m: Elementary, initialCenter: Vec, finalCenter: Vec, radius: real, pathType: PathType)
    requires RotationLaws(m) && !pathType.IsCrossing()
    requires !IsCloseToZero(Norm(m, Sub(finalCenter, initialCenter)))
    ensures var u := DivideBy(Sub(finalCenter, initialCenter), Norm(m, Sub(finalCenter, initialCenter)));
      var w := if pathType == LSL then Vec(u.y, -u.x) else Vec(-u.y, u.x);
      ComputeTangentPositions(m, initialCenter, finalCenter, radius, pathType)
        == Success(Some(TangentPositions(Add(Scale(radius, w), initialCenter), Add(Scale(radius, w), finalCenter))))
  {
    var u := DivideBy(Sub(finalCenter, initialCenter), Norm(m, Sub(finalCenter, initialCenter)));
    RotateVectorQuarterTurns(m, u);
  }

  /** Crossing families, when feasible: the final tangent point is reached by
      a rotation half a turn away from the initial one, and the initial
      rotation's cosine is 2r/d. */
  lemma CrossingAzimuths(m: Elementary, u: Vec, distance: real, radius: real, pathType: PathType)
    requires RotationLaws(m) && ArccosLaws(m) && pathType.IsCrossing() && distance != 0.0
    requires RelativeAzimuths(m, radius, distance, pathType).Some?
    ensures var (a1, a2) := RelativeAzimuths(m, radius, distance, pathType).value;
      && RotateVector(m, u, a2) == Scale(-1.0, RotateVector(m, u, a1))
      && m.cos(a1) == 2.0 * radius / distance
  {
    var belt := BeltAzimuth(m, radius, distance).value;
    assert m.cos(belt) == 2.0 * radius / distance;
    if pathType == LSR {
      assert Opposite(belt) == -belt;
      RotateVectorHalfTurnApart(m, u, -belt, m.pi - belt);
    } else {
      RotateVectorHalfTurnApart(m, u, -m.pi + belt, belt);
    }
  }

  /** The frame in which the tangent points are built: `distance` is the
      (positive) centre distance, `w` the unit vector from the initial centre
      to the initial tangent point. The final tangent point sits along `w`
      from the final centre for the outer families and along -w for the
      crossing ones; `w` is perpendicular to the centre offset for the outer
      families and has projection 2r on it for the crossing ones. */
  lemma TangentFrame(m: Elementary, initialCenter: Vec, finalCenter: Vec, radius: real, pathType: PathType)
    returns (distance: real, w: Vec)
    requires SqrtLaws(m) && RotationLaws(m) && ArccosLaws(m)
    requires ComputeTangentPositions(m, initialCenter, finalCenter, radius, pathType).Success?
    requires ComputeTangentPositions(m, initialCenter, finalCenter, radius, pathType).value.Some?
    ensures 0.0 < distance && distance * distance == NormSq(Sub(finalCenter, initialCenter))
    ensures NormSq(w) == 1.0
    ensures var tp := ComputeTangentPositions(m, initialCenter, finalCenter, radius, pathType).value.value;
      && tp.initial == Add(Scale(radius, w), initialCenter)
      && tp.final == Add(Scale(if pathType.IsCrossing() then -radius else radius, w), finalCenter)
    ensures Dot(Sub(finalCenter, initialCenter), w) == if pathType.IsCrossing() then 2.0 * radius else 0.0
  {
    TangentPositionsUnfolded(m, initialCenter, finalCenter, radius, pathType);
    var offset := Sub(finalCenter, initialCenter);
    distance := Norm(m, offset);
    NormLaws(m, offset);
    UnitByDivision(offset, distance);
    var u := DivideBy(offset, distance);
    var (a1, a2) := RelativeAzimuths(m, radius, distance, pathType).value;
    w := RotateVector(m, u, a1);
    RotateVectorPreservesNorm(m, u, a1);
    if pathType.IsCrossing() {
      CrossingAzimuths(m, u, distance, radius, pathType);
      CrossingProjection(m, offset, distance, u, a1, radius);
      NegatedScale(radius, w);
    } else {
      OuterAzimuths(m, u, distance, radius, pathType);
      ScaledDot(distance, u, w);
    }
  }

  lemma CrossingProjection(m: Elementary, offset: Vec, distance: real, u: Vec, a: real, radius: real)
    requires distance != 0.0 && Scale(distance, u) == offset && NormSq(u) == 1.0
    requires m.cos(a) == 2.0 * radius / distance
    ensures Dot(offset, RotateVector(m, u, a)) == 2.0 * radius
  {
    RotateVectorAgainstOriginal(m, u, a);
    ScaledDot(distance, u, RotateVector(m, u, a));
    CancelDivision(distance, 2.0 * radius);
  }

  lemma NegatedScale(k: real, w: Vec)
    ensures Scale(k, Scale(-1.0, w)) == Scale(-k, w)
  {
  }

  lemma ScaledDot(k: real, u: Vec, w: Vec)
    ensures Dot(Scale(k, u), w) == k * Dot(u, w)
  {
  }

  lemma CancelDivision(d: real, a: real)
    requires d != 0.0
    ensures d * (a / d) == a
  {
  }

  /** Each tangent point lies on its own circle: at distance r from its centre. */
  lemma TangentPointsOnCircles(m: Elementary, initialCenter: Vec, finalCenter: Vec, radius: real, pathType: PathType)
    requires SqrtLaws(m) && RotationLaws(m) && ArccosLaws(m)
    requires ComputeTangentPositions(m, initialCenter, finalCenter, radius, pathType).Success?
    requires ComputeTangentPositions(m, initialCenter, finalCenter, radius, pathType).value.Some?
    ensures var tp := ComputeTangentPositions(m, initialCenter, finalCenter, radius, pathType).value.value;
      && NormSq(Sub(tp.initial, initialCenter)) == radius * radius
      && NormSq(Sub(tp.final, finalCenter)) == radius * radius
  {
    var distance, w := TangentFrame(m, initialCenter, finalCenter, radius, pathType);
    ScaledUnitNorm(radius, w);
    ScaledUnitNorm(-radius, w);
  }

  lemma ScaledUnitNorm(k: real, w: Vec)
    requires NormSq(w) == 1.0
    ensures forall c :: NormSq(Sub(Add(Scale(k, w), c), c)) == k * k
  {
    forall c ensures NormSq(Sub(Add(Scale(k, w), c), c)) == k * k {
      assert Sub(Add(Scale(k, w), c), c) == Scale(k, w);
      assert NormSq(Scale(k, w)) == k * k * NormSq(w);
    }
  }

  /** The straight segment T2 - T1 and the two radius vectors r w and k w,
      for tangent points T1 = c1 + r w and T2 = c2 + k w. */
  lemma SegmentAlgebra(c1: Vec, c2: Vec, w: Vec, r: real, k: real)
    requires NormSq(w) == 1.0
    ensures var seg := Sub(Add(Scale(k, w), c2), Add(Scale(r, w), c1));
      && seg == Add(Sub(c2, c1), Scale(k - r, w))
      && Sub(Add(Scale(r, w), c1), c1) == Scale(r, w)
      && Sub(Add(Scale(k, w), c2), c2) == Scale(k, w)
      && Dot(seg, Scale(r, w)) == r * (Dot(Sub(c2, c1), w) + (k - r))
      && Dot(seg, Scale(k, w)) == k * (Dot(Sub(c2, c1), w) + (k - r))
      && NormSq(seg) == NormSq(Sub(c2, c1)) + 2.0 * (k - r) * Dot(Sub(c2, c1), w) + (k - r) * (k - r)
  {
    var o := Sub(c2, c1);
    var seg := Add(o, Scale(k - r, w));
    assert Dot(seg, w) == Dot(o, w) + (k - r) * NormSq(w);
    assert NormSq(seg) == NormSq(o) + 2.0 * (k - r) * Dot(o, w) + (k - r) * (k - r) * NormSq(w);
  }

  /** The straight segment is tangent to both circles: it is perpendicular
      to the radius from each centre to its tangent point. */
  lemma StraightSegmentIsTangent(m: Elementary, initialCenter: Vec, finalCenter: Vec, radius: real, pathType: PathType)
    requires SqrtLaws(m) && RotationLaws(m) && ArccosLaws(m)
    requires ComputeTangentPositions(m, initialCenter, finalCenter, radius, pathType).Success?
    requires ComputeTangentPositions(m, initialCenter, finalCenter, radius, pathType).value.Some?
    ensures var tp := ComputeTangentPositions(m, initialCenter, finalCenter, radius, pathType).value.value;
      && Dot(Sub(tp.final, tp.initial), Sub(tp.initial, initialCenter)) == 0.0
      && Dot(Sub(tp.final, tp.initial), Sub(tp.final, finalCenter)) == 0.0
  {
    var distance, w := TangentFrame(m, initialCenter, finalCenter, radius, pathType);
    SegmentAlgebra(initialCenter, finalCenter, w, radius, if pathType.IsCrossing() then -radius else radius);
  }

  /** For the outer families (LSL, RSR) the straight segment is the
      centre-to-centre offset itself, so its length is the centre distance d;
      for the crossing families (LSR, RSL) its squared length is d^2 - 4r^2. */
  lemma StraightSegmentLength(m: Elementary, initialCenter: Vec, finalCenter: Vec, radius: real, pathType: PathType)
    requires SqrtLaws(m) && RotationLaws(m) && ArccosLaws(m)
    requires ComputeTangentPositions(m, initialCenter, finalCenter, radius, pathType).Success?
    requires ComputeTangentPositions(m, initialCenter, finalCenter, radius, pathType).value.Some?
    ensures var tp := ComputeTangentPositions(m, initialCenter, finalCenter, radius, pathType).value.value;
      && (!pathType.IsCrossing() ==> Sub(tp.final, tp.initial) == Sub(finalCenter, initialCenter))
      && (pathType.IsCrossing() ==>
            NormSq(Sub(tp.final, tp.initial)) == NormSq(Sub(finalCenter, initialCenter)) - 4.0 * radius * radius)
  {
    var distance, w := TangentFrame(m, initialCenter, finalCenter, radius, pathType);
    var k := if pathType.IsCrossing() then -radius else radius;
    SegmentAlgebra(initialCenter, finalCenter, w, radius, k);
    if pathType.IsCrossing() {
      assert 2.0 * (k - radius) * (2.0 * radius) + (k - radius) * (k - radius) == -4.0 * radius * radius;
    }
  }

  /** The tangent computation fails exactly when the centres are within the
      tolerance of each other, and, for the crossing families, yields no
      points (NaN) exactly when the centres are less than two radii apart;
      the outer families always yield points otherwise. */
  lemma TangentPositionsOutcome(m: Elementary, initialCenter: Vec, finalCenter: Vec, radius: real, pathType: PathType)
    requires SqrtLaws(m)
    ensures var result := ComputeTangentPositions(m, initialCenter, finalCenter, radius, pathType);
      var dSquared := NormSq(Sub(finalCenter, initialCenter));
      && (result.Failure? <==> dSquared <= Atol * Atol)
      && (result.Success? && result.value.None? <==>
            Atol * Atol < dSquared && pathType.IsCrossing() && dSquared < 4.0 * radius * radius)
  {
    var offset := Sub(finalCenter, initialCenter);
    NormIsCloseToZero(m, offset);
    var distance := Norm(m, offset);
    if !IsCloseToZero(distance) {
      NormLaws(m, offset);
      RatioWithinUnit(2.0 * radius, distance);
      assert (2.0 * radius) * (2.0 * radius) == 4.0 * radius * radius;
    }
  }

  /** a/d lies in [-1, 1] exactly when a^2 <= d^2, for positive d. */
  lemma RatioWithinUnit(a: real, d: real)
    requires 0.0 < d
    ensures -1.0 <= a / d <= 1.0 <==> a * a <= d * d
  {
    var q := a / d;
    assert a == q * d;
    if -1.0 <= q <= 1.0 {
      assert -d <= a <= d by {
        WithinScaledUnit(q, d);
      }
      if 0.0 <= a {
        SquareMonotonic(a, d);
      } else {
        SquareMonotonic(-a, d);
      }
    } else {
      assert a < -d || d < a by {
        if q < -1.0 {
          StrictMultiplyMonotonic(q, -1.0, d);
        } else {
          StrictMultiplyMonotonic(1.0, q, d);
        }
      }
      if d < a {
        SquareStrictlyMonotonic(d, a);
      } else {
        SquareStrictlyMonotonic(d, -a);
      }
    }
  }

  lemma WithinScaledUnit(q: real, d: real)
    requires 0.0 < d && -1.0 <= q <= 1.0
    ensures -d <= q * d <= d
  {
    MultiplyMonotonic(-1.0, q, d);
    MultiplyMonotonic(q, 1.0, d);
  }

  lemma StrictMultiplyMonotonic(a: real, b: real, c: real)
    requires 0.0 < c && a < b
    ensures a * c < b * c
  {
  }

  // ---------------------------------------------------------------------
  // Properties of a constructed path
  // ---------------------------------------------------------------------

  /** Construction fails (the source raises) exactly when the two circle
      centres it places are within the tolerance of each other; otherwise it
      keeps the family, radius and positions it was given. */
  lemma NewDubinsPathOutcome(
    m: Elementary, pathType: PathType, radius: real,
    initialPosition: Vec, initialTangent: Vec, finalPosition: Vec, finalTangent: Vec)
    requires SqrtLaws(m)
    ensures var result := NewDubinsPath(m, pathType, radius, initialPosition, initialTangent, finalPosition, finalTangent);
      var initialCenter := ComputeCenterPosition(initialPosition, NormalizeVector(m, initialTangent), radius, InitialDirection(pathType));
      var finalCenter := ComputeCenterPosition(finalPosition, NormalizeVector(m, finalTangent), radius, FinalDirection(pathType));
      && (result.Failure? <==> NormSq(Sub(finalCenter, initialCenter)) <= Atol * Atol)
      && (result.Success? ==>
            && result.value.Path?
            && result.value.pathType == pathType
            && result.value.radius == radius
            && result.value.initialPosition == initialPosition
            && result.value.finalPosition == finalPosition)
  {
    var initialCenter := ComputeCenterPosition(initialPosition, NormalizeVector(m, initialTangent), radius, InitialDirection(pathType));
    var finalCenter := ComputeCenterPosition(finalPosition, NormalizeVector(m, finalTangent), radius, FinalDirection(pathType));
    TangentPositionsOutcome(m, initialCenter, finalCenter, radius, pathType);
  }

  /** Construction succeeds when the two centres it places are further
      apart than the tolerance. */
  lemma NewDubinsPathSucceeds(
    m: Elementary, pathType: PathType, radius: real,
    initialPosition: Vec, initialTangent: Vec, finalPosition: Vec, finalTangent: Vec,
    initialTangentUnit: Vec, finalTangentUnit: Vec, dSquared: real)
    requires SqrtLaws(m)
    requires NormalizeVector(m, initialTangent) == initialTangentUnit
    requires NormalizeVector(m, finalTangent) == finalTangentUnit
    requires NormSq(Sub(ComputeCenterPosition(finalPosition, finalTangentUnit, radius, FinalDirection(pathType)),
                        ComputeCenterPosition(initialPosition, initialTangentUnit, radius, InitialDirection(pathType))))
             == dSquared
    requires Atol * Atol < dSquared
    ensures NewDubinsPath(m, pathType, radius, initialPosition, initialTangent, finalPosition, finalTangent).Success?
  {
    NewDubinsPathOutcome(m, pathType, radius, initialPosition, initialTangent, finalPosition, finalTangent);
  }

  /** What construction leaves in a path: the centres are where the stored
      unit tangents and the family's turn directions put them, and the
      tangent points are the ones computed from those two centres. */
  ghost predicate Constructed(m: Elementary, p: DubinsPath) {
    && CentersPlaced(p)
    && ComputeTangentPositions(m, p.initialCenterPosition, p.finalCenterPosition, p.radius, p.pathType)
         == Success(p.tangentPositions)
  }

  /** The centre half of Constructed. */
  ghost predicate CentersPlaced(p: DubinsPath) {
    && p.Path?
    && p.initialCenterPosition
         == ComputeCenterPosition(p.initialPosition, p.initialTangentUnit, p.radius, InitialDirection(p.pathType))
    && p.finalCenterPosition
         == ComputeCenterPosition(p.finalPosition, p.finalTangentUnit, p.radius, FinalDirection(p.pathType))
  }

  /** A successful construction keeps its inputs, stores the normalized
      tangents and is Constructed. */
  lemma NewDubinsPathUnfolded(
    m: Elementary, pathType: PathType, radius: real,
    initialPosition: Vec, initialTangent: Vec, finalPosition: Vec, finalTangent: Vec, p: DubinsPath)
    requires NewDubinsPath(m, pathType, radius, initialPosition, initialTangent, finalPosition, finalTangent) == Success(p)
    ensures Constructed(m, p)
    ensures p.pathType == pathType && p.radius == radius
    ensures p.initialPosition == initialPosition && p.finalPosition == finalPosition
    ensures p.initialTangentUnit == NormalizeVector(m, initialTangent)
    ensures p.finalTangentUnit == NormalizeVector(m, finalTangent)
  {
  }

  /** Construction assembled from its parts: when the tangents normalize to
      the given unit vectors, the centres are the given points and the
      tangent computation yields the given result, construction succeeds
      with exactly that path. */
  lemma NewDubinsPathFromParts(
    m: Elementary, pathType: PathType, radius: real,
    initialPosition: Vec, initialTangent: Vec, finalPosition: Vec, finalTangent: Vec,
    initialTangentUnit: Vec, finalTangentUnit: Vec, initialCenter: Vec, finalCenter: Vec,
    tangents: Option<TangentPositions>)
    requires NormalizeVector(m, initialTangent) == initialTangentUnit
    requires NormalizeVector(m, finalTangent) == finalTangentUnit
    requires ComputeCenterPosition(initialPosition, initialTangentUnit, radius, InitialDirection(pathType)) == initialCenter
    requires ComputeCenterPosition(finalPosition, finalTangentUnit, radius, FinalDirection(pathType)) == finalCenter
    requires ComputeTangentPositions(m, initialCenter, finalCenter, radius, pathType) == Success(tangents)
    ensures NewDubinsPath(m, pathType, radius, initialPosition, initialTangent, finalPosition, finalTangent)
      == Success(Path(pathType, radius, initialPosition, initialTangentUnit, finalPosition, finalTangentUnit,
                      initialCenter, finalCenter, tangents))
  {
  }

  /** The circle of one pose: with a tangent longer than the tolerance, the
      stored unit tangent is a unit vector along it and the centre lies at
      distance r, perpendicular to the heading, on the side of the turn;
      with a shorter one, the centre is the position itself. */
  lemma PoseCenter(m: Elementary, position: Vec, tangent: Vec, radius: real, direction: Direction)
    requires SqrtLaws(m)
    ensures var unit := NormalizeVector(m, tangent);
      var center := ComputeCenterPosition(position, unit, radius, direction);
      && (Atol * Atol < NormSq(tangent) ==>
            && NormSq(unit) == 1.0
            && Cross(tangent, unit) == 0.0
            && Dot(tangent, unit) > 0.0
            && NormSq(Sub(center, position)) == radius * radius
            && Dot(Sub(center, position), unit) == 0.0
            && Cross(unit, Sub(center, position)) == Signed(direction, radius))
      && (NormSq(tangent) <= Atol * Atol ==> center == position)
  {
    var unit := NormalizeVector(m, tangent);
    var center := ComputeCenterPosition(position, unit, radius, direction);
    NormalizeVectorSpec(m, tangent);
    CenterGeometry(position, unit, radius, direction);
    if Atol * Atol < NormSq(tangent) {
      var n := NormSq(unit);
      assert n == 1.0;
      var offset := Sub(center, position);
      assert NormSq(offset) == radius * radius * n;
      assert Cross(unit, offset) == Signed(direction, radius * n);
    } else {
      assert unit == Vec(0.0, 0.0);
      ComputeCenterPositionOfZeroTangent(position, radius, direction);
    }
  }

  /** In a path whose initial unit tangent was normalized from
      `initialTangent`, the initial circle is placed as PoseCenter says. */
  lemma ConstructedInitialCenter(m: Elementary, p: DubinsPath, initialTangent: Vec)
    requires SqrtLaws(m) && CentersPlaced(p)
    requires p.initialTangentUnit == NormalizeVector(m, initialTangent)
    ensures Atol * Atol < NormSq(initialTangent) ==>
      && NormSq(p.initialTangentUnit) == 1.0
      && NormSq(Sub(p.initialCenterPosition, p.initialPosition)) == p.radius * p.radius
      && Cross(p.initialTangentUnit, Sub(p.initialCenterPosition, p.initialPosition))
           == Signed(InitialDirection(p.pathType), p.radius)
    ensures NormSq(initialTangent) <= Atol * Atol ==> p.initialCenterPosition == p.initialPosition
  {
    PoseCenter(m, p.initialPosition, initialTangent, p.radius, InitialDirection(p.pathType));
  }

  /** The same for the final circle. */
  lemma ConstructedFinalCenter(m: Elementary, p: DubinsPath, finalTangent: Vec)
    requires SqrtLaws(m) && CentersPlaced(p)
    requires p.finalTangentUnit == NormalizeVector(m, finalTangent)
    ensures Atol * Atol < NormSq(finalTangent) ==>
      && NormSq(p.finalTangentUnit) == 1.0
      && NormSq(Sub(p.finalCenterPosition, p.finalPosition)) == p.radius * p.radius
      && Cross(p.finalTangentUnit, Sub(p.finalCenterPosition, p.finalPosition))
           == Signed(FinalDirection(p.pathType), p.radius)
    ensures NormSq(finalTangent) <= Atol * Atol ==> p.finalCenterPosition == p.finalPosition
  {
    PoseCenter(m, p.finalPosition, finalTangent, p.radius, FinalDirection(p.pathType));
  }

  /** In a constructed path the tangent points are defined exactly when the
      family is an outer one or the centres are at least 2r apart. */
  lemma ConstructedFeasibility(m: Elementary, p: DubinsPath)
    requires SqrtLaws(m) && Constructed(m, p)
    ensures var dSquared := NormSq(Sub(p.finalCenterPosition, p.initialCenterPosition));
      && Atol * Atol < dSquared
      && (p.IsDefined() <==> !p.pathType.IsCrossing() || 4.0 * p.radius * p.radius <= dSquared)
  {
    TangentPositionsOutcome(m, p.initialCenterPosition, p.finalCenterPosition, p.radius, p.pathType);
  }

  /** In a constructed path whose tangent points are defined, each tangent
      point lies on its circle and the straight segment touches both
      circles. */
  lemma ConstructedTangency(m: Elementary, p: DubinsPath)
    requires SqrtLaws(m) && RotationLaws(m) && ArccosLaws(m)
    requires Constructed(m, p) && p.IsDefined()
    ensures var tp := p.tangentPositions.value;
      && NormSq(Sub(tp.initial, p.initialCenterPosition)) == p.radius * p.radius
      && NormSq(Sub(tp.final, p.finalCenterPosition)) == p.radius * p.radius
      && Dot(Sub(tp.final, tp.initial), Sub(tp.initial, p.initialCenterPosition)) == 0.0
      && Dot(Sub(tp.final, tp.initial), Sub(tp.final, p.finalCenterPosition)) == 0.0
  {
    var c1, c2 := p.initialCenterPosition, p.finalCenterPosition;
    TangentPointsOnCircles(m, c1, c2, p.radius, p.pathType);
    StraightSegmentIsTangent(m, c1, c2, p.radius, p.pathType);
    var tp := ComputeTangentPositions(m, c1, c2, p.radius, p.pathType).value.value;
    assert tp == p.tangentPositions.value;
  }

  /** In a constructed path whose tangent points are defined, the straight
      length is the centre distance for LSL and RSR, and its square is
      d^2 - 4r^2 for LSR and RSL. */
  lemma ConstructedStraightLength(m: Elementary, p: DubinsPath)
    requires SqrtLaws(m) && RotationLaws(m) && ArccosLaws(m)
    requires Constructed(m, p) && p.IsDefined()
    ensures var dSquared := NormSq(Sub(p.finalCenterPosition, p.initialCenterPosition));
      && StraightLength(m, p).Some?
      && (!p.pathType.IsCrossing() ==> StraightLength(m, p).value == m.sqrt(dSquared))
      && (p.pathType.IsCrossing() ==>
            StraightLength(m, p).value * StraightLength(m, p).value == dSquared - 4.0 * p.radius * p.radius)
  {
    StraightSegmentLength(m, p.initialCenterPosition, p.finalCenterPosition, p.radius, p.pathType);
    NormLaws(m, Sub(p.tangentPositions.value.final, p.tangentPositions.value.initial));
  }

  // ---------------------------------------------------------------------
  // Measurements
  // ---------------------------------------------------------------------

  /** With a non-negative radius, each arc length of a defined path is r
      times an angle in [0, 2 pi), so it lies in [0, 2 pi r]. */
  lemma ArcLengthBounds(m: Elementary, p: DubinsPath)
    requires PiLaws(m) && p.IsDefined() && 0.0 <= p.radius
    ensures 0.0 <= InitialArcLength(m, p).value <= 2.0 * m.pi * p.radius
    ensures 0.0 <= FinalArcLength(m, p).value <= 2.0 * m.pi * p.radius
  {
    if 0.0 < p.radius {
      MultiplyMonotonic(0.0, InitialArcAngle(m, p).value, p.radius);
      MultiplyMonotonic(InitialArcAngle(m, p).value, 2.0 * m.pi, p.radius);
      MultiplyMonotonic(0.0, FinalArcAngle(m, p).value, p.radius);
      MultiplyMonotonic(FinalArcAngle(m, p).value, 2.0 * m.pi, p.radius);
    }
  }

  /** The total length of a defined path with a non-negative radius is at
      least its straight length and at most that plus two full circles, and
      the path is valid. */
  lemma TotalLengthBounds(m: Elementary, p: DubinsPath)
    requires PiLaws(m) && SqrtLaws(m) && p.IsDefined() && 0.0 <= p.radius
    ensures 0.0 <= StraightLength(m, p).value
    ensures StraightLength(m, p).value <= TotalLength(m, p).value
    ensures TotalLength(m, p).value <= StraightLength(m, p).value + 4.0 * m.pi * p.radius
    ensures IsValid(m, p)
  {
    NormLaws(m, Sub(p.tangentPositions.value.final, p.tangentPositions.value.initial));
    ArcLengthBounds(m, p);
  }

  /** A path is valid only if every derived quantity is defined; a
      constructed path with a non-negative radius is valid exactly when its
      family is an outer one or its centres are at least 2r apart. */
  lemma ConstructedValidity(m: Elementary, p: DubinsPath)
    requires PiLaws(m) && SqrtLaws(m) && Constructed(m, p) && 0.0 <= p.radius
    ensures IsValid(m, p) ==> p.IsDefined()
    ensures IsValid(m, p) <==>
      !p.pathType.IsCrossing()
      || 4.0 * p.radius * p.radius <= NormSq(Sub(p.finalCenterPosition, p.initialCenterPosition))
  {
    ConstructedFeasibility(m, p);
    if p.IsDefined() {
      TotalLengthBounds(m, p);
    }
  }

  /** The placeholder path of a family is invalid and every measurement of
      it is undefined. */
  lemma CreateInvalidIsInvalid(m: Elementary, pathType: PathType)
    requires PiLaws(m)
    ensures CreateInvalid(pathType).pathType == pathType
    ensures !IsValid(m, CreateInvalid(pathType))
    ensures StraightLength(m, CreateInvalid(pathType)).None?
    ensures InitialArcAngle(m, CreateInvalid(pathType)).None? && FinalArcAngle(m, CreateInvalid(pathType)).None?
    ensures TotalLength(m, CreateInvalid(pathType)).None?
  {
  }

  /** The tangent computation fails (CentersTooClose, its only error) on
      coincident centres. */
  lemma CoincidentCentersFail(m: Elementary, center: Vec, radius: real, pathType: PathType)
    requires SqrtLaws(m)
    ensures ComputeTangentPositions(m, center, center, radius, pathType).Failure?
  {
    TangentPositionsOutcome(m, center, center, radius, pathType);
    assert NormSq(Sub(center, center)) == 0.0;
  }

  /** For LSL and RSR, equal initial and final poses put both circles on the
      same centre, and construction fails. */
  lemma IdenticalPosesFail(m: Elementary, pathType: PathType, radius: real, position: Vec, tangent: Vec)
    requires SqrtLaws(m) && !pathType.IsCrossing()
    ensures NewDubinsPath(m, pathType, radius, position, tangent, position, tangent).Failure?
  {
    var unit := NormalizeVector(m, tangent);
    assert InitialDirection(pathType) == FinalDirection(pathType);
    var center := ComputeCenterPosition(position, unit, radius, InitialDirection(pathType));
    CoincidentCentersFail(m, center, radius, pathType);
  }

  /** An arc length is the radius times the arc angle. */
  lemma ArcLengthsOfAngles(m: Elementary, p: DubinsPath, initialAngle: real, finalAngle: real)
    requires PiLaws(m)
    requires InitialArcAngle(m, p) == Some(initialAngle)
    requires FinalArcAngle(m, p) == Some(finalAngle)
    ensures InitialArcLength(m, p).Some? && InitialArcLength(m, p).value == p.radius * initialAngle
    ensures FinalArcLength(m, p).Some? && FinalArcLength(m, p).value == p.radius * finalAngle
  {
  }

  /** The total length is the sum of the two arc lengths and the straight
      length. */
  lemma TotalLengthOfParts(m: Elementary, p: DubinsPath, initialLength: real, straight: real, finalLength: real)
    requires PiLaws(m)
    requires InitialArcLength(m, p).Some? && InitialArcLength(m, p).value == initialLength
    requires StraightLength(m, p) == Some(straight)
    requires FinalArcLength(m, p).Some? && FinalArcLength(m, p).value == finalLength
    ensures TotalLength(m, p).Some? && TotalLength(m, p).value == initialLength + straight + finalLength
  {
  }
}
