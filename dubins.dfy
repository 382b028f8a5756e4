/** Construction and measurement of a single CSC Dubins path
    (python/dubins/dubins2.py): the two turning-circle centres, the two
    tangent (hand-off) points, and the arc angles, arc lengths, straight
    length, total length and validity derived from them. */
module Dubins {
  import opened Wrappers
  import opened Numerics
  import opened PathTypes

  /** The ValueError raised when the two circle centres (nearly) coincide. */
  datatype ConstructionError = CentersTooClose

  // ---------------------------------------------------------------------
  // Vector primitives
  // ---------------------------------------------------------------------

  /** The point at `radius` from `center` in the direction `angle`. */
  function CartesianPositionFromPolar(m: Elementary, center: Vec, radius: real, angle: real): Vec {
    Vec(center.x + radius * m.cos(angle), center.y + radius * m.sin(angle))
  }

  /** `v` rotated counter-clockwise by `angle` (the rotation matrix applied to v). */
  function RotateVector(m: Elementary, v: Vec, angle: real): Vec {
    Vec(m.cos(angle) * v.x - m.sin(angle) * v.y, m.sin(angle) * v.x + m.cos(angle) * v.y)
  }

  const UnitZ: Vec3 := Vec3(0.0, 0.0, 1.0)

  /** The tangent turned a quarter turn clockwise: the direction from the
      centre of a LEFT turn to the vehicle. */
  function RadialUnit(tangentUnit: Vec): Vec {
    Vec(tangentUnit.y, -tangentUnit.x)
  }

  /** RadialUnit is what the source computes: the tangent, lifted to 3D with
      a zero z component, crossed with the z axis and truncated back to 2D. */
  lemma RadialUnitIsCrossWithZ(tangentUnit: Vec)
    ensures var radial3 := Cross3(Vec3(tangentUnit.x, tangentUnit.y, 0.0), UnitZ);
      RadialUnit(tangentUnit) == Vec(radial3.x, radial3.y)
  {
  }

  /** `direction.value * x`: `x` for a LEFT turn and `-x` for a RIGHT one. */
  function Signed(direction: Direction, x: real): real {
    if direction == Left then x else -x
  }

  /** Signed is multiplication by the direction's signed value. */
  lemma SignedIsProduct(direction: Direction, x: real)
    ensures Signed(direction, x) == direction.Sign() as real * x
  {
  }

  /** Centre of the turning circle for a vehicle at `position` heading along
      `tangentUnit`: `position` minus the radial direction scaled by the
      turn's sign and the radius. */
  function ComputeCenterPosition(position: Vec, tangentUnit: Vec, radius: real, direction: Direction): Vec {
    Sub(position, Scale(Signed(direction, radius), RadialUnit(tangentUnit)))
  }

  /** The centre is perpendicular to the heading as seen from the position,
      at distance `radius` times the tangent's length, on the heading's left
      for a LEFT turn and on its right for a RIGHT one. */
  lemma CenterGeometry(position: Vec, tangentUnit: Vec, radius: real, direction: Direction)
    ensures var offset := Sub(ComputeCenterPosition(position, tangentUnit, radius, direction), position);
      && Dot(offset, tangentUnit) == 0.0
      && NormSq(offset) == radius * radius * NormSq(tangentUnit)
      && Cross(tangentUnit, offset) == Signed(direction, radius * NormSq(tangentUnit))
  {
    var k := Signed(direction, radius);
    var offset := Sub(ComputeCenterPosition(position, tangentUnit, radius, direction), position);
    assert offset == Vec(-(k * tangentUnit.y), k * tangentUnit.x);
    assert k * k == radius * radius;
    SideOffsetIdentity(k, radius, tangentUnit.x, tangentUnit.y);
    assert Cross(tangentUnit, offset) == k * NormSq(tangentUnit);
  }

  lemma SideOffsetIdentity(k: real, r: real, tx: real, ty: real)
    requires k * k == r * r
    ensures (k * ty) * (k * ty) + (k * tx) * (k * tx) == r * r * (tx * tx + ty * ty)
  {
    assert (k * ty) * (k * ty) == (k * k) * (ty * ty);
    assert (k * tx) * (k * tx) == (k * k) * (tx * tx);
  }

  /** A zero tangent (what normalizing a near-zero vector gives) puts the
      centre on the position itself: degenerate, but defined. */
  lemma ComputeCenterPositionOfZeroTangent(position: Vec, radius: real, direction: Direction)
    ensures ComputeCenterPosition(position, Vec(0.0, 0.0), radius, direction) == position
  {
    var k := Signed(direction, radius);
    assert RadialUnit(Vec(0.0, 0.0)) == Vec(0.0, 0.0);
    assert Scale(k, Vec(0.0, 0.0)) == Vec(0.0, 0.0);
  }

  /** `v` divided by its norm, or the zero vector when the norm is close to 0. */
  function NormalizeVector(m: Elementary, v: Vec): Vec {
    var norm := Norm(m, v);
    if IsCloseToZero(norm) then Vec(0.0, 0.0) else DivideBy(v, norm)
  }

  /** Signed angle, seen from `centerPosition`, from `initialPosition` to
      `finalPosition`: the difference of the two polar angles, not reduced to
      any range. */
  function RelativeAzimuth(m: Elementary, initialPosition: Vec, finalPosition: Vec, centerPosition: Vec): real {
    var initialVector := Sub(initialPosition, centerPosition);
    var finalVector := Sub(finalPosition, centerPosition);
    m.atan2(finalVector.y, finalVector.x) - m.atan2(initialVector.y, initialVector.x)
  }

  // ---------------------------------------------------------------------
  // Tangent points
  // ---------------------------------------------------------------------

  datatype TangentPositions = TangentPositions(initial: Vec, final: Vec)

  /** arccos(2r/d), the angle of the crossing tangent, or None where the
      argument leaves [-1, 1] and numpy's arccos returns NaN. */
  function BeltAzimuth(m: Elementary, radius: real, distance: real): Option<real>
    requires distance != 0.0
  {
    var ratio := 2.0 * radius / distance;
    if -1.0 <= ratio <= 1.0 then Some(m.arccos(ratio)) else None
  }

  /** Angles by which the unit centre-to-centre direction is rotated to reach
      the initial and the final tangent point, per family. */
  function RelativeAzimuths(m: Elementary, radius: real, distance: real, pathType: PathType): Option<(real, real)>
    requires distance != 0.0
  {
    match pathType
    case LSL => Some((-0.5 * m.pi, -0.5 * m.pi))
    case LSR =>
      (match BeltAzimuth(m, radius, distance)
       case Some(belt) => Some((-belt, m.pi - belt))
       case None => None)
    case RSL =>
      (match BeltAzimuth(m, radius, distance)
       case Some(belt) => Some((belt, -m.pi + belt))
       case None => None)
    case RSR => Some((0.5 * m.pi, 0.5 * m.pi))
  }

  /** The two points where the straight segment leaves the initial circle
      and joins the final one. Fails when the centres (nearly) coincide;
      yields None (NaN points) when a crossing family is infeasible. */
  function ComputeTangentPositions(m: Elementary, initialCenter: Vec, finalCenter: Vec, radius: real, pathType: PathType)
    : (result: Result<Option<TangentPositions>, ConstructionError>)
    ensures result.Success? && result.value.None? ==> pathType.IsCrossing()
  {
    var offsetPosition := Sub(finalCenter, initialCenter);
    var distance := Norm(m, offsetPosition);
    if IsCloseToZero(distance) then
      Failure(CentersTooClose)
    else
      match RelativeAzimuths(m, radius, distance, pathType)
      case None => Success(None)
      case Some((initialAzimuth, finalAzimuth)) =>
        var offsetUnit := DivideBy(offsetPosition, distance);
        Success(Some(TangentPositions(
          Add(Scale(radius, RotateVector(m, offsetUnit, initialAzimuth)), initialCenter),
          Add(Scale(radius, RotateVector(m, offsetUnit, finalAzimuth)), finalCenter))))
  }

  // ---------------------------------------------------------------------
  // The path record
  // ---------------------------------------------------------------------

  /** A CSC path. `Path` holds the six stored fields (tangents normalized)
      and the centres and tangent points derived from them at construction;
      `tangentPositions` is None where the source holds NaN points (an
      infeasible crossing family). `Invalid` is the path `create_invalid`
      builds, whose radius, positions and vectors are all NaN. */
  datatype DubinsPath =
    | Path(
        pathType: PathType,
        radius: real,
        initialPosition: Vec,
        initialTangentUnit: Vec,
        finalPosition: Vec,
        finalTangentUnit: Vec,
        initialCenterPosition: Vec,
        finalCenterPosition: Vec,
        tangentPositions: Option<TangentPositions>)
    | Invalid(pathType: PathType)
  {
    /** No NaN anywhere: every derived quantity is a number. */
    predicate IsDefined() {
      Path? && tangentPositions.Some?
    }
  }

  /** The constructor: normalizes both tangents, places both circle centres
      on the sides the family's directions select, and computes the tangent
      points. */
  function NewDubinsPath(
    m: Elementary,
    pathType: PathType,
    radius: real,
    initialPosition: Vec,
    initialTangent: Vec,
    finalPosition: Vec,
    finalTangent: Vec): (result: Result<DubinsPath, ConstructionError>)
    ensures result.Success? ==>
      && result.value.Path?
      && result.value.pathType == pathType
      && result.value.radius == radius
      && result.value.initialPosition == initialPosition
      && result.value.finalPosition == finalPosition
  {
    var initialTangentUnit := NormalizeVector(m, initialTangent);
    var finalTangentUnit := NormalizeVector(m, finalTangent);
    var initialCenter := ComputeCenterPosition(initialPosition, initialTangentUnit, radius, InitialDirection(pathType));
    var finalCenter := ComputeCenterPosition(finalPosition, finalTangentUnit, radius, FinalDirection(pathType));
    match ComputeTangentPositions(m, initialCenter, finalCenter, radius, pathType)
    case Failure(e) => Failure(e)
    case Success(tangents) =>
      Success(Path(pathType, radius, initialPosition, initialTangentUnit, finalPosition, finalTangentUnit,
                   initialCenter, finalCenter, tangents))
  }

  /** The placeholder path of a family: it keeps the family and nothing of
      it is a number. */
  function CreateInvalid(pathType: PathType): (p: DubinsPath)
    ensures p.pathType == pathType && !p.IsDefined()
  {
    Invalid(pathType)
  }

  // ---------------------------------------------------------------------
  // Measurements
  // ---------------------------------------------------------------------

  /** Distance between the two tangent points. */
  function StraightLength(m: Elementary, p: DubinsPath): (length: Option<real>)
    ensures length.Some? <==> p.IsDefined()
  {
    if p.IsDefined() then
      Some(Norm(m, Sub(p.tangentPositions.value.final, p.tangentPositions.value.initial)))
    else
      None
  }

  /** How far, in the initial turn's direction, the vehicle travels around
      the initial circle from the initial pose to the initial tangent point. */
  function InitialArcAngle(m: Elementary, p: DubinsPath): (angle: Option<real>)
    requires PiLaws(m)
    ensures angle.Some? <==> p.IsDefined()
    ensures angle.Some? ==> 0.0 <= angle.value < 2.0 * m.pi
  {
    if p.IsDefined() then
      var azimuth := RelativeAzimuth(m, p.initialPosition, p.tangentPositions.value.initial, p.initialCenterPosition);
      Some(FloorMod(Signed(InitialDirection(p.pathType), azimuth), 2.0 * m.pi))
    else
      None
  }

  /** How far, in the final turn's direction, the vehicle travels around the
      final circle from the final tangent point to the final pose. */
  function FinalArcAngle(m: Elementary, p: DubinsPath): (angle: Option<real>)
    requires PiLaws(m)
    ensures angle.Some? <==> p.IsDefined()
    ensures angle.Some? ==> 0.0 <= angle.value < 2.0 * m.pi
  {
    if p.IsDefined() then
      var azimuth := RelativeAzimuth(m, p.tangentPositions.value.final, p.finalPosition, p.finalCenterPosition);
      Some(FloorMod(Signed(FinalDirection(p.pathType), azimuth), 2.0 * m.pi))
    else
      None
  }

  function InitialArcLength(m: Elementary, p: DubinsPath): (length: Option<real>)
    requires PiLaws(m)
    ensures length.Some? <==> p.IsDefined()
  {
    if p.IsDefined() then Some(p.radius * InitialArcAngle(m, p).value) else None
  }

  function FinalArcLength(m: Elementary, p: DubinsPath): (length: Option<real>)
    requires PiLaws(m)
    ensures length.Some? <==> p.IsDefined()
  {
    if p.IsDefined() then Some(p.radius * FinalArcAngle(m, p).value) else None
  }

  function TotalLength(m: Elementary, p: DubinsPath): (length: Option<real>)
    requires PiLaws(m)
    ensures length.Some? <==> p.IsDefined()
  {
    if p.IsDefined() then
      Some(InitialArcLength(m, p).value + StraightLength(m, p).value + FinalArcLength(m, p).value)
    else
      None
  }

  /** A path is valid when its total length is a non-negative number (NaN
      compares false). */
  predicate IsValid(m: Elementary, p: DubinsPath)
    requires PiLaws(m)
    ensures IsValid(m, p) ==> p.IsDefined()
  {
    TotalLength(m, p).Some? && TotalLength(m, p).value >= 0.0
  }

  // ---------------------------------------------------------------------
  // Properties of the primitives
  // ---------------------------------------------------------------------

  /** Rotating by `angle` turns `v` so that its projection on the original is
      cos(angle) |v|^2 and its signed perpendicular part is sin(angle) |v|^2. */
  lemma RotateVectorAgainstOriginal(m: Elementary, v: Vec, angle: real)
    ensures Dot(v, RotateVector(m, v, angle)) == m.cos(angle) * NormSq(v)
    ensures Cross(v, RotateVector(m, v, angle)) == m.sin(angle) * NormSq(v)
  {
  }

  lemma RotateVectorPreservesNorm(m: Elementary, v: Vec, angle: real)
    requires RotationLaws(m)
    ensures NormSq(RotateVector(m, v, angle)) == NormSq(v)
  {
    var c, s := m.cos(angle), m.sin(angle);
    assert PythagoreanSum(m, angle) == 1.0;
    RotationIdentity(c, s, v.x, v.y);
  }

  lemma RotationIdentity(c: real, s: real, x: real, y: real)
    ensures (c * x - s * y) * (c * x - s * y) + (s * x + c * y) * (s * x + c * y) == (c * c + s * s) * (x * x + y * y)
  {
  }

  /** A quarter turn clockwise maps (x, y) to (y, -x); counter-clockwise to (-y, x). */
  lemma RotateVectorQuarterTurns(m: Elementary, v: Vec)
    requires RotationLaws(m)
    ensures RotateVector(m, v, -0.5 * m.pi) == Vec(v.y, -v.x)
    ensures RotateVector(m, v, 0.5 * m.pi) == Vec(-v.y, v.x)
  {
  }

  /** Rotations by two angles half a turn apart give opposite vectors. */
  lemma RotateVectorHalfTurnApart(m: Elementary, v: Vec, a: real, b: real)
    requires RotationLaws(m)
    requires b == a + m.pi
    ensures RotateVector(m, v, b) == Scale(-1.0, RotateVector(m, v, a))
  {
    assert HalfTurnFrom(m, a) == b;
  }

  /** The polar point lies on the circle of that radius about the centre, and
      is the centre plus (radius, 0) rotated by the angle. */
  lemma CartesianPositionFromPolarOnCircle(m: Elementary, center: Vec, radius: real, angle: real)
    requires RotationLaws(m)
    ensures NormSq(Sub(CartesianPositionFromPolar(m, center, radius, angle), center)) == radius * radius
    ensures CartesianPositionFromPolar(m, center, radius, angle) == Add(center, RotateVector(m, Vec(radius, 0.0), angle))
  {
    var c, s := m.cos(angle), m.sin(angle);
    assert PythagoreanSum(m, angle) == 1.0;
    assert c * c + s * s == 1.0;
    assert (radius * c) * (radius * c) + (radius * s) * (radius * s) == radius * radius * (c * c + s * s);
  }

  /** The norm is within the isclose tolerance of 0 exactly when the squared
      norm is within the squared tolerance. */
  lemma NormIsCloseToZero(m: Elementary, v: Vec)
    requires SqrtLaws(m)
    ensures IsCloseToZero(Norm(m, v)) <==> NormSq(v) <= Atol * Atol
  {
    var norm := Norm(m, v);
    NormLaws(m, v);
    if Atol < norm {
      SquareStrictlyMonotonic(Atol, norm);
    } else {
      SquareMonotonic(norm, Atol);
    }
  }

  lemma SquareMonotonic(a: real, b: real)
    requires 0.0 <= a <= b
    ensures a * a <= b * b
  {
    if a < b {
      SquareStrictlyMonotonic(a, b);
    }
  }

  /** Normalizing gives the zero vector for a vector whose norm is within the
      tolerance of 0, and otherwise a unit vector parallel to the input and
      pointing the same way (its projection on the input is the input's norm). */
  lemma NormalizeVectorSpec(m: Elementary, v: Vec)
    requires SqrtLaws(m)
    ensures NormSq(v) <= Atol * Atol ==> NormalizeVector(m, v) == Vec(0.0, 0.0)
    ensures Atol * Atol < NormSq(v) ==>
      && NormSq(NormalizeVector(m, v)) == 1.0
      && Cross(v, NormalizeVector(m, v)) == 0.0
      && Dot(v, NormalizeVector(m, v)) == Norm(m, v) > 0.0
  {
    NormIsCloseToZero(m, v);
    NormLaws(m, v);
    if Atol * Atol < NormSq(v) {
      UnitByDivision(v, Norm(m, v));
    }
  }

  /** Dividing a vector by its (positive) length gives a unit vector along it. */
  lemma UnitByDivision(v: Vec, d: real)
    requires 0.0 < d && d * d == NormSq(v)
    ensures NormSq(DivideBy(v, d)) == 1.0
    ensures Cross(v, DivideBy(v, d)) == 0.0
    ensures Dot(v, DivideBy(v, d)) == d
    ensures Scale(d, DivideBy(v, d)) == v
  {
    var k := 1.0 / d;
    var u := DivideBy(v, d);
    assert u == Scale(k, v);
    assert k * d == 1.0;
    assert NormSq(u) == k * k * NormSq(v);
    assert k * k * (d * d) == (k * d) * (k * d);
    assert Dot(v, u) == k * NormSq(v);
    assert k * (d * d) == (k * d) * d;
  }

  /** The relative azimuth changes sign when its two end points are swapped. */
  lemma RelativeAzimuthAntisymmetric(m: Elementary, a: Vec, b: Vec, center: Vec)
    ensures RelativeAzimuth(m, a, b, center) == -RelativeAzimuth(m, b, a, center)
  {
  }

  /** The relative azimuth from a point to itself is 0, and azimuths chain:
      a to b plus b to c is a to c. */
  lemma RelativeAzimuthChain(m: Elementary, a: Vec, b: Vec, c: Vec, center: Vec)
    ensures RelativeAzimuth(m, a, a, center) == 0.0
    ensures RelativeAzimuth(m, a, b, center) + RelativeAzimuth(m, b, c, center) == RelativeAzimuth(m, a, c, center)
  {
  }
}
