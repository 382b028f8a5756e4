# CSC Dubins paths in Dafny

This project models the geometric core of a small Python library. The library
builds 2D Dubins paths of the CSC kind: a circular arc, then a straight
segment, then a second circular arc, all with one turning radius. It proves
the plane-geometry facts that the construction relies on.

- `wrappers.dfy` (module `Wrappers`) defines `Option` and `Result`. A NaN
  quantity is `None`, and a raised `ValueError` is a `Failure`.
- `path_types.dfy` (module `PathTypes`) models `python/dubins/path_type.py`.
  It covers the two turn directions (LEFT = +1, RIGHT = -1), the four
  families LSL, LSR, RSL and RSR, and the two lookup tables between a family
  and its pair of turn directions.
- `numerics.dfy` (module `Numerics`) holds the numpy vocabulary the code is
  written in:
  - 2D vectors, the dot and cross products, and the squared norm;
  - `np.isclose(x, 0.0)`, modelled as `|x| <= 1e-8`;
  - Python's float `%`, modelled as `FloorMod`;
  - the elementary functions, passed around as one value `Elementary`
    (pi, sin, cos, arccos, atan2, sqrt). Their laws are predicates that a
    proof requires only when it needs them.
- `dubins.dfy` (module `Dubins`) models `python/dubins/dubins2.py`.
  - The vector helpers: rotation, centre placement, normalization, relative
    azimuth, and polar to Cartesian.
  - The tangent-point computation.
  - The `DubinsPath` record. `NewDubinsPath` models `__init__`, and
    `CreateInvalid` models `create_invalid`. The read-only properties are
    functions over the record: straight length, arc angles, arc lengths,
    total length and `is_valid`.
- `dubins_properties.dfy` (module `DubinsProperties`) proves the geometry:
  - each centre is at distance r from its pose, on the side of its turn;
  - each tangent point lies on its circle;
  - the straight segment is tangent to both circles;
  - for LSL and RSR the straight length is the centre distance d; for LSR
    and RSL its square is d² − 4r², and those families are feasible exactly
    when d ≥ 2r;
  - construction fails exactly when the centres are within tolerance;
  - arc angles lie in [0, 2π), and lengths, validity and `create_invalid`
    behave as described below.
- `worked_examples.dfy` (module `WorkedExamples`) works through concrete
  paths. Both use r = 1, a start at (0, 0) heading (0, 1), and an end at
  (4, 0) heading (0, 1).
  - LSL: the centres are (−1, 0) and (3, 0). The tangent points are (−1, −1)
    and (3, −1). The straight length is 4, the arc angles are 3π/2 and π/2,
    and the total length is 4 + 2π.
  - LSR: the centres are (−1, 0) and (5, 0), and the straight length squared
    is 32.
  - An LSR path whose end pose is too close to the start is NaN and not
    valid.

Two of these values follow from details of the code. `initial_arc_angle` reduces
the relative azimuth −π/2 modulo 2π to 3π/2. For LSR, the final turn is RIGHT,
which puts the final centre at (5, 0).

## Model

| member | source | states |
|---|---|---|
| PathTypes.Direction.Sign | python/dubins/path_type.py:10-14 | The direction's signed value squares to 1 and is positive exactly for LEFT. |
| PathTypes.PathType.Ordinal | python/dubins/path_type.py:17-23 | The family's integer value is one of 0..3 (LSL = 0, LSR = 1, RSL = 2, RSR = 3). |
| PathTypes.PathTypeFromDirections | python/dubins/path_type.py:26-48 | The family's integer value is 2·[initial is RIGHT] + [final is RIGHT]. |
| PathTypes.DirectionsFromPathType | python/dubins/path_type.py:56-75 | The initial turn is RIGHT exactly for values ≥ 2, the final turn is RIGHT exactly for odd values, and the two turns differ exactly for the crossing families. |
| PathTypes.PathTypeTable | python/dubins/path_type.py:39-75 | Gives all four rows of both tables: (L,L)↔LSL, (L,R)↔LSR, (R,L)↔RSL, (R,R)↔RSR. |
| PathTypes.DirectionsRoundTrip | python/dubins/path_type.py:26-75 | directions → family → directions is the identity. |
| PathTypes.PathTypeRoundTrip | python/dubins/path_type.py:26-75 | family → directions → family is the identity. |
| PathTypes.PathTypeFromDirectionsInjective | python/dubins/path_type.py:39-48 | Distinct direction pairs give distinct families. |
| Numerics.FloorMod | python/dubins/dubins2.py:284 | Python's float `%` by a positive modulus lies in [0, modulus). |
| Numerics.FloorModOfShift | python/dubins/dubins2.py:284 | `x % m` is the unique value in [0, m) that differs from x by a whole number of m. |
| Numerics.NormLaws | python/dubins/dubins2.py:89 | The norm is non-negative and squares to the squared norm. |
| Numerics.IsCloseToZero | python/dubins/dubins2.py:91 | No contract of its own. It is `np.isclose(a, 0.0)` with the default tolerances, `\|a\| <= 1e-8`. Its meaning for norms is the row Dubins.NormIsCloseToZero. |
| Dubins.CartesianPositionFromPolar | python/dubins/dubins2.py:19-35 | No contract of its own. Its properties are the row Dubins.CartesianPositionFromPolarOnCircle. |
| Dubins.RotateVector | python/dubins/dubins2.py:38-52 | No contract of its own. Its properties are the rows Dubins.RotateVectorAgainstOriginal, Dubins.RotateVectorPreservesNorm, Dubins.RotateVectorQuarterTurns and Dubins.RotateVectorHalfTurnApart. |
| Dubins.ComputeCenterPosition | python/dubins/dubins2.py:55-76 | No contract of its own. Its properties are the rows Dubins.RadialUnitIsCrossWithZ, Dubins.CenterGeometry and Dubins.ComputeCenterPositionOfZeroTangent. |
| Dubins.NormalizeVector | python/dubins/dubins2.py:79-94 | No contract of its own. Its properties are the row Dubins.NormalizeVectorSpec. |
| Dubins.ComputeTangentPositions | python/dubins/dubins2.py:97-151 | The tangent points are NaN only for a crossing family (LSL and RSR always yield points when they do not raise). Its full behaviour is in the rows DubinsProperties.TangentPositionsOutcome, TangentPointsOnCircles, StraightSegmentIsTangent and StraightSegmentLength. |
| Dubins.RelativeAzimuth | python/dubins/dubins2.py:154-177 | No contract of its own. Its properties are the rows Dubins.RelativeAzimuthAntisymmetric and Dubins.RelativeAzimuthChain. |
| Dubins.NewDubinsPath | python/dubins/dubins2.py:189-229 | A successful construction keeps the family, radius and both positions it was given. When it raises and where it places centres and tangent points are the rows DubinsProperties.NewDubinsPathOutcome, NewDubinsPathUnfolded and PoseCenter. |
| Dubins.CreateInvalid | python/dubins/dubins2.py:247-265 | The placeholder keeps its family and is not a defined path. |
| Dubins.IsValid | python/dubins/dubins2.py:242-245 | A valid path is a defined one (a NaN total length is not `>= 0`). When it holds exactly is the row DubinsProperties.ConstructedValidity. |
| Dubins.StraightLength | python/dubins/dubins2.py:267-272 | The straight length is a number exactly when the path is defined. Its value is the row DubinsProperties.ConstructedStraightLength. |
| Dubins.InitialArcLength | python/dubins/dubins2.py:286-289 | The initial arc length is a number exactly when the path is defined. Its bounds are the row DubinsProperties.ArcLengthBounds. |
| Dubins.FinalArcLength | python/dubins/dubins2.py:303-306 | The final arc length is a number exactly when the path is defined. Its bounds are the row DubinsProperties.ArcLengthBounds. |
| Dubins.TotalLength | python/dubins/dubins2.py:308-311 | The total length is a number exactly when the path is defined. Its bounds are the row DubinsProperties.TotalLengthBounds. |
| Dubins.RadialUnitIsCrossWithZ | python/dubins/dubins2.py:73-75 | The radial direction equals the tangent lifted to 3D, crossed with the z axis and truncated to 2D, i.e. (ty, −tx). |
| Dubins.SignedIsProduct | python/dubins/dubins2.py:76 | Signing by a direction is multiplication by its value. |
| Dubins.CenterGeometry | python/dubins/dubins2.py:55-76 | The centre offset c − p is perpendicular to the tangent, and has squared length r²·\|t\|². Its cross product with the tangent is sign·r·\|t\|², so the centre is on the left for LEFT and on the right for RIGHT. |
| Dubins.ComputeCenterPositionOfZeroTangent | python/dubins/dubins2.py:74-76 | A zero tangent puts the centre on the position. |
| Dubins.RotateVectorAgainstOriginal | python/dubins/dubins2.py:38-52 | A rotated vector has dot product cos(a)\|v\|² and cross product sin(a)\|v\|² with the original. |
| Dubins.RotateVectorPreservesNorm | python/dubins/dubins2.py:38-52 | Rotation preserves the squared norm. |
| Dubins.RotateVectorQuarterTurns | python/dubins/dubins2.py:49-52 | Rotation by −π/2 maps (x,y) to (y,−x), and rotation by +π/2 maps it to (−y,x). |
| Dubins.RotateVectorHalfTurnApart | python/dubins/dubins2.py:49-52 | Rotations by angles π apart give opposite vectors. |
| Dubins.CartesianPositionFromPolarOnCircle | python/dubins/dubins2.py:19-35 | The polar point is at distance \|radius\| from the centre, and equals the centre plus (radius, 0) rotated by the angle. |
| Dubins.NormIsCloseToZero | python/dubins/dubins2.py:89-91 | `isclose(norm, 0)` holds exactly when the squared norm is at most the squared tolerance. |
| Dubins.NormalizeVectorSpec | python/dubins/dubins2.py:79-94 | A near-zero vector gives exactly (0,0). Any other vector gives a unit vector parallel to the input and pointing the same way. |
| Dubins.RelativeAzimuthAntisymmetric | python/dubins/dubins2.py:154-177 | Swapping the two end points negates the relative azimuth. |
| Dubins.RelativeAzimuthChain | python/dubins/dubins2.py:171-177 | The azimuth from a point to itself is 0, and the azimuths a→b and b→c add up to a→c. |
| Dubins.InitialArcAngle | python/dubins/dubins2.py:274-284 | The initial arc angle is defined exactly when the path is, and then lies in [0, 2π). |
| Dubins.FinalArcAngle | python/dubins/dubins2.py:291-301 | The final arc angle is defined exactly when the path is, and then lies in [0, 2π). |
| DubinsProperties.OuterAzimuths | python/dubins/dubins2.py:121-125 | For LSL and RSR both azimuths are the same quarter turn, perpendicular to the centre line. |
| DubinsProperties.OuterTangentPositions | python/dubins/dubins2.py:121-151 | For LSL the tangent points are both centres shifted by r to the right of the centre line; for RSR they are shifted to the left. |
| DubinsProperties.CrossingAzimuths | python/dubins/dubins2.py:127-137 | For LSR and RSL the final rotation is opposite to the initial one, and the initial angle's cosine is 2r/d. |
| DubinsProperties.TangentFrame | python/dubins/dubins2.py:115-151 | The tangent points are c1 + r·w and c2 ± r·w, with w a unit vector, and w's projection on the centre offset is 0 (outer) or 2r (crossing). |
| DubinsProperties.TangentPointsOnCircles | python/dubins/dubins2.py:147-151 | Each tangent point is at distance r from its own centre. |
| DubinsProperties.StraightSegmentIsTangent | python/dubins/dubins2.py:121-151 | The straight segment is perpendicular to both radius vectors, so it touches both circles. |
| DubinsProperties.StraightSegmentLength | python/dubins/dubins2.py:121-151 | For LSL and RSR the segment equals the centre offset; for LSR and RSL its squared length is d² − 4r². |
| DubinsProperties.TangentPositionsOutcome | python/dubins/dubins2.py:115-137 | The computation fails exactly when d² ≤ tol². It yields NaN points exactly for a crossing family with tol² < d² < 4r². |
| DubinsProperties.NewDubinsPathOutcome | python/dubins/dubins2.py:189-229 | Construction raises exactly when the two centres it places are within tolerance. Otherwise it keeps the family, radius and positions. |
| DubinsProperties.NewDubinsPathSucceeds | python/dubins/dubins2.py:189-229 | Construction succeeds when the centres are further apart than the tolerance. |
| DubinsProperties.NewDubinsPathUnfolded | python/dubins/dubins2.py:189-229 | A constructed path stores the normalized tangents, the centres placed from them and the tangent points from those centres. |
| DubinsProperties.PoseCenter | python/dubins/dubins2.py:198-219 | For a tangent longer than the tolerance, the stored unit tangent is a unit vector along it, and the centre is at distance r, perpendicular, on the turn's side. For a shorter one, the centre is the position. |
| DubinsProperties.ConstructedInitialCenter | python/dubins/dubins2.py:202-213 | In a constructed path whose initial tangent is longer than the tolerance, the stored initial unit tangent has squared norm 1, the initial centre is at squared distance r² from the initial position, and its cross product with the unit tangent is sign·r (the turn's side). With a shorter tangent, the centre is the position. |
| DubinsProperties.ConstructedFinalCenter | python/dubins/dubins2.py:204-219 | The same four facts for the final circle: unit tangent, squared distance r², cross product sign·r, and the centre on the position for a tangent within the tolerance. |
| DubinsProperties.ConstructedFeasibility | python/dubins/dubins2.py:129-135 | A constructed path's centres are further apart than the tolerance. Its tangent points are defined exactly for LSL/RSR, or when 4r² ≤ d². |
| DubinsProperties.ConstructedTangency | python/dubins/dubins2.py:221-229 | In a defined constructed path, both tangent points lie on their circles and the segment touches both circles. |
| DubinsProperties.ConstructedStraightLength | python/dubins/dubins2.py:267-272 | `straight_length` is √(d²) for LSL/RSR. For LSR/RSL its square is d² − 4r². |
| DubinsProperties.ArcLengthBounds | python/dubins/dubins2.py:286-306 | With r ≥ 0 each arc length lies in [0, 2πr]. |
| DubinsProperties.TotalLengthBounds | python/dubins/dubins2.py:242-245 | With r ≥ 0, the straight length ≤ the total length ≤ the straight length + 4πr, and the path is valid. |
| DubinsProperties.ConstructedValidity | python/dubins/dubins2.py:242-245 | A valid path is defined. A constructed path with r ≥ 0 is valid exactly for LSL/RSR, or when 4r² ≤ d². |
| DubinsProperties.CreateInvalidIsInvalid | python/dubins/dubins2.py:247-265 | The placeholder path keeps its family, every measurement is NaN, and it is not valid. |
| DubinsProperties.CoincidentCentersFail | python/dubins/dubins2.py:115-119 | Coincident centres raise. |
| DubinsProperties.IdenticalPosesFail | python/dubins/dubins2.py:189-229 | For LSL/RSR, identical start and end poses make construction raise. |
| WorkedExamples.LslConstruction | python/dubins/dubins2.py:189-229 | The LSL example builds the path with centres (−1,0) and (3,0), and tangent points (−1,−1) and (3,−1). |
| WorkedExamples.LslStraightLength | python/dubins/dubins2.py:267-272 | Its straight length is 4. |
| WorkedExamples.LslInitialArcAngle | python/dubins/dubins2.py:274-284 | Its initial arc angle is 3π/2. |
| WorkedExamples.LslFinalArcAngle | python/dubins/dubins2.py:291-301 | Its final arc angle is π/2. |
| WorkedExamples.UnitRadiusTotal | python/dubins/dubins2.py:308-311 | With r = 1, a straight length of 4 and arc angles 3π/2 and π/2, the total is 4 + 2π. |
| WorkedExamples.LslMeasurements | python/dubins/dubins2.py:242-311 | For the LSL example the straight length is 4, the angles are 3π/2 and π/2, the total is 4 + 2π, and the path is valid. |
| WorkedExamples.LsrCenters | python/dubins/dubins2.py:206-219 | The LSR example's centres are (−1,0) and (5,0), so d² = 36. |
| WorkedExamples.LsrSucceeds | python/dubins/dubins2.py:189-229 | Constructing the LSR example does not raise. |
| WorkedExamples.LsrMeasurements | python/dubins/dubins2.py:242-272 | The constructed LSR example is defined, its straight length squared is 32, and it is valid. |
| WorkedExamples.NearLsrSucceeds | python/dubins/dubins2.py:189-229 | Constructing LSR to the end pose (1,0) heading (0,−1) does not raise. |
| WorkedExamples.NearLsrIsInvalid | python/dubins/dubins2.py:129-135 | That path, with d = 1 < 2r, has NaN tangent points and total length, and is not valid. |

## Left out

- `python/dubins/plot2.py` is not part of this model. It covers drawing, file output and its demo.
- The `__main__` demo of `dubins2.py` is not modelled. It uses random inputs and plotting.
- Logging and `__repr__` are not modelled. They produce diagnostic text only.
- IEEE-754 arithmetic is not modelled: numbers are exact reals.
  - NaN appears only where the code produces it from finite inputs: as `None` tangent points for an infeasible crossing family, and as the `Invalid` variant for `create_invalid`.
  - Infinities, rounding and NaN inputs to `__init__` are not modelled.
- `CreateInvalid`: the source builds the placeholder by running `__init__` on NaN inputs. The model gives it a separate variant whose measurements are all NaN. That matches what `__init__` computes from NaN, since `isclose(NaN, 0)` is false and every derived value is NaN.
- The elementary functions (π, sin, cos, arccos, atan2, sqrt) cannot be defined exactly over the reals. They are parameters, constrained only by the laws each proof requires:
  - π > 0;
  - sqrt is the non-negative square root;
  - cos² + sin² = 1, the values at ±π/2, the half-turn shift and parity;
  - cos(arccos x) = x on [−1, 1];
  - atan2 on the positive x axis and on both halves of the y axis.
- Dubins.InitialArcAngle: proved only to lie in [0, 2π). It is not proved that rotating the initial position about the initial centre by the signed arc angle reaches the initial tangent point, because the atan2 laws above give atan2 no values off the axes. Exact values are given for the worked example.
- Dubins.FinalArcAngle: proved only to lie in [0, 2π). It is not proved that rotating the final tangent point about the final centre by the signed arc angle reaches the final position, for the same reason.
- The `ValueError` branches of `path_type.py` (lines 50-53 and 77) cannot be reached by well-typed values. The model's datatypes make both lookup functions total, so those branches do not appear.
- The `case _: raise ValueError` branch of `compute_tangent_positions` (`dubins2.py` lines 144-145) cannot be reached either: the match over the four families is exhaustive.
- Dubins.NewDubinsPath: the tuple unpacking at line 222 of `dubins2.py` is modelled as one `Option` of a pair of points. Both points are NaN together, or neither is.
- WorkedExamples.LsrMeasurements: it is stated about any `Constructed` LSR path with r = 1 and centres 6 apart (d² = 36), not about the result of `NewDubinsPath` on the example poses. WorkedExamples.LsrCenters and WorkedExamples.LsrSucceeds show that construction on those poses succeeds with those centres. The single equation that chains the two is too large for the solver.
- DubinsProperties.TotalLengthBounds: with a negative radius the arc lengths are non-positive. The model computes that case, but no bound is stated for it.
