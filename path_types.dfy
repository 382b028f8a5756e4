/** Turn directions and the four CSC Dubins path families, with the two
    lookup tables that convert between a family and its pair of turn
    directions (python/dubins/path_type.py). */
module PathTypes {

  /** Rotation direction of a circular arc. The source stores it as a signed
      integer: RIGHT (clockwise) = -1, LEFT (counter-clockwise) = +1. */
  datatype Direction = Right | Left {

    /** The signed value used as a rotation-sign multiplier. */
    function Sign(): (s: int)
      ensures s * s == 1
      ensures s > 0 <==> Left?
    {
      if Left? then 1 else -1
    }
  }

  /** The CSC families. Their integer values in the source are LSL = 0,
      LSR = 1, RSL = 2, RSR = 3. */
  datatype PathType = LSL | LSR | RSL | RSR {

    function Ordinal(): (n: nat)
      ensures n < 4
    {
      match this
      case LSL => 0
      case LSR => 1
      case RSL => 2
      case RSR => 3
    }

    /** True for the families whose straight segment crosses between the two
        circles (the inner tangent). */
    predicate IsCrossing() {
      LSR? || RSL?
    }
  }

  /** 1 for a clockwise turn, 0 for a counter-clockwise one. */
  function RightBit(d: Direction): nat {
    if d == Right then 1 else 0
  }

  /** Family of a path whose first arc turns `initial` and whose last arc
      turns `final`. The family's integer value is a two-bit number whose high
      bit is the initial turn and whose low bit is the final turn. */
  function PathTypeFromDirections(initial: Direction, final: Direction): (p: PathType)
    ensures p.Ordinal() == 2 * RightBit(initial) + RightBit(final)
  {
    if initial == Left then
      (if final == Left then LSL else LSR)
    else
      (if final == Left then RSL else RSR)
  }

  /** Initial and final turn directions of a family. */
  function DirectionsFromPathType(p: PathType): (ds: (Direction, Direction))
    ensures ds.0 == Right <==> p.Ordinal() >= 2
    ensures ds.1 == Right <==> p.Ordinal() % 2 == 1
    ensures p.IsCrossing() <==> ds.0 != ds.1
  {
    match p
    case LSL => (Left, Left)
    case LSR => (Left, Right)
    case RSL => (Right, Left)
    case RSR => (Right, Right)
  }

  function InitialDirection(p: PathType): Direction {
    DirectionsFromPathType(p).0
  }

  function FinalDirection(p: PathType): Direction {
    DirectionsFromPathType(p).1
  }

  /** The four rows of the lookup table, in both directions. */
  lemma PathTypeTable()
    ensures PathTypeFromDirections(Left, Left) == LSL && DirectionsFromPathType(LSL) == (Left, Left)
    ensures PathTypeFromDirections(Left, Right) == LSR && DirectionsFromPathType(LSR) == (Left, Right)
    ensures PathTypeFromDirections(Right, Left) == RSL && DirectionsFromPathType(RSL) == (Right, Left)
    ensures PathTypeFromDirections(Right, Right) == RSR && DirectionsFromPathType(RSR) == (Right, Right)
  {
  }

  /** Directions -> family -> directions is the identity on all four pairs. */
  lemma DirectionsRoundTrip(initial: Direction, final: Direction)
    ensures DirectionsFromPathType(PathTypeFromDirections(initial, final)) == (initial, final)
  {
  }

  /** Family -> directions -> family is the identity on all four families. */
  lemma PathTypeRoundTrip(p: PathType)
    ensures PathTypeFromDirections(DirectionsFromPathType(p).0, DirectionsFromPathType(p).1) == p
  {
  }

  /** Distinct direction pairs give distinct families (the mapping is a
      bijection of the 2 x 2 direction space onto the four families). */
  lemma PathTypeFromDirectionsInjective(i1: Direction, f1: Direction, i2: Direction, f2: Direction)
    requires PathTypeFromDirections(i1, f1) == PathTypeFromDirections(i2, f2)
    ensures i1 == i2 && f1 == f2
  {
    DirectionsRoundTrip(i1, f1);
    DirectionsRoundTrip(i2, f2);
  }
}
