/** Fault planes in geological notation: `vector_to_geological_notation`
    turns a plane normal into the strike azimuth, the dip and the compass
    octant of the dip direction, and `validate_fault_plane_vectors` checks a
    plane's azimuth and dip against its normal. */
module GeologicalNotation {
  import opened Vectors
  import opened Numerics
  import opened Wrappers
  import opened StressAxes

  datatype DipDirection = North | East | South | West

  /** The azimuth of the horizontal line on the plane, the dip, and the
      octant of the dip direction. */
  datatype Notation = Notation(azimuth: real, dip: real, dipDirection: DipDirection)

  /** The normal, turned to point upward. */
  function UpwardNormal(n: Vec3): (u: Vec3)
    ensures 0.0 <= u.z
    ensures u == n || u == Neg(n)
    ensures Dot(u, u) == Dot(n, n)
  {
    if n.z < 0.0 then Neg(n) else n
  }

  /** The azimuth, in [0, 360), of the horizontal part of an upward normal:
      the direction in which the plane dips. */
  function DipAzimuth(m: MathLib, u: Vec3): real {
    WrapAzimuth(m.atan2Deg(u.x, u.y))
  }

  /** The compass octant of a dip azimuth. */
  function Octant(dipAzimuth: real): DipDirection {
    if 315.0 <= dipAzimuth || dipAzimuth < 45.0 then North
    else if 45.0 <= dipAzimuth < 135.0 then East
    else if 135.0 <= dipAzimuth < 225.0 then South
    else West
  }

  /** `math.acos` raises an exception outside [-1, 1], so the normal's
      vertical component must lie there. */
  function VectorToGeologicalNotation(m: MathLib, normal: Vec3): (r: Notation)
    requires -1.0 <= normal.z <= 1.0
    ensures 0.0 <= r.azimuth < 360.0
    ensures Sound(m) ==> 0.0 <= r.dip <= 90.0
  {
    var u := UpwardNormal(normal);
    var dipAzimuth := DipAzimuth(m, u);
    Notation(Mod360(dipAzimuth + 90.0), m.acosDeg(u.z), Octant(dipAzimuth))
  }

  // ---------------------------------------------------------------------
  // The octant is the nearest cardinal direction

  function CardinalAzimuth(d: DipDirection): real {
    match d
    case North => 0.0
    case East => 90.0
    case South => 180.0
    case West => 270.0
  }

  /** The angle between two azimuths in [0, 360), going the short way round. */
  function AngularDistance(a: real, b: real): real {
    var d := Abs(a - b);
    if d <= 180.0 then d else 360.0 - d
  }

  /** The octant names the cardinal direction nearest to the dip azimuth,
      which lies within 45 degrees of it. */
  lemma OctantIsNearestCardinal(dipAzimuth: real)
    requires 0.0 <= dipAzimuth < 360.0
    ensures AngularDistance(dipAzimuth, CardinalAzimuth(Octant(dipAzimuth))) <= 45.0
    ensures forall d :: AngularDistance(dipAzimuth, CardinalAzimuth(Octant(dipAzimuth)))
                        <= AngularDistance(dipAzimuth, CardinalAzimuth(d))
  {
  }

  /** Under exact trigonometry the dip azimuth lies in [0, 360), so the
      octant of a notation is the one nearest to the dip direction. */
  lemma NotationOctantIsNearest(m: MathLib, normal: Vec3)
    requires Sound(m) && -1.0 <= normal.z <= 1.0
    ensures var a := DipAzimuth(m, UpwardNormal(normal));
      && 0.0 <= a < 360.0
      && VectorToGeologicalNotation(m, normal).dipDirection == Octant(a)
      && forall d :: AngularDistance(a, CardinalAzimuth(Octant(a))) <= AngularDistance(a, CardinalAzimuth(d))
  {
    OctantIsNearestCardinal(DipAzimuth(m, UpwardNormal(normal)));
  }

  // ---------------------------------------------------------------------
  // What the notation means

  /** With the upward unit vector u written as (sin d sin p, sin d cos p,
      cos d), d is the dip returned and p the dip azimuth. */
  lemma UnitAngles(m: MathLib, u: Vec3)
    requires Sound(m) && Dot(u, u) == 1.0 && 0.0 <= u.z
    ensures var dip := m.acosDeg(u.z);
      var p := DipAzimuth(m, u);
      && u.z <= 1.0
      && m.sinDeg(dip) * m.sinDeg(p) == u.x
      && m.sinDeg(dip) * m.cosDeg(p) == u.y
      && m.cosDeg(dip) == u.z
  {
    DipSineIsHorizontalLength(m, u);
    SineTimesTrend(m, u, m.sinDeg(m.acosDeg(u.z)));
  }

  lemma SineTimesTrend(m: MathLib, u: Vec3, s: real)
    requires Sound(m) && s == m.sqrt(u.x * u.x + u.y * u.y)
    ensures s * m.sinDeg(WrapAzimuth(m.atan2Deg(u.x, u.y))) == u.x
    ensures s * m.cosDeg(WrapAzimuth(m.atan2Deg(u.x, u.y))) == u.y
  {
    TrendScaled(m, u.x, u.y);
  }

  /** For an upward unit vector u, sin(acos u.z) is the length of the
      horizontal part of u. */
  lemma DipSineIsHorizontalLength(m: MathLib, u: Vec3)
    requires Sound(m) && Dot(u, u) == 1.0 && 0.0 <= u.z
    ensures u.z <= 1.0
    ensures m.sinDeg(m.acosDeg(u.z)) == m.sqrt(u.x * u.x + u.y * u.y)
    ensures m.cosDeg(m.acosDeg(u.z)) == u.z
  {
    var h := u.x * u.x + u.y * u.y;
    UnitVertical(u, h);
    var s := m.sinDeg(m.acosDeg(u.z));
    SineOfDip(m, u.z, h, s);
    SqrtIsRoot(m, h);
    SquareRootUnique(m.sqrt(h), s);
  }

  /** The vertical component of an upward unit vector lies in [0, 1], and
      the squared horizontal length is what the vertical leaves over. */
  lemma UnitVertical(u: Vec3, h: real)
    requires Dot(u, u) == 1.0 && 0.0 <= u.z && h == u.x * u.x + u.y * u.y
    ensures u.z <= 1.0 && 0.0 <= h && h == 1.0 - u.z * u.z
  {
    SquareNonNeg(u.x, u.x, u.x * u.x);
    SquareNonNeg(u.y, u.y, u.y * u.y);
    SquareAtMostOne(u.z);
  }

  /** sin(acos c) is the non-negative root of 1 - c^2. */
  lemma SineOfDip(m: MathLib, c: real, h: real, s: real)
    requires Sound(m) && 0.0 <= c <= 1.0 && h == 1.0 - c * c && s == m.sinDeg(m.acosDeg(c))
    ensures 0.0 <= s && s * s == h && m.cosDeg(m.acosDeg(c)) == c
  {
    SinCosSquares(m, m.acosDeg(c));
  }

  /** The upward unit normal of the plane with the given strike azimuth and
      dip: it leans towards the dip direction, azimuth - 90. */
  function NormalOfPlane(m: MathLib, azimuth: real, dip: real): Vec3 {
    Vec3(-m.sinDeg(dip) * m.cosDeg(azimuth), m.sinDeg(dip) * m.sinDeg(azimuth), m.cosDeg(dip))
  }

  /** The strike azimuth p + 90, wrapped, turned a quarter from the dip
      azimuth p. */
  lemma StrikeAngle(m: MathLib, p: real)
    requires Sound(m)
    ensures m.sinDeg(Mod360(p + 90.0)) == m.cosDeg(p)
    ensures m.cosDeg(Mod360(p + 90.0)) == -m.sinDeg(p)
  {
    QuarterTurn(m, p);
  }

  /** The notation determines the plane: for a unit normal, the azimuth and
      dip returned give back its upward normal. */
  lemma NotationDeterminesNormal(m: MathLib, normal: Vec3)
    requires Sound(m) && Dot(normal, normal) == 1.0 && -1.0 <= normal.z <= 1.0
    ensures var r := VectorToGeologicalNotation(m, normal);
      NormalOfPlane(m, r.azimuth, r.dip) == UpwardNormal(normal)
  {
    var u := UpwardNormal(normal);
    UnitAngles(m, u);
    var p := WrapAzimuth(m.atan2Deg(u.x, u.y));
    StrikeAngle(m, p);
    NormalFromAngles(m, Mod360(p + 90.0), m.acosDeg(u.z), p, u);
  }

  lemma NormalFromAngles(m: MathLib, azimuth: real, dip: real, p: real, u: Vec3)
    requires m.sinDeg(azimuth) == m.cosDeg(p) && m.cosDeg(azimuth) == -m.sinDeg(p)
    requires m.sinDeg(dip) * m.sinDeg(p) == u.x && m.sinDeg(dip) * m.cosDeg(p) == u.y
    requires m.cosDeg(dip) == u.z
    ensures NormalOfPlane(m, azimuth, dip) == u
  {
    var s := m.sinDeg(dip);
    assert -s * m.cosDeg(azimuth) == s * m.sinDeg(p);
  }

  /** The strike direction (a horizontal unit vector at the returned
      azimuth) lies on the plane: it is orthogonal to the normal. */
  lemma StrikeLiesOnPlane(m: MathLib, normal: Vec3)
    requires Sound(m) && -1.0 <= normal.z <= 1.0
    ensures Dot(Bearing(m, VectorToGeologicalNotation(m, normal).azimuth), normal) == 0.0
  {
    var u := UpwardNormal(normal);
    var p := WrapAzimuth(m.atan2Deg(u.x, u.y));
    StrikeAngle(m, p);
    StrikeOrthogonal(m, u, p);
    OrthogonalToBoth(Bearing(m, Mod360(p + 90.0)), u);
  }

  lemma OrthogonalToBoth(a: Vec3, u: Vec3)
    requires Dot(a, u) == 0.0
    ensures Dot(a, Neg(u)) == 0.0
  {
  }

  lemma StrikeOrthogonal(m: MathLib, u: Vec3, p: real)
    requires Sound(m) && p == WrapAzimuth(m.atan2Deg(u.x, u.y))
    ensures Dot(Vec3(m.cosDeg(p), -m.sinDeg(p), 0.0), u) == 0.0
  {
    TrendScaled(m, u.x, u.y);
    CrossTerms(m.sinDeg(p), m.cosDeg(p), m.sqrt(u.x * u.x + u.y * u.y));
  }

  lemma CrossTerms(a: real, b: real, r: real)
    ensures b * (a * r) + (-a) * (b * r) == 0.0
  {
  }

  // ---------------------------------------------------------------------
  // Validation of the plane vectors

  /** Largest deviation of |computed . normal| from 1 that passes. */
  const ValidationTolerance: real := 0.000001

  /** The outcome of the check, with the three normalised vectors it
      returns; `Undefined` stands for a vector of length zero, whose
      normalisation numpy turns into NaNs, so that the check fails. */
  datatype Validation =
    | Checked(isValid: bool, azimuthVector: Vec3, dipVector: Vec3, computedNormal: Vec3)
    | Undefined

  function Normalize(m: MathLib, v: Vec3): Option<Vec3> {
    var k := Norm(m, v);
    if k == 0.0 then None else Some(Div(v, k))
  }

  lemma NormalizeUnit(m: MathLib, v: Vec3)
    requires Sound(m) && Dot(v, v) == 1.0
    ensures Normalize(m, v) == Some(v)
  {
    UnitNorm(m, v);
  }

  /** Normalises the three vectors and compares dip x azimuth with the
      normal, accepting either orientation. */
  function CompareNormals(m: MathLib, normal: Vec3, azimuthVector: Vec3, dipVector: Vec3): Validation {
    match (Normalize(m, azimuthVector), Normalize(m, dipVector), Normalize(m, normal))
    case (Some(a), Some(d), Some(n)) =>
      (match Normalize(m, Cross(d, a))
       case Some(c) => Checked(Abs(Abs(Dot(c, n)) - 1.0) < ValidationTolerance, a, d, c)
       case None => Undefined)
    case _ => Undefined
  }

  /** The check as written: the dip vector points at (azimuth + 90) mod
      360 with the axis formula that treats the dip as measured from the
      vertical, which makes it the downward normal itself. */
  function ValidateAsWritten(m: MathLib, normal: Vec3, azimuth: real, dip: real): Validation {
    CompareNormals(m, normal, Bearing(m, azimuth), AxisVectorAsWritten(m, Mod360(azimuth + 90.0), dip))
  }

  /** The check with the dip vector along the steepest descent of the
      plane: it points at the dip direction (azimuth - 90) mod 360 and
      makes the angle `dip` with the horizontal. */
  function ValidateFaultPlaneVectors(m: MathLib, normal: Vec3, azimuth: real, dip: real): Validation {
    CompareNormals(m, normal, Bearing(m, azimuth), AxisVector(m, Mod360(azimuth + 270.0), dip))
  }

  /** The three vectors the check compares are unit vectors already, so
      normalising leaves them as they are. */
  lemma CompareUnitVectors(m: MathLib, normal: Vec3, a: Vec3, d: Vec3)
    requires Sound(m)
    requires Dot(normal, normal) == 1.0 && Dot(a, a) == 1.0 && Dot(d, d) == 1.0
    requires Dot(Cross(d, a), Cross(d, a)) == 1.0
    ensures CompareNormals(m, normal, a, d)
      == Checked(Abs(Abs(Dot(Cross(d, a), normal)) - 1.0) < ValidationTolerance, a, d, Cross(d, a))
  {
    NormalizeUnit(m, a);
    NormalizeUnit(m, d);
    NormalizeUnit(m, normal);
    NormalizeUnit(m, Cross(d, a));
  }

  /** The dip azimuth (p + 90) + 90 of the source, wrapped twice, points
      against p. */
  lemma AsWrittenDipAngle(m: MathLib, p: real)
    requires Sound(m)
    ensures m.sinDeg(Mod360(Mod360(p + 90.0) + 90.0)) == -m.sinDeg(p)
    ensures m.cosDeg(Mod360(Mod360(p + 90.0) + 90.0)) == -m.cosDeg(p)
  {
    StrikeAngle(m, p);
    QuarterTurn(m, Mod360(p + 90.0));
  }

  /** The dip azimuth (p + 90) + 270, wrapped twice, is p again. */
  lemma DipDirectionAngle(m: MathLib, p: real)
    requires Sound(m)
    ensures m.sinDeg(Mod360(Mod360(p + 90.0) + 270.0)) == m.sinDeg(p)
    ensures m.cosDeg(Mod360(Mod360(p + 90.0) + 270.0)) == m.cosDeg(p)
  {
    StrikeAngle(m, p);
    ThreeQuarterTurn(m, Mod360(p + 90.0));
  }

  /** As written, the dip vector of a plane in notation form is the
      negated upward normal. */
  lemma DipVectorAsWrittenIsNormal(m: MathLib, normal: Vec3)
    requires Sound(m) && Dot(normal, normal) == 1.0 && -1.0 <= normal.z <= 1.0
    ensures var r := VectorToGeologicalNotation(m, normal);
      AxisVectorAsWritten(m, Mod360(r.azimuth + 90.0), r.dip) == Neg(UpwardNormal(normal))
  {
    var u := UpwardNormal(normal);
    var r := VectorToGeologicalNotation(m, normal);
    assert r.azimuth == Mod360(DipAzimuth(m, u) + 90.0) && r.dip == m.acosDeg(u.z);
    AsWrittenAngles(m, u);
  }

  /** The angles the source derives for the dip vector, in terms of the
      upward normal u: the azimuth points against u's trend. */
  lemma AsWrittenAngles(m: MathLib, u: Vec3)
    requires Sound(m) && Dot(u, u) == 1.0 && 0.0 <= u.z
    ensures var azimuth := Mod360(Mod360(DipAzimuth(m, u) + 90.0) + 90.0);
      AxisVectorAsWritten(m, azimuth, m.acosDeg(u.z)) == Neg(u)
  {
    var p := DipAzimuth(m, u);
    UnitAngles(m, u);
    AsWrittenDipAngle(m, p);
    AsWrittenFromAngles(m, Mod360(Mod360(p + 90.0) + 90.0), m.acosDeg(u.z), p, u);
  }

  lemma AsWrittenFromAngles(m: MathLib, azimuth: real, dip: real, p: real, u: Vec3)
    requires m.sinDeg(azimuth) == -m.sinDeg(p) && m.cosDeg(azimuth) == -m.cosDeg(p)
    requires m.sinDeg(dip) * m.sinDeg(p) == u.x && m.sinDeg(dip) * m.cosDeg(p) == u.y
    requires m.cosDeg(dip) == u.z
    ensures AxisVectorAsWritten(m, azimuth, dip) == Neg(u)
  {
    var s := m.sinDeg(dip);
    assert s * -m.sinDeg(p) == -(s * m.sinDeg(p));
    assert s * -m.cosDeg(p) == -(s * m.cosDeg(p));
  }

  /** As written, no plane in notation form passes: dip x azimuth is
      orthogonal to the normal instead of parallel to it. */
  lemma NotationPlanesNeverValidateAsWritten(m: MathLib, normal: Vec3)
    requires Sound(m) && Dot(normal, normal) == 1.0 && -1.0 <= normal.z <= 1.0
    ensures var r := VectorToGeologicalNotation(m, normal);
      var v := ValidateAsWritten(m, normal, r.azimuth, r.dip);
      v.Checked? && !v.isValid
  {
    var r := VectorToGeologicalNotation(m, normal);
    var u := UpwardNormal(normal);
    var a := Bearing(m, r.azimuth);
    DipVectorAsWrittenIsNormal(m, normal);
    StrikeLiesOnPlane(m, normal);
    BearingIsUnit(m, r.azimuth);
    InPlaneCross(a, u, normal);
    CompareUnitVectors(m, normal, a, Neg(u));
  }

  /** For a unit vector a in the plane of the unit normal u, (-u) x a is a
      unit vector in the same plane, orthogonal to the normal either way up. */
  lemma InPlaneCross(a: Vec3, u: Vec3, normal: Vec3)
    requires Dot(a, a) == 1.0 && Dot(u, u) == 1.0 && Dot(a, normal) == 0.0
    requires u == normal || u == Neg(normal)
    ensures Dot(Cross(Neg(u), a), Cross(Neg(u), a)) == 1.0
    ensures Dot(Cross(Neg(u), a), normal) == 0.0
  {
    assert Dot(Neg(u), Neg(u)) == 1.0;
    assert Dot(Neg(u), a) == 0.0;
    UnitCross(Neg(u), a);
    CrossIsOrthogonal(Neg(u), a);
  }

  /** With the steepest-descent dip vector, every plane in notation form
      passes, but dip x azimuth is the downward normal: against an upward
      normal the dot product is -1, the reverse of the documented sign, and
      the plane passes only through the absolute value the comparison takes.
      `RightHandPlanesValidateUpward` keeps the documented sign. */
  lemma NotationPlanesValidate(m: MathLib, normal: Vec3)
    requires Sound(m) && Dot(normal, normal) == 1.0 && -1.0 <= normal.z <= 1.0
    ensures var r := VectorToGeologicalNotation(m, normal);
      var v := ValidateFaultPlaneVectors(m, normal, r.azimuth, r.dip);
      && v.Checked? && v.isValid && v.computedNormal == Neg(UpwardNormal(normal))
      && (0.0 <= normal.z ==> Dot(v.computedNormal, normal) == -1.0)
  {
    DotNeg(normal, normal);
    var r := VectorToGeologicalNotation(m, normal);
    var u := UpwardNormal(normal);
    var d := AxisVector(m, Mod360(r.azimuth + 270.0), r.dip);
    var a := Bearing(m, r.azimuth);
    DipVectorCrossStrike(m, normal);
    AxisVectorMeaning(m, Mod360(r.azimuth + 270.0), r.dip);
    BearingIsUnit(m, r.azimuth);
    FlippedNormalDot(u, normal);
    CompareUnitVectors(m, normal, a, d);
  }

  /** The steepest-descent dip vector of a plane in notation form, crossed
      with its strike vector, is the downward normal. */
  lemma DipVectorCrossStrike(m: MathLib, normal: Vec3)
    requires Sound(m) && Dot(normal, normal) == 1.0 && -1.0 <= normal.z <= 1.0
    ensures var r := VectorToGeologicalNotation(m, normal);
      Cross(AxisVector(m, Mod360(r.azimuth + 270.0), r.dip), Bearing(m, r.azimuth)) == Neg(UpwardNormal(normal))
  {
    var u := UpwardNormal(normal);
    SteepestDescentAngles(m, u);
    var p := DipAzimuth(m, u);
    var az := Mod360(p + 90.0);
    SteepestDescentCrossStrike(m, Mod360(az + 270.0), az, m.acosDeg(u.z), p, u);
  }

  /** The angles the steepest-descent check derives, in terms of the upward
      normal u and its trend p. */
  lemma SteepestDescentAngles(m: MathLib, u: Vec3)
    requires Sound(m) && Dot(u, u) == 1.0 && 0.0 <= u.z
    ensures var p := DipAzimuth(m, u);
      var azimuth := Mod360(p + 90.0);
      var dip := m.acosDeg(u.z);
      && m.sinDeg(Mod360(azimuth + 270.0)) == m.sinDeg(p) && m.cosDeg(Mod360(azimuth + 270.0)) == m.cosDeg(p)
      && m.sinDeg(azimuth) == m.cosDeg(p) && m.cosDeg(azimuth) == -m.sinDeg(p)
      && m.sinDeg(dip) * m.sinDeg(p) == u.x && m.sinDeg(dip) * m.cosDeg(p) == u.y
      && m.cosDeg(dip) == u.z
      && m.sinDeg(p) * m.sinDeg(p) + m.cosDeg(p) * m.cosDeg(p) == 1.0
  {
    var p := DipAzimuth(m, u);
    UnitAngles(m, u);
    SinCosSquares(m, p);
    StrikeAngle(m, p);
    DipDirectionAngle(m, p);
  }

  lemma FlippedNormalDot(u: Vec3, normal: Vec3)
    requires Dot(normal, normal) == 1.0 && (u == normal || u == Neg(normal))
    ensures Dot(Neg(u), Neg(u)) == 1.0
    ensures Abs(Abs(Dot(Neg(u), normal)) - 1.0) == 0.0
  {
    if u == normal {
      assert Dot(Neg(u), normal) == -Dot(normal, normal);
    } else {
      assert Dot(Neg(u), normal) == Dot(normal, normal);
    }
  }

  /** The steepest-descent vector crossed with the strike vector is the
      downward normal. */
  lemma SteepestDescentCrossStrike(m: MathLib, dipAzimuth: real, azimuth: real, dip: real, p: real, u: Vec3)
    requires m.sinDeg(p) * m.sinDeg(p) + m.cosDeg(p) * m.cosDeg(p) == 1.0
    requires m.sinDeg(dipAzimuth) == m.sinDeg(p) && m.cosDeg(dipAzimuth) == m.cosDeg(p)
    requires m.sinDeg(azimuth) == m.cosDeg(p) && m.cosDeg(azimuth) == -m.sinDeg(p)
    requires m.sinDeg(dip) * m.sinDeg(p) == u.x && m.sinDeg(dip) * m.cosDeg(p) == u.y
    requires m.cosDeg(dip) == u.z
    ensures Cross(AxisVector(m, dipAzimuth, dip), Bearing(m, azimuth)) == Neg(u)
  {
    DipCrossStrike(m.cosDeg(dip), m.sinDeg(dip), m.sinDeg(p), m.cosDeg(p));
  }

  /** (c p, c q, -s) x (q, -p, 0) = (-s p, -s q, -c) when p^2 + q^2 = 1. */
  lemma DipCrossStrike(c: real, s: real, p: real, q: real)
    requires p * p + q * q == 1.0
    ensures Cross(Vec3(c * p, c * q, -s), Vec3(q, -p, 0.0)) == Vec3(-(s * p), -(s * q), -c)
  {
    var k := p * p + q * q;
    assert (c * p) * (-p) - (c * q) * q == -(c * k);
  }

  // ---------------------------------------------------------------------
  // The correction that keeps the documented sign

  /** The strike by the right-hand rule: the plane dips to the right of the
      strike, so the strike is the dip azimuth less 90, taken mod 360. */
  function RightHandStrike(m: MathLib, u: Vec3): real {
    Mod360(DipAzimuth(m, u) + 270.0)
  }

  /** The check with the dip vector still at (azimuth + 90) mod 360 but
      built by the axis formula that measures the dip from the horizontal. */
  function ValidateSteepestDescent(m: MathLib, normal: Vec3, azimuth: real, dip: real): Validation {
    CompareNormals(m, normal, Bearing(m, azimuth), AxisVector(m, Mod360(azimuth + 90.0), dip))
  }

  /** With the right-hand strike, every plane passes, and dip x azimuth is
      the upward normal itself, so the check holds without the abs() that
      admits either orientation. */
  lemma RightHandPlanesValidateUpward(m: MathLib, normal: Vec3)
    requires Sound(m) && Dot(normal, normal) == 1.0 && -1.0 <= normal.z <= 1.0
    ensures var u := UpwardNormal(normal);
      var v := ValidateSteepestDescent(m, normal, RightHandStrike(m, u), m.acosDeg(u.z));
      && v.Checked? && v.isValid && v.computedNormal == u
      && (0.0 <= normal.z ==> Dot(v.computedNormal, normal) == 1.0)
  {
    var u := UpwardNormal(normal);
    var azimuth := RightHandStrike(m, u);
    var dip := m.acosDeg(u.z);
    var d := AxisVector(m, Mod360(azimuth + 90.0), dip);
    var a := Bearing(m, azimuth);
    RightHandDipCrossStrike(m, u);
    AxisVectorMeaning(m, Mod360(azimuth + 90.0), dip);
    BearingIsUnit(m, azimuth);
    UpwardNormalDot(normal);
    CompareUnitVectors(m, normal, a, d);
  }

  /** The upward normal against the normal it came from: the dot product is
      1 or -1. */
  lemma UpwardNormalDot(normal: Vec3)
    requires Dot(normal, normal) == 1.0
    ensures Abs(Abs(Dot(UpwardNormal(normal), normal)) - 1.0) == 0.0
    ensures 0.0 <= normal.z ==> Dot(UpwardNormal(normal), normal) == 1.0
  {
    if normal.z < 0.0 {
      DotNeg(normal, normal);
    }
  }

  /** The dip vector at (strike + 90) mod 360 crossed with the right-hand
      strike vector is the upward normal. */
  lemma RightHandDipCrossStrike(m: MathLib, u: Vec3)
    requires Sound(m) && Dot(u, u) == 1.0 && 0.0 <= u.z
    ensures var azimuth := RightHandStrike(m, u);
      Cross(AxisVector(m, Mod360(azimuth + 90.0), m.acosDeg(u.z)), Bearing(m, azimuth)) == u
  {
    RightHandAngles(m, u);
    var p := DipAzimuth(m, u);
    var azimuth := Mod360(p + 270.0);
    RightHandCross(m, Mod360(azimuth + 90.0), azimuth, m.acosDeg(u.z), p, u);
  }

  /** The angles of the right-hand correction, in terms of the upward
      normal u and its trend p: the dip vector points along p. */
  lemma RightHandAngles(m: MathLib, u: Vec3)
    requires Sound(m) && Dot(u, u) == 1.0 && 0.0 <= u.z
    ensures var p := DipAzimuth(m, u);
      var azimuth := Mod360(p + 270.0);
      var dip := m.acosDeg(u.z);
      && m.sinDeg(Mod360(azimuth + 90.0)) == m.sinDeg(p) && m.cosDeg(Mod360(azimuth + 90.0)) == m.cosDeg(p)
      && m.sinDeg(azimuth) == -m.cosDeg(p) && m.cosDeg(azimuth) == m.sinDeg(p)
      && m.sinDeg(dip) * m.sinDeg(p) == u.x && m.sinDeg(dip) * m.cosDeg(p) == u.y
      && m.cosDeg(dip) == u.z
      && m.sinDeg(p) * m.sinDeg(p) + m.cosDeg(p) * m.cosDeg(p) == 1.0
  {
    var p := DipAzimuth(m, u);
    UnitAngles(m, u);
    SinCosSquares(m, p);
    ThreeQuarterTurn(m, p);
    QuarterTurn(m, Mod360(p + 270.0));
  }

  lemma RightHandCross(m: MathLib, dipAzimuth: real, azimuth: real, dip: real, p: real, u: Vec3)
    requires m.sinDeg(p) * m.sinDeg(p) + m.cosDeg(p) * m.cosDeg(p) == 1.0
    requires m.sinDeg(dipAzimuth) == m.sinDeg(p) && m.cosDeg(dipAzimuth) == m.cosDeg(p)
    requires m.sinDeg(azimuth) == -m.cosDeg(p) && m.cosDeg(azimuth) == m.sinDeg(p)
    requires m.sinDeg(dip) * m.sinDeg(p) == u.x && m.sinDeg(dip) * m.cosDeg(p) == u.y
    requires m.cosDeg(dip) == u.z
    ensures Cross(AxisVector(m, dipAzimuth, dip), Bearing(m, azimuth)) == u
  {
    UpCrossStrike(m.cosDeg(dip), m.sinDeg(dip), m.sinDeg(p), m.cosDeg(p));
  }

  /** (c p, c q, -s) x (-q, p, 0) = (s p, s q, c) when p^2 + q^2 = 1. */
  lemma UpCrossStrike(c: real, s: real, p: real, q: real)
    requires p * p + q * q == 1.0
    ensures Cross(Vec3(c * p, c * q, -s), Vec3(-q, p, 0.0)) == Vec3(s * p, s * q, c)
  {
    var k := p * p + q * q;
    assert (c * p) * p - (c * q) * (-q) == c * k;
  }
}
