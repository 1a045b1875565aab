/** The stress state of the fault-slip generator: the three principal axes
    built from the azimuth and dip of sigma1 and sigma3, the orientation of
    sigma2, the reduced stress tensor S = Rot diag(-1, -R, 0) Rot^T, and the
    traction on a fault plane. */
module StressAxes {
  import opened Vectors
  import opened Numerics
  import opened Wrappers

  datatype Axis = Sigma1 | Sigma2 | Sigma3

  /** One entry of the `principal_axes` dictionary. */
  datatype AxisRecord = AxisRecord(vector: Vec3, azimuth: real, dip: real)

  /** Azimuth and dip (degrees) of an axis. */
  datatype Orientation = Orientation(azimuth: real, dip: real)

  /** The messages the construction prints, in order. */
  datatype Warning = AndersonianRegime | ParallelAxes | NotOrthogonal(maxDot: real)

  /** The vertical, downward unit vector. */
  const Down := Vec3(0.0, 0.0, -1.0)

  /** Threshold under which the cross product, or the horizontal part of
      sigma2, counts as zero. */
  const ParallelTolerance: real := 0.0000000001

  /** Largest |dot product| between two axes that is not reported. */
  const OrthogonalityTolerance: real := 0.000001

  // ---------------------------------------------------------------------
  // Axis vectors

  /** The axis vector with the formula of the source: the horizontal part
      scales with sin(dip) and the vertical part is -cos(dip), so the dip is
      treated as measured from the vertical. */
  function AxisVectorAsWritten(m: MathLib, azimuth: real, dip: real): Vec3 {
    Vec3(m.sinDeg(dip) * m.sinDeg(azimuth), m.sinDeg(dip) * m.cosDeg(azimuth), -m.cosDeg(dip))
  }

  /** As written, an axis documented as horizontal (dip 0) comes out vertical. */
  lemma HorizontalAxisComesOutVertical(m: MathLib, azimuth: real)
    requires Sound(m)
    ensures AxisVectorAsWritten(m, azimuth, 0.0) == Down
  {
  }

  /** As written, the Andersonian input (sigma1 and sigma3 both horizontal)
      gives the same vertical vector for sigma1 and sigma3, so the two axes
      are parallel rather than orthogonal. */
  lemma AndersonianAxesCoincideAsWritten(m: MathLib, azimuth1: real, azimuth3: real)
    requires Sound(m)
    ensures AxisVectorAsWritten(m, azimuth1, 0.0) == AxisVectorAsWritten(m, azimuth3, 0.0) == Down
    ensures Dot(AxisVectorAsWritten(m, azimuth1, 0.0), AxisVectorAsWritten(m, azimuth3, 0.0)) == 1.0
  {
  }

  /** The unit vector of an axis with the given azimuth (clockwise from
      North) and dip (downward from the horizontal), East-North-Up. */
  function AxisVector(m: MathLib, azimuth: real, dip: real): Vec3 {
    Vec3(m.cosDeg(dip) * m.sinDeg(azimuth), m.cosDeg(dip) * m.cosDeg(azimuth), -m.sinDeg(dip))
  }

  /** The axis vector has unit length, its trend is the azimuth, a dip of 0
      is horizontal and a dip of 90 points straight down. */
  lemma AxisVectorMeaning(m: MathLib, azimuth: real, dip: real)
    requires Sound(m)
    ensures Dot(AxisVector(m, azimuth, dip), AxisVector(m, azimuth, dip)) == 1.0
    ensures AxisVector(m, azimuth, 0.0) == Bearing(m, azimuth)
    ensures AxisVector(m, azimuth, 90.0) == Down
  {
    SinCosSquares(m, dip);
    SinCosSquares(m, azimuth);
    UnitFromAngles(m.cosDeg(dip), m.sinDeg(dip), m.sinDeg(azimuth), m.cosDeg(azimuth));
    QuarterTurn(m, 0.0);
    assert 0.0 + 90.0 == 90.0;
  }

  lemma UnitFromAngles(c: real, s: real, p: real, q: real)
    requires p * p + q * q == 1.0 && s * s + c * c == 1.0
    ensures (c * p) * (c * p) + (c * q) * (c * q) + (-s) * (-s) == 1.0
  {
    var k := p * p + q * q;
    var cc := c * c;
    assert (c * p) * (c * p) + (c * q) * (c * q) == cc * k;
  }

  // ---------------------------------------------------------------------
  // sigma2

  /** sigma2 and whether the parallel-axes fallback was taken. */
  function Sigma2Direction(m: MathLib, sigma1: Vec3, sigma3: Vec3, andersonian: bool): (Vec3, bool) {
    if andersonian then (Down, false)
    else
      var c := Cross(sigma3, sigma1);
      var n := Norm(m, c);
      if n > ParallelTolerance then (Div(c, n), false) else (Down, true)
  }

  /** Outside the Andersonian regime sigma2 is the normalised sigma3 x sigma1,
      a unit vector orthogonal to both; when that product has (almost) no
      length it falls back to the vertical. */
  lemma Sigma2IsOrthogonal(m: MathLib, sigma1: Vec3, sigma3: Vec3)
    requires Sound(m)
    ensures var (v, parallel) := Sigma2Direction(m, sigma1, sigma3, false);
      && (parallel <==> Norm(m, Cross(sigma3, sigma1)) <= ParallelTolerance)
      && (parallel ==> v == Down)
      && (!parallel ==> Dot(v, sigma1) == 0.0 && Dot(v, sigma3) == 0.0 && Dot(v, v) == 1.0)
  {
    var c := Cross(sigma3, sigma1);
    var n := Norm(m, c);
    if n > ParallelTolerance {
      CrossIsOrthogonal(sigma3, sigma1);
      DivDot(c, sigma1, n);
      DivDot(c, sigma3, n);
      NormalizedIsUnit(m, c);
    }
  }

  /** In the Andersonian regime sigma2 is the downward vertical. */
  lemma AndersonianSigma2IsVertical(m: MathLib, sigma1: Vec3, sigma3: Vec3)
    ensures Sigma2Direction(m, sigma1, sigma3, true) == (Down, false)
  {
  }

  /** With horizontal sigma1 and sigma3, the vertical sigma2 of the
      Andersonian regime is orthogonal to both. */
  lemma AndersonianAxesAreOrthogonal(m: MathLib, azimuth1: real, azimuth3: real)
    requires Sound(m)
    ensures Dot(AxisVector(m, azimuth1, 0.0), Sigma2Direction(m, AxisVector(m, azimuth1, 0.0), AxisVector(m, azimuth3, 0.0), true).0) == 0.0
    ensures Dot(AxisVector(m, azimuth3, 0.0), Sigma2Direction(m, AxisVector(m, azimuth1, 0.0), AxisVector(m, azimuth3, 0.0), true).0) == 0.0
  {
  }

  function MaxAbsDot(sigma1: Vec3, sigma2: Vec3, sigma3: Vec3): real {
    var d12 := Abs(Dot(sigma1, sigma2));
    var d13 := Abs(Dot(sigma1, sigma3));
    var d23 := Abs(Dot(sigma2, sigma3));
    if d12 >= d13 && d12 >= d23 then d12 else if d13 >= d23 then d13 else d23
  }

  /** The messages printed while the principal directions are built. */
  function DirectionWarnings(sigma1: Vec3, sigma2: Vec3, sigma3: Vec3, andersonian: bool, parallel: bool): seq<Warning> {
    (if andersonian then [AndersonianRegime] else [])
    + (if parallel then [ParallelAxes] else [])
    + (if MaxAbsDot(sigma1, sigma2, sigma3) > OrthogonalityTolerance
       then [NotOrthogonal(MaxAbsDot(sigma1, sigma2, sigma3))] else [])
  }

  /** Once sigma2 comes from the cross product, the orthogonality warning is
      raised exactly when the given sigma1 and sigma3 are not orthogonal. */
  lemma OrthogonalityWarningIffObliqueInput(m: MathLib, sigma1: Vec3, sigma3: Vec3)
    requires Sound(m)
    requires !Sigma2Direction(m, sigma1, sigma3, false).1
    ensures var sigma2 := Sigma2Direction(m, sigma1, sigma3, false).0;
      (NotOrthogonal(MaxAbsDot(sigma1, sigma2, sigma3)) in DirectionWarnings(sigma1, sigma2, sigma3, false, false))
      <==> Abs(Dot(sigma1, sigma3)) > OrthogonalityTolerance
  {
    Sigma2IsOrthogonal(m, sigma1, sigma3);
  }

  // ---------------------------------------------------------------------
  // Orientation of sigma2

  /** The one of v and -v that does not point upward. */
  function LowerHemisphere(v: Vec3): (w: Vec3)
    ensures w.z <= 0.0
    ensures w == v || w == Neg(v)
  {
    if v.z > 0.0 then Neg(v) else v
  }

  /** The azimuth of the lower-hemisphere direction of v: the trend of v,
      turned by 180 degrees when v points upward. */
  function LowerTrend(m: MathLib, v: Vec3): real {
    var trend := WrapAzimuth(m.atan2Deg(v.x, v.y));
    if v.z > 0.0 then Mod360(trend + 180.0) else trend
  }

  /** Squared length of the horizontal part of v. */
  function HorizontalSquare(v: Vec3): real {
    v.x * v.x + v.y * v.y
  }

  /** Length of the horizontal part of v. */
  function HorizontalLength(m: MathLib, v: Vec3): real {
    m.sqrt(HorizontalSquare(v))
  }

  lemma HorizontalSquareIs(v: Vec3)
    ensures HorizontalSquare(v) == v.x * v.x + v.y * v.y
  {
  }

  lemma FlipKeepsHorizontalSquare(v: Vec3)
    ensures HorizontalSquare(LowerHemisphere(v)) == HorizontalSquare(v)
    ensures Dot(LowerHemisphere(v), LowerHemisphere(v)) == Dot(v, v)
  {
  }

  /** The dip of a lower-hemisphere direction w, vertical when its
      horizontal part vanishes. */
  function Plunge(m: MathLib, w: Vec3): real {
    var h := HorizontalLength(m, w);
    if h > ParallelTolerance then m.atan2Deg(Abs(w.z), h) else 90.0
  }

  /** Azimuth and dip of sigma2 as they enter `principal_axes`: vertical in
      the Andersonian regime or when the horizontal part vanishes, otherwise
      the trend and plunge of the lower-hemisphere direction. */
  function Sigma2Orientation(m: MathLib, v: Vec3, andersonian: bool): Orientation {
    if andersonian then Orientation(0.0, 90.0)
    else if Abs(v.x) < ParallelTolerance && Abs(v.y) < ParallelTolerance then Orientation(0.0, 90.0)
    else Orientation(LowerTrend(m, v), Plunge(m, LowerHemisphere(v)))
  }

  /** The azimuth lies in [0, 360) and the dip in [0, 90]. */
  lemma Sigma2OrientationInRange(m: MathLib, v: Vec3, andersonian: bool)
    requires Sound(m)
    ensures 0.0 <= Sigma2Orientation(m, v, andersonian).azimuth < 360.0
    ensures 0.0 <= Sigma2Orientation(m, v, andersonian).dip <= 90.0
  {
  }

  /** A vertical sigma2 is reported as azimuth 0 and dip 90, which is the
      orientation of the downward vertical. */
  lemma VerticalSigma2Orientation(m: MathLib, v: Vec3, andersonian: bool)
    requires Sound(m)
    requires andersonian || (Abs(v.x) < ParallelTolerance && Abs(v.y) < ParallelTolerance)
    ensures Sigma2Orientation(m, v, andersonian) == Orientation(0.0, 90.0)
    ensures AxisVector(m, 0.0, 90.0) == Down
  {
    AxisVectorMeaning(m, 0.0, 90.0);
  }

  /** The lower trend points along the horizontal part of the
      lower-hemisphere direction w: sin(trend) h = w.x and cos(trend) h = w.y,
      with h the horizontal length. */
  lemma LowerTrendPointsAlong(m: MathLib, v: Vec3)
    requires Sound(m) && 0.0 < HorizontalSquare(v)
    ensures var w := LowerHemisphere(v);
      Scale(HorizontalLength(m, v), Bearing(m, LowerTrend(m, v))) == Vec3(w.x, w.y, 0.0)
  {
    var trend := WrapAzimuth(m.atan2Deg(v.x, v.y));
    HorizontalSquareIs(v);
    TrendOfDirection(m, v.x, v.y);
    ScaledBearing(HorizontalLength(m, v), m.sinDeg(trend), m.cosDeg(trend), v.x, v.y);
    if v.z > 0.0 {
      OppositeBearing(m, trend);
    }
  }

  lemma ScaledBearing(h: real, s: real, c: real, x: real, y: real)
    requires s * h == x && c * h == y
    ensures Scale(h, Vec3(s, c, 0.0)) == Vec3(x, y, 0.0)
    ensures Scale(h, Neg(Vec3(s, c, 0.0))) == Vec3(-x, -y, 0.0)
  {
  }

  /** For a unit vector w, the plunge atan2(|w.z|, h) has sine |w.z| and
      cosine h. */
  lemma PlungeOfUnit(m: MathLib, w: Vec3, h: real)
    requires Sound(m) && Dot(w, w) == 1.0
    requires h == HorizontalLength(m, w) && 0.0 < h
    ensures m.sinDeg(m.atan2Deg(Abs(w.z), h)) == Abs(w.z)
    ensures m.cosDeg(m.atan2Deg(Abs(w.z), h)) == h
  {
    var hh := HorizontalSquare(w);
    SquareNonNeg(w.x, w.x, w.x * w.x);
    SquareNonNeg(w.y, w.y, w.y * w.y);
    SqrtIsRoot(m, hh);
    var a := Abs(w.z);
    var aa := a * a;
    assert aa == w.z * w.z;
    var hs := h * h;
    assert hs == hh;
    var r := hs + aa;
    assert r == 1.0;
    SquarePositive(h, h, hs);
    SquareNonNeg(a, a, aa);
    SqrtOfSquare(m, 1.0);
    assert m.sqrt(r) == 1.0;
  }

  /** Away from the vertical, the azimuth and dip reported for a unit sigma2
      give back, through the axis formula, the lower-hemisphere direction of
      sigma2: the orientation is the inverse of `AxisVector`. */
  lemma Sigma2OrientationRecoversAxis(m: MathLib, v: Vec3)
    requires Sound(m) && Dot(v, v) == 1.0
    requires !(Abs(v.x) < ParallelTolerance && Abs(v.y) < ParallelTolerance)
    requires HorizontalLength(m, v) > ParallelTolerance
    ensures var o := Sigma2Orientation(m, v, false);
      AxisVector(m, o.azimuth, o.dip) == LowerHemisphere(v)
  {
    var w := LowerHemisphere(v);
    var h := HorizontalLength(m, v);
    FlipKeepsHorizontalSquare(v);
    if HorizontalSquare(v) == 0.0 {
      assert false;
    }
    var o := Sigma2Orientation(m, v, false);
    assert o.azimuth == LowerTrend(m, v);
    assert o.dip == m.atan2Deg(Abs(w.z), h);
    LowerTrendPointsAlong(m, v);
    PlungeOfUnit(m, w, h);
    AxisFromTrendAndPlunge(m, LowerTrend(m, v), m.atan2Deg(Abs(w.z), h), h, w);
  }

  lemma AxisFromTrendAndPlunge(m: MathLib, azimuth: real, dip: real, h: real, w: Vec3)
    requires Scale(h, Bearing(m, azimuth)) == Vec3(w.x, w.y, 0.0)
    requires m.sinDeg(dip) == Abs(w.z) && m.cosDeg(dip) == h && w.z <= 0.0
    ensures AxisVector(m, azimuth, dip) == w
  {
  }

  // ---------------------------------------------------------------------
  // The stress tensor

  /** Rot diag(-1, -R, 0) Rot^T, where the columns of Rot are the axes. */
  function PrincipalTensor(ratio: real, sigma1: Vec3, sigma2: Vec3, sigma3: Vec3): Mat3 {
    var rot := ColumnStack(sigma1, sigma2, sigma3);
    MatMul(MatMul(rot, Diag(-1.0, -ratio, 0.0)), Transpose(rot))
  }

  /** The spectral form -sigma1 sigma1^T - R sigma2 sigma2^T: sigma3, whose
      principal stress is 0, does not contribute. */
  function SpectralTensor(ratio: real, sigma1: Vec3, sigma2: Vec3): Mat3 {
    MatAdd(MatScale(-1.0, Outer(sigma1, sigma1)), MatScale(-ratio, Outer(sigma2, sigma2)))
  }

  /** The assembled tensor equals its spectral form, whatever the axes. */
  lemma PrincipalTensorIsSpectral(ratio: real, sigma1: Vec3, sigma2: Vec3, sigma3: Vec3)
    ensures PrincipalTensor(ratio, sigma1, sigma2, sigma3) == SpectralTensor(ratio, sigma1, sigma2)
  {
    ScaledAxes(ratio, sigma1, sigma2, sigma3);
    TransposedAxes(sigma1, sigma2, sigma3);
    SpectralProduct(ratio, sigma1, sigma2, sigma3);
  }

  /** rot diag(-1, -R, 0): the first two columns of rot scaled. */
  lemma ScaledAxes(ratio: real, sigma1: Vec3, sigma2: Vec3, sigma3: Vec3)
    ensures MatMul(ColumnStack(sigma1, sigma2, sigma3), Diag(-1.0, -ratio, 0.0))
         == Mat3(Vec3(-sigma1.x, -ratio * sigma2.x, 0.0),
                 Vec3(-sigma1.y, -ratio * sigma2.y, 0.0),
                 Vec3(-sigma1.z, -ratio * sigma2.z, 0.0))
  {
  }

  lemma TransposedAxes(sigma1: Vec3, sigma2: Vec3, sigma3: Vec3)
    ensures Transpose(ColumnStack(sigma1, sigma2, sigma3)) == Mat3(sigma1, sigma2, sigma3)
  {
  }

  lemma SpectralProduct(ratio: real, sigma1: Vec3, sigma2: Vec3, sigma3: Vec3)
    ensures MatMul(Mat3(Vec3(-sigma1.x, -ratio * sigma2.x, 0.0),
                        Vec3(-sigma1.y, -ratio * sigma2.y, 0.0),
                        Vec3(-sigma1.z, -ratio * sigma2.z, 0.0)),
                   Mat3(sigma1, sigma2, sigma3))
         == SpectralTensor(ratio, sigma1, sigma2)
  {
    SpectralTensorRows(ratio, sigma1, sigma2);
    SpectralRow(ratio, sigma1.x, sigma2.x, sigma1, sigma2, sigma3);
    SpectralRow(ratio, sigma1.y, sigma2.y, sigma1, sigma2, sigma3);
    SpectralRow(ratio, sigma1.z, sigma2.z, sigma1, sigma2, sigma3);
    MatMulByRows(Mat3(Vec3(-sigma1.x, -ratio * sigma2.x, 0.0),
                      Vec3(-sigma1.y, -ratio * sigma2.y, 0.0),
                      Vec3(-sigma1.z, -ratio * sigma2.z, 0.0)),
                 Mat3(sigma1, sigma2, sigma3),
                 Mat3(Add(Scale(-1.0, Scale(sigma1.x, sigma1)), Scale(-ratio, Scale(sigma2.x, sigma2))),
                      Add(Scale(-1.0, Scale(sigma1.y, sigma1)), Scale(-ratio, Scale(sigma2.y, sigma2))),
                      Add(Scale(-1.0, Scale(sigma1.z, sigma1)), Scale(-ratio, Scale(sigma2.z, sigma2)))));
  }

  lemma SpectralTensorRows(ratio: real, sigma1: Vec3, sigma2: Vec3)
    ensures SpectralTensor(ratio, sigma1, sigma2)
         == Mat3(Add(Scale(-1.0, Scale(sigma1.x, sigma1)), Scale(-ratio, Scale(sigma2.x, sigma2))),
                 Add(Scale(-1.0, Scale(sigma1.y, sigma1)), Scale(-ratio, Scale(sigma2.y, sigma2))),
                 Add(Scale(-1.0, Scale(sigma1.z, sigma1)), Scale(-ratio, Scale(sigma2.z, sigma2))))
  {
  }

  /** One row of the product: (-x, -R y, 0) against the columns of the
      matrix whose rows are the axes. */
  lemma SpectralRow(ratio: real, x: real, y: real, sigma1: Vec3, sigma2: Vec3, sigma3: Vec3)
    ensures var l := Vec3(-x, -ratio * y, 0.0);
      var t := Mat3(sigma1, sigma2, sigma3);
      Vec3(Dot(l, Col(t, 0)), Dot(l, Col(t, 1)), Dot(l, Col(t, 2)))
      == Add(Scale(-1.0, Scale(x, sigma1)), Scale(-ratio, Scale(y, sigma2)))
  {
    var t := Mat3(sigma1, sigma2, sigma3);
    assert Col(t, 0) == Vec3(sigma1.x, sigma2.x, sigma3.x);
    assert Col(t, 1) == Vec3(sigma1.y, sigma2.y, sigma3.y);
    assert Col(t, 2) == Vec3(sigma1.z, sigma2.z, sigma3.z);
    SpectralEntry(ratio, x, y, sigma1.x, sigma2.x, sigma3.x);
    SpectralEntry(ratio, x, y, sigma1.y, sigma2.y, sigma3.y);
    SpectralEntry(ratio, x, y, sigma1.z, sigma2.z, sigma3.z);
  }

  lemma SpectralEntry(ratio: real, x: real, y: real, a: real, b: real, c: real)
    ensures (-x) * a + (-ratio * y) * b + 0.0 * c == -1.0 * (x * a) + -ratio * (y * b)
  {
  }

  /** The tensor is symmetric, and its trace is -|sigma1|^2 - R |sigma2|^2,
      which is -1 - R for unit axes. */
  lemma PrincipalTensorSymmetricWithTrace(ratio: real, sigma1: Vec3, sigma2: Vec3, sigma3: Vec3)
    ensures IsSymmetric(PrincipalTensor(ratio, sigma1, sigma2, sigma3))
    ensures Trace(PrincipalTensor(ratio, sigma1, sigma2, sigma3)) == -Dot(sigma1, sigma1) - ratio * Dot(sigma2, sigma2)
    ensures Dot(sigma1, sigma1) == 1.0 && Dot(sigma2, sigma2) == 1.0 ==>
      Trace(PrincipalTensor(ratio, sigma1, sigma2, sigma3)) == -1.0 - ratio
  {
    PrincipalTensorIsSpectral(ratio, sigma1, sigma2, sigma3);
    SpectralTrace(ratio, sigma1, sigma2);
  }

  lemma TimesOne(r: real, b: real)
    requires b == 1.0
    ensures r * b == r
  {
  }

  lemma SpectralTrace(ratio: real, sigma1: Vec3, sigma2: Vec3)
    ensures IsSymmetric(SpectralTensor(ratio, sigma1, sigma2))
    ensures Trace(SpectralTensor(ratio, sigma1, sigma2)) == -Dot(sigma1, sigma1) - ratio * Dot(sigma2, sigma2)
    ensures Dot(sigma1, sigma1) == 1.0 && Dot(sigma2, sigma2) == 1.0 ==>
      Trace(SpectralTensor(ratio, sigma1, sigma2)) == -1.0 - ratio
  {
    var t := Trace(SpectralTensor(ratio, sigma1, sigma2));
    assert t == -Dot(sigma1, sigma1) - ratio * Dot(sigma2, sigma2);
    if Dot(sigma1, sigma1) == 1.0 && Dot(sigma2, sigma2) == 1.0 {
      TimesOne(ratio, Dot(sigma2, sigma2));
    }
  }

  predicate Orthonormal(a: Vec3, b: Vec3, c: Vec3) {
    && Dot(a, a) == 1.0 && Dot(b, b) == 1.0 && Dot(c, c) == 1.0
    && Dot(a, b) == 0.0 && Dot(a, c) == 0.0 && Dot(b, c) == 0.0
  }

  /** The tensor maps v to -(sigma1.v) sigma1 - R (sigma2.v) sigma2. */
  lemma SpectralAction(ratio: real, sigma1: Vec3, sigma2: Vec3, v: Vec3)
    ensures MatVec(SpectralTensor(ratio, sigma1, sigma2), v)
      == Add(Scale(-1.0, Scale(Dot(sigma1, v), sigma1)), Scale(-ratio, Scale(Dot(sigma2, v), sigma2)))
  {
    MatVecAdd(MatScale(-1.0, Outer(sigma1, sigma1)), MatScale(-ratio, Outer(sigma2, sigma2)), v);
    MatVecScale(-1.0, Outer(sigma1, sigma1), v);
    MatVecScale(-ratio, Outer(sigma2, sigma2), v);
    OuterAction(sigma1, sigma1, v);
    OuterAction(sigma2, sigma2, v);
  }

  lemma ScaleByOne(k: real, v: Vec3)
    requires k == 1.0
    ensures Scale(k, v) == v
  {
  }

  lemma ScaleByZero(a: real, k: real, v: Vec3)
    requires k == 0.0
    ensures Scale(a, Scale(k, v)) == Zero
  {
  }

  lemma AddZero(v: Vec3)
    ensures Add(Zero, v) == v && Add(v, Zero) == v
  {
  }

  /** For orthonormal axes the principal stresses -1, -R and 0 are the
      eigenvalues of the tensor, with the axes as eigenvectors. */
  lemma PrincipalAxesAreEigenvectors(ratio: real, sigma1: Vec3, sigma2: Vec3, sigma3: Vec3)
    requires Orthonormal(sigma1, sigma2, sigma3)
    ensures MatVec(PrincipalTensor(ratio, sigma1, sigma2, sigma3), sigma1) == Scale(-1.0, sigma1)
    ensures MatVec(PrincipalTensor(ratio, sigma1, sigma2, sigma3), sigma2) == Scale(-ratio, sigma2)
    ensures MatVec(PrincipalTensor(ratio, sigma1, sigma2, sigma3), sigma3) == Zero
  {
    PrincipalTensorIsSpectral(ratio, sigma1, sigma2, sigma3);
    SpectralEigenvectors(ratio, sigma1, sigma2, sigma3);
  }

  lemma SpectralEigenvectors(ratio: real, sigma1: Vec3, sigma2: Vec3, sigma3: Vec3)
    requires Orthonormal(sigma1, sigma2, sigma3)
    ensures MatVec(SpectralTensor(ratio, sigma1, sigma2), sigma1) == Scale(-1.0, sigma1)
    ensures MatVec(SpectralTensor(ratio, sigma1, sigma2), sigma2) == Scale(-ratio, sigma2)
    ensures MatVec(SpectralTensor(ratio, sigma1, sigma2), sigma3) == Zero
  {
    FirstAxisEigen(ratio, sigma1, sigma2);
    SecondAxisEigen(ratio, sigma1, sigma2);
    ThirdAxisEigen(ratio, sigma1, sigma2, sigma3);
  }

  lemma FirstAxisEigen(ratio: real, sigma1: Vec3, sigma2: Vec3)
    requires Dot(sigma1, sigma1) == 1.0 && Dot(sigma1, sigma2) == 0.0
    ensures MatVec(SpectralTensor(ratio, sigma1, sigma2), sigma1) == Scale(-1.0, sigma1)
  {
    assert Dot(sigma2, sigma1) == 0.0;
    SpectralAction(ratio, sigma1, sigma2, sigma1);
    ScaleByOne(Dot(sigma1, sigma1), sigma1);
    ScaleByZero(-ratio, Dot(sigma2, sigma1), sigma2);
    AddZero(Scale(-1.0, sigma1));
  }

  lemma SecondAxisEigen(ratio: real, sigma1: Vec3, sigma2: Vec3)
    requires Dot(sigma2, sigma2) == 1.0 && Dot(sigma1, sigma2) == 0.0
    ensures MatVec(SpectralTensor(ratio, sigma1, sigma2), sigma2) == Scale(-ratio, sigma2)
  {
    SpectralAction(ratio, sigma1, sigma2, sigma2);
    ScaleByOne(Dot(sigma2, sigma2), sigma2);
    ScaleByZero(-1.0, Dot(sigma1, sigma2), sigma1);
    AddZero(Scale(-ratio, sigma2));
  }

  lemma ThirdAxisEigen(ratio: real, sigma1: Vec3, sigma2: Vec3, sigma3: Vec3)
    requires Dot(sigma1, sigma3) == 0.0 && Dot(sigma2, sigma3) == 0.0
    ensures MatVec(SpectralTensor(ratio, sigma1, sigma2), sigma3) == Zero
  {
    SpectralAction(ratio, sigma1, sigma2, sigma3);
    ScaleByZero(-1.0, Dot(sigma1, sigma3), sigma1);
    ScaleByZero(-ratio, Dot(sigma2, sigma3), sigma2);
    AddZero(Zero);
  }
}
