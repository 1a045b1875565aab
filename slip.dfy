/** Slip on a fault plane: `calculate_rake_and_movement` takes the plane
    normal, the shear traction on the plane and the plane's strike azimuth,
    and returns the acute rake of the striation, the sense-of-movement code
    and the azimuth the rake is measured from. */
module SlipClassification {
  import opened Vectors
  import opened Numerics

  /** Below this length the striation has no component on the plane. */
  const ProjectionTolerance: real := 0.0000000001

  /** Components of the striation (vertical, or along strike) up to this
      size do not count as movement. */
  const DeadZone: real := 0.1

  /** The sense-of-movement letters: inverse (thrust), normal, left- and
      right-lateral. */
  datatype MovementComponent = Inverse | Normal | LeftLateral | RightLateral

  /** Rake (degrees), movement code such as "N+RL", and reference azimuth. */
  datatype Slip = Slip(rake: real, movement: string, referenceAzimuth: real)

  function Code(c: MovementComponent): string {
    match c
    case Inverse => "I"
    case Normal => "N"
    case LeftLateral => "LL"
    case RightLateral => "RL"
  }

  // ---------------------------------------------------------------------
  // The movement code

  /** 'I' when the striation climbs, 'N' when it descends, nothing inside
      the dead zone. */
  function VerticalSense(z: real): seq<MovementComponent> {
    if z > DeadZone then [Inverse] else if z < -DeadZone then [Normal] else []
  }

  /** 'LL' or 'RL' by the sign of the along-strike component, nothing inside
      the dead zone. */
  function LateralSense(lateral: real): seq<MovementComponent> {
    if Abs(lateral) > DeadZone then (if lateral > 0.0 then [LeftLateral] else [RightLateral]) else []
  }

  /** The components in the order they are appended. */
  function MovementComponents(striation: Vec3, azimuthVector: Vec3): seq<MovementComponent> {
    VerticalSense(striation.z) + LateralSense(Dot(azimuthVector, striation))
  }

  /** Python's `'+'.join` of the codes. */
  function JoinCodes(cs: seq<MovementComponent>): string
    decreases |cs|
  {
    if |cs| == 0 then ""
    else if |cs| == 1 then Code(cs[0])
    else Code(cs[0]) + "+" + JoinCodes(cs[1..])
  }

  /** "N" when no component applies, the joined codes otherwise. */
  function MovementCode(cs: seq<MovementComponent>): string {
    if |cs| == 0 then "N" else JoinCodes(cs)
  }

  /** Each component is present exactly when its threshold is crossed; there
      is at most one vertical and one lateral component, vertical first. */
  lemma MovementComponentsIff(striation: Vec3, azimuthVector: Vec3)
    ensures var cs := MovementComponents(striation, azimuthVector);
      var lateral := Dot(azimuthVector, striation);
      && (Inverse in cs <==> striation.z > DeadZone)
      && (Normal in cs <==> striation.z < -DeadZone)
      && (LeftLateral in cs <==> lateral > DeadZone)
      && (RightLateral in cs <==> lateral < -DeadZone)
      && |cs| <= 2
      && (|cs| == 2 ==> cs[0] in {Inverse, Normal} && cs[1] in {LeftLateral, RightLateral})
  {
  }

  /** `str.split('+')` */
  function SplitPlus(s: string): (parts: seq<string>)
    ensures |parts| >= 1
    decreases |s|
  {
    if |s| == 0 then [""]
    else if s[0] == '+' then [""] + SplitPlus(s[1..])
    else
      var rest := SplitPlus(s[1..]);
      [[s[0]] + rest[0]] + rest[1..]
  }

  function Codes(cs: seq<MovementComponent>): seq<string>
    decreases |cs|
  {
    if |cs| == 0 then [] else [Code(cs[0])] + Codes(cs[1..])
  }

  /** The code of a single component. */
  function Decode(code: string): (r: seq<MovementComponent>)
    ensures |r| <= 1
  {
    if code == "I" then [Inverse]
    else if code == "N" then [Normal]
    else if code == "LL" then [LeftLateral]
    else if code == "RL" then [RightLateral]
    else []
  }

  function DecodeAll(codes: seq<string>): seq<MovementComponent>
    decreases |codes|
  {
    if |codes| == 0 then [] else Decode(codes[0]) + DecodeAll(codes[1..])
  }

  /** Reading a movement code back: split at '+', decode each part. */
  function ParseMovement(code: string): seq<MovementComponent> {
    DecodeAll(SplitPlus(code))
  }

  /** A word without '+' stays in one piece and glues onto the first part
      of what follows it. */
  lemma {:induction false} SplitWord(w: string, t: string)
    requires '+' !in w
    ensures SplitPlus(w + t) == [w + SplitPlus(t)[0]] + SplitPlus(t)[1..]
    decreases |w|
  {
    if |w| > 0 {
      assert (w + t)[0] == w[0];
      assert (w + t)[1..] == w[1..] + t;
      SplitWord(w[1..], t);
      assert [w[0]] + (w[1..] + SplitPlus(t)[0]) == w + SplitPlus(t)[0];
    } else {
      assert w + t == t;
      assert w + SplitPlus(t)[0] == SplitPlus(t)[0];
    }
  }

  /** Splitting the joined codes gives back the codes. */
  lemma {:induction false} SplitJoinedCodes(cs: seq<MovementComponent>)
    requires |cs| >= 1
    ensures SplitPlus(JoinCodes(cs)) == Codes(cs)
    decreases |cs|
  {
    var w := Code(cs[0]);
    assert '+' !in w;
    if |cs| == 1 {
      SplitWord(w, "");
      assert w + "" == w;
    } else {
      var t := "+" + JoinCodes(cs[1..]);
      assert JoinCodes(cs) == w + t;
      SplitWord(w, t);
      assert t[0] == '+' && t[1..] == JoinCodes(cs[1..]);
      SplitJoinedCodes(cs[1..]);
      assert w + "" == w;
    }
  }

  lemma {:induction false} DecodeCodes(cs: seq<MovementComponent>)
    ensures DecodeAll(Codes(cs)) == cs
    decreases |cs|
  {
    if |cs| > 0 {
      assert Codes(cs)[1..] == Codes(cs[1..]);
      DecodeCodes(cs[1..]);
    }
  }

  /** The movement code is read back as the components it was built from;
      an empty list, written "N", reads back as a pure normal movement, so
      "no movement" and "normal" share a code. */
  lemma MovementCodeRoundTrip(cs: seq<MovementComponent>)
    ensures ParseMovement(MovementCode(cs)) == if |cs| == 0 then [Normal] else cs
  {
    if |cs| == 0 {
      assert SplitPlus("N") == ["N"] by {
        SplitWord("N", "");
        assert "N" + "" == "N";
      }
      assert DecodeAll(["N"]) == [Normal] + DecodeAll([]);
    } else {
      SplitJoinedCodes(cs);
      DecodeCodes(cs);
    }
  }

  // ---------------------------------------------------------------------
  // The rake

  /** The acute angle between the horizontal direction at an azimuth and a
      direction on the plane. */
  function AcuteRake(m: MathLib, azimuth: real, direction: Vec3): real {
    m.acosDeg(Abs(Dot(Bearing(m, azimuth), direction)))
  }

  /** The rake against the azimuth and against its opposite, keeping the
      azimuth unless the opposite gives a strictly smaller rake. */
  function RakeAndReference(m: MathLib, azimuth: real, direction: Vec3): (real, real) {
    var rake := AcuteRake(m, azimuth, direction);
    var opposite := Mod360(azimuth + 180.0);
    var rakeOpposite := AcuteRake(m, opposite, direction);
    if rakeOpposite < rake then (rakeOpposite, opposite) else (rake, azimuth)
  }

  /** The striation with its component along the normal removed. */
  function OnPlane(striation: Vec3, normal: Vec3): Vec3 {
    Sub(striation, Scale(Dot(striation, normal), normal))
  }

  function CalculateRakeAndMovement(m: MathLib, normal: Vec3, shear: Vec3, azimuth: real): (r: Slip)
    ensures r.referenceAzimuth == azimuth || r.referenceAzimuth == Mod360(azimuth + 180.0)
  {
    var shearNorm := Norm(m, shear);
    if shearNorm == 0.0 then Slip(0.0, "N", azimuth)
    else
      var striation := Div(shear, shearNorm);
      var azimuthVector := Bearing(m, azimuth);
      var onPlane := OnPlane(striation, normal);
      var onPlaneNorm := Norm(m, onPlane);
      var (rake, reference) :=
        if onPlaneNorm > ProjectionTolerance then RakeAndReference(m, azimuth, Div(onPlane, onPlaneNorm))
        else (0.0, azimuth);
      Slip(rake, MovementCode(MovementComponents(striation, azimuthVector)), reference)
  }

  /** Without shear there is no slip: rake 0, code "N", and the plane's own
      azimuth as reference. Under exact arithmetic this is exactly the case
      of a zero shear vector. */
  lemma ZeroShearNoSlip(m: MathLib, normal: Vec3, shear: Vec3, azimuth: real)
    requires Sound(m)
    ensures shear == Zero <==> Norm(m, shear) == 0.0
    ensures shear == Zero ==> CalculateRakeAndMovement(m, normal, shear, azimuth) == Slip(0.0, "N", azimuth)
  {
    NormZeroIff(m, shear);
  }

  /** With shear, the movement code reads back as the senses of the unit
      striation s: inverse when it climbs beyond the dead zone, normal when
      it descends beyond it or when neither component leaves it, and left-
      or right-lateral by the sign of its component along the strike. */
  lemma MovementOfShear(m: MathLib, normal: Vec3, shear: Vec3, azimuth: real)
    requires Norm(m, shear) != 0.0
    ensures var s := Div(shear, Norm(m, shear));
      var lateral := Dot(Bearing(m, azimuth), s);
      var senses := ParseMovement(CalculateRakeAndMovement(m, normal, shear, azimuth).movement);
      && (Inverse in senses <==> s.z > DeadZone)
      && (Normal in senses <==> s.z < -DeadZone || (Abs(s.z) <= DeadZone && Abs(lateral) <= DeadZone))
      && (LeftLateral in senses <==> lateral > DeadZone)
      && (RightLateral in senses <==> lateral < -DeadZone)
      && 1 <= |senses| <= 2
  {
    var s := Div(shear, Norm(m, shear));
    var cs := MovementComponents(s, Bearing(m, azimuth));
    MovementComponentsIff(s, Bearing(m, azimuth));
    MovementCodeRoundTrip(cs);
  }

  /** The rake is acute: it lies in [0, 90]. */
  lemma RakeIsAcute(m: MathLib, normal: Vec3, shear: Vec3, azimuth: real)
    requires Sound(m)
    ensures 0.0 <= CalculateRakeAndMovement(m, normal, shear, azimuth).rake <= 90.0
  {
    var shearNorm := Norm(m, shear);
    if shearNorm != 0.0 {
      var striation := Div(shear, shearNorm);
      var onPlane := OnPlane(striation, normal);
      var onPlaneNorm := Norm(m, onPlane);
      if onPlaneNorm > ProjectionTolerance {
        var direction := Div(onPlane, onPlaneNorm);
        NormalizedIsUnit(m, onPlane);
        AcuteRakeRange(m, azimuth, direction);
        AcuteRakeRange(m, Mod360(azimuth + 180.0), direction);
      }
    }
  }

  /** For a unit direction the acute rake lies in [0, 90] and its cosine is
      the absolute cosine of the angle between the two directions. */
  lemma AcuteRakeRange(m: MathLib, azimuth: real, direction: Vec3)
    requires Sound(m) && Dot(direction, direction) == 1.0
    ensures 0.0 <= AcuteRake(m, azimuth, direction) <= 90.0
    ensures m.cosDeg(AcuteRake(m, azimuth, direction)) == Abs(Dot(Bearing(m, azimuth), direction))
  {
    BearingIsUnit(m, azimuth);
    UnitDotBounded(Bearing(m, azimuth), direction);
  }

  /** A tie keeps the plane's own azimuth as the reference. */
  lemma TieKeepsAzimuth(m: MathLib, azimuth: real, direction: Vec3)
    requires AcuteRake(m, Mod360(azimuth + 180.0), direction) == AcuteRake(m, azimuth, direction)
    ensures RakeAndReference(m, azimuth, direction) == (AcuteRake(m, azimuth, direction), azimuth)
  {
  }

  /** The opposite azimuth gives the same acute rake, since its direction
      is the negated one; so under exact trigonometry the opposite reference
      is never chosen. */
  lemma OppositeNeverWins(m: MathLib, normal: Vec3, shear: Vec3, azimuth: real)
    requires Sound(m)
    ensures CalculateRakeAndMovement(m, normal, shear, azimuth).referenceAzimuth == azimuth
  {
    var shearNorm := Norm(m, shear);
    if shearNorm != 0.0 {
      var onPlane := OnPlane(Div(shear, shearNorm), normal);
      var onPlaneNorm := Norm(m, onPlane);
      if onPlaneNorm > ProjectionTolerance {
        OppositeRakeEqual(m, azimuth, Div(onPlane, onPlaneNorm));
      }
    }
  }

  lemma OppositeRakeEqual(m: MathLib, azimuth: real, direction: Vec3)
    requires Sound(m)
    ensures AcuteRake(m, Mod360(azimuth + 180.0), direction) == AcuteRake(m, azimuth, direction)
  {
    OppositeBearing(m, azimuth);
    assert Dot(Neg(Bearing(m, azimuth)), direction) == -Dot(Bearing(m, azimuth), direction);
  }

  /** When the striation has a component on the plane, the cosine of the
      rake is the absolute cosine of the angle between the strike direction
      and the striation's unit projection on the plane. */
  lemma RakeIsAngleToStrike(m: MathLib, normal: Vec3, shear: Vec3, azimuth: real)
    requires Sound(m) && Norm(m, shear) != 0.0
    requires Norm(m, OnPlane(Div(shear, Norm(m, shear)), normal)) > ProjectionTolerance
    ensures var onPlane := OnPlane(Div(shear, Norm(m, shear)), normal);
      var direction := Div(onPlane, Norm(m, onPlane));
      m.cosDeg(CalculateRakeAndMovement(m, normal, shear, azimuth).rake) == Abs(Dot(Bearing(m, azimuth), direction))
  {
    var onPlane := OnPlane(Div(shear, Norm(m, shear)), normal);
    var direction := Div(onPlane, Norm(m, onPlane));
    NormalizedIsUnit(m, onPlane);
    OppositeRakeEqual(m, azimuth, direction);
    AcuteRakeRange(m, azimuth, direction);
  }

  /** A striation (nearly) along the normal has no direction on the plane:
      the rake is 0, measured from the plane's azimuth. */
  lemma NoProjectionZeroRake(m: MathLib, normal: Vec3, shear: Vec3, azimuth: real)
    requires Norm(m, shear) != 0.0
    requires Norm(m, OnPlane(Div(shear, Norm(m, shear)), normal)) <= ProjectionTolerance
    ensures CalculateRakeAndMovement(m, normal, shear, azimuth).rake == 0.0
    ensures CalculateRakeAndMovement(m, normal, shear, azimuth).referenceAzimuth == azimuth
  {
  }
}
