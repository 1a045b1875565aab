/** The `StressTensor` object of the fault-slip generator: its constructor
    fills in the principal axes, their orientations, the printed messages
    and the tensor step by step, and `GetStressOnPlane` resolves the traction
    on a plane into its normal and shear parts. */
module StressState {
  import opened Vectors
  import opened Numerics
  import opened Wrappers
  import opened StressAxes

  // ---------------------------------------------------------------------
  // Traction on a plane

  /** The four values `get_stress_on_plane` returns. */
  datatype PlaneStress = PlaneStress(total: Vec3, normalStress: real, shear: Vec3, shearMagnitude: real)

  /** The traction S n on the plane with normal n, its normal component
      n.(S n), the shear part left after removing the normal component, and
      the length of the shear part. */
  function StressOnPlane(m: MathLib, tensor: Mat3, normal: Vec3): (r: PlaneStress)
    ensures r.total == MatVec(tensor, normal)
    ensures Add(Scale(r.normalStress, normal), r.shear) == r.total
    ensures r.shearMagnitude == Norm(m, r.shear)
  {
    var total := MatVec(tensor, normal);
    var normalStress := Dot(normal, total);
    var shear := Sub(total, Scale(normalStress, normal));
    PlaneStress(total, normalStress, shear, Norm(m, shear))
  }

  /** For a unit normal the shear part lies in the plane, the normal stress
      is the component of the traction along the normal, and the traction
      splits by Pythagoras into its normal and shear parts. */
  lemma ShearLiesInPlane(m: MathLib, tensor: Mat3, normal: Vec3)
    requires Dot(normal, normal) == 1.0
    ensures var r := StressOnPlane(m, tensor, normal);
      && Dot(r.shear, normal) == 0.0
      && r.normalStress == Dot(r.total, normal)
      && Dot(r.total, r.total) == r.normalStress * r.normalStress + Dot(r.shear, r.shear)
  {
    var r := StressOnPlane(m, tensor, normal);
    var k := r.normalStress;
    var p := Scale(k, normal);
    assert k == Dot(normal, r.total);
    DotScale(k, normal, normal);
    TimesOne(k, Dot(normal, normal));
    assert Dot(p, normal) == k;
    assert Dot(r.shear, normal) == Dot(r.total, normal) - Dot(p, normal);
    DotScale(k, normal, r.shear);
    assert Dot(p, r.shear) == 0.0;
    assert Dot(p, p) == k * k by {
      DotScale(k, normal, p);
      assert Dot(normal, p) == k;
    }
    OrthogonalSum(p, r.shear);
  }

  lemma OrthogonalSum(p: Vec3, q: Vec3)
    requires Dot(p, q) == 0.0
    ensures Dot(Add(p, q), Add(p, q)) == Dot(p, p) + Dot(q, q)
  {
  }

  /** The shear magnitude is a length: it is non-negative, its square is
      the squared length of the shear vector, and it vanishes exactly when
      the shear vector does. */
  lemma ShearMagnitudeIsLength(m: MathLib, tensor: Mat3, normal: Vec3)
    requires Sound(m)
    ensures var r := StressOnPlane(m, tensor, normal);
      && 0.0 <= r.shearMagnitude
      && r.shearMagnitude * r.shearMagnitude == Dot(r.shear, r.shear)
      && (r.shearMagnitude == 0.0 <==> r.shear == Zero)
  {
    var r := StressOnPlane(m, tensor, normal);
    SquareNonNegative(r.shear);
    SqrtIsRoot(m, Dot(r.shear, r.shear));
    NormZeroIff(m, r.shear);
  }

  /** A plane whose unit normal is an eigenvector of the tensor carries no
      shear, and its normal stress is the eigenvalue. */
  lemma EigenPlaneHasNoShear(m: MathLib, tensor: Mat3, normal: Vec3, eigenvalue: real)
    requires Dot(normal, normal) == 1.0
    requires MatVec(tensor, normal) == Scale(eigenvalue, normal)
    ensures StressOnPlane(m, tensor, normal).normalStress == eigenvalue
    ensures StressOnPlane(m, tensor, normal).shear == Zero
  {
    var r := StressOnPlane(m, tensor, normal);
    DotScale(eigenvalue, normal, normal);
    TimesOne(eigenvalue, Dot(normal, normal));
    assert r.normalStress == Dot(Scale(eigenvalue, normal), normal);
  }

  /** For orthonormal axes, the planes normal to sigma1, sigma2 and sigma3
      carry only the principal stresses -1, -R and 0, and no shear. */
  lemma PrincipalPlanesHaveNoShear(m: MathLib, ratio: real, sigma1: Vec3, sigma2: Vec3, sigma3: Vec3)
    requires Orthonormal(sigma1, sigma2, sigma3)
    ensures var tensor := PrincipalTensor(ratio, sigma1, sigma2, sigma3);
      && StressOnPlane(m, tensor, sigma1) == PlaneStress(Scale(-1.0, sigma1), -1.0, Zero, Norm(m, Zero))
      && StressOnPlane(m, tensor, sigma2) == PlaneStress(Scale(-ratio, sigma2), -ratio, Zero, Norm(m, Zero))
      && StressOnPlane(m, tensor, sigma3) == PlaneStress(Scale(0.0, sigma3), 0.0, Zero, Norm(m, Zero))
  {
    var tensor := PrincipalTensor(ratio, sigma1, sigma2, sigma3);
    PrincipalAxesAreEigenvectors(ratio, sigma1, sigma2, sigma3);
    EigenPlaneHasNoShear(m, tensor, sigma1, -1.0);
    EigenPlaneHasNoShear(m, tensor, sigma2, -ratio);
    assert Scale(0.0, sigma3) == Zero;
    EigenPlaneHasNoShear(m, tensor, sigma3, 0.0);
  }

  // ---------------------------------------------------------------------
  // Orthonormality of the constructed axes

  /** When the given sigma1 and sigma3 are orthogonal (and, in the
      Andersonian regime, horizontal), the constructed sigma2 does not need
      the parallel fallback and the three axes are orthonormal. */
  lemma ConstructedAxesAreOrthonormal(m: MathLib, azimuth1: real, dip1: real, azimuth3: real, dip3: real, andersonian: bool)
    requires Sound(m)
    requires Dot(AxisVector(m, azimuth1, dip1), AxisVector(m, azimuth3, dip3)) == 0.0
    requires andersonian ==> dip1 == 0.0 && dip3 == 0.0
    ensures var sigma1 := AxisVector(m, azimuth1, dip1);
      var sigma3 := AxisVector(m, azimuth3, dip3);
      var (sigma2, parallel) := Sigma2Direction(m, sigma1, sigma3, andersonian);
      !parallel && Orthonormal(sigma1, sigma2, sigma3)
  {
    var sigma1 := AxisVector(m, azimuth1, dip1);
    var sigma3 := AxisVector(m, azimuth3, dip3);
    AxisVectorMeaning(m, azimuth1, dip1);
    AxisVectorMeaning(m, azimuth3, dip3);
    if andersonian {
      assert sigma1.z == 0.0 && sigma3.z == 0.0;
    } else {
      var c := Cross(sigma3, sigma1);
      UnitCross(sigma3, sigma1);
      UnitNorm(m, c);
      Sigma2IsOrthogonal(m, sigma1, sigma3);
    }
  }

  // ---------------------------------------------------------------------
  // The object

  class StressTensor {
    const math: MathLib
    const sigma1Azimuth: real
    const sigma1Dip: real
    const sigma3Azimuth: real
    const sigma3Dip: real
    const isAndersonian: bool
    const ratio: real

    var sigma1Vector: Vec3
    var sigma2Vector: Vec3
    var sigma3Vector: Vec3
    /** `sigma2_azimuth` and `sigma2_dip` exist only in the Andersonian regime. */
    var sigma2Azimuth: Option<real>
    var sigma2Dip: Option<real>
    /** The messages printed so far. */
    var messages: seq<Warning>
    var principalAxes: map<Axis, AxisRecord>
    var stressTensor: Mat3

    /** `principal_axes` holds sigma1 and sigma3 with their given azimuth
        and dip, and sigma2 (as computed, not flipped) with the orientation
        of its lower-hemisphere direction. */
    ghost predicate AxesRecorded()
      reads this
    {
      var o := Sigma2Orientation(math, sigma2Vector, isAndersonian);
      principalAxes == map[
        Sigma1 := AxisRecord(sigma1Vector, sigma1Azimuth, sigma1Dip),
        Sigma3 := AxisRecord(sigma3Vector, sigma3Azimuth, sigma3Dip),
        Sigma2 := AxisRecord(sigma2Vector, o.azimuth, o.dip)]
    }

    /** The state every constructed object is in. */
    ghost predicate Valid()
      reads this
    {
      && sigma1Vector == AxisVector(math, sigma1Azimuth, sigma1Dip)
      && sigma3Vector == AxisVector(math, sigma3Azimuth, sigma3Dip)
      && sigma2Vector == Sigma2Direction(math, sigma1Vector, sigma3Vector, isAndersonian).0
      && AxesRecorded()
      && stressTensor == PrincipalTensor(ratio, sigma1Vector, sigma2Vector, sigma3Vector)
    }

    constructor (m: MathLib, sigma1Azimuth: real, sigma1Dip: real, sigma3Azimuth: real, sigma3Dip: real,
                 isAndersonian: bool, ratio: real)
      ensures this.math == m && this.ratio == ratio && this.isAndersonian == isAndersonian
      ensures this.sigma1Azimuth == sigma1Azimuth && this.sigma1Dip == sigma1Dip
      ensures this.sigma3Azimuth == sigma3Azimuth && this.sigma3Dip == sigma3Dip
      ensures Valid()
      ensures sigma2Azimuth == (if isAndersonian then Some(0.0) else None)
      ensures sigma2Dip == (if isAndersonian then Some(90.0) else None)
      ensures messages == DirectionWarnings(sigma1Vector, sigma2Vector, sigma3Vector, isAndersonian,
                                            Sigma2Direction(m, sigma1Vector, sigma3Vector, isAndersonian).1)
      ensures IsSymmetric(stressTensor)
      ensures Sound(m) && Dot(sigma1Vector, sigma3Vector) == 0.0 && (isAndersonian ==> sigma1Dip == 0.0 && sigma3Dip == 0.0)
        ==> && Orthonormal(sigma1Vector, sigma2Vector, sigma3Vector)
            && messages == (if isAndersonian then [AndersonianRegime] else [])
            && Trace(stressTensor) == -1.0 - ratio
    {
      this.math := m;
      this.sigma1Azimuth := sigma1Azimuth;
      this.sigma1Dip := sigma1Dip;
      this.sigma3Azimuth := sigma3Azimuth;
      this.sigma3Dip := sigma3Dip;
      this.isAndersonian := isAndersonian;
      this.ratio := ratio;
      sigma2Azimuth := None;
      sigma2Dip := None;
      messages := [];
      new;
      CalculatePrincipalDirections();
      CalculateStressTensor();
      if Sound(m) && Dot(sigma1Vector, sigma3Vector) == 0.0 && (isAndersonian ==> sigma1Dip == 0.0 && sigma3Dip == 0.0) {
        ConstructedAxesAreOrthonormal(m, sigma1Azimuth, sigma1Dip, sigma3Azimuth, sigma3Dip, isAndersonian);
        PrincipalTensorSymmetricWithTrace(ratio, sigma1Vector, sigma2Vector, sigma3Vector);
      }
    }

    /** Builds the three axis vectors, records the messages, and then the
        orientations of the axes. */
    method CalculatePrincipalDirections()
      modifies this
      ensures sigma1Vector == AxisVector(math, sigma1Azimuth, sigma1Dip)
      ensures sigma3Vector == AxisVector(math, sigma3Azimuth, sigma3Dip)
      ensures sigma2Vector == Sigma2Direction(math, sigma1Vector, sigma3Vector, isAndersonian).0
      ensures sigma2Azimuth == (if isAndersonian then Some(0.0) else old(sigma2Azimuth))
      ensures sigma2Dip == (if isAndersonian then Some(90.0) else old(sigma2Dip))
      ensures messages == old(messages) + DirectionWarnings(sigma1Vector, sigma2Vector, sigma3Vector, isAndersonian,
                                                            Sigma2Direction(math, sigma1Vector, sigma3Vector, isAndersonian).1)
      ensures AxesRecorded()
      ensures stressTensor == old(stressTensor)
    {
      sigma1Vector := AxisVector(math, sigma1Azimuth, sigma1Dip);
      sigma3Vector := AxisVector(math, sigma3Azimuth, sigma3Dip);
      var printed: seq<Warning> := [];
      if isAndersonian {
        sigma2Vector := Down;
        sigma2Azimuth := Some(0.0);
        sigma2Dip := Some(90.0);
        printed := printed + [AndersonianRegime];
      } else {
        sigma2Vector := Cross(sigma3Vector, sigma1Vector);
        var norm := Norm(math, sigma2Vector);
        if norm > ParallelTolerance {
          sigma2Vector := Div(sigma2Vector, norm);
        } else {
          printed := printed + [ParallelAxes];
          sigma2Vector := Down;
        }
      }
      var largest := MaxAbsDot(sigma1Vector, sigma2Vector, sigma3Vector);
      if largest > OrthogonalityTolerance {
        printed := printed + [NotOrthogonal(largest)];
      }
      messages := messages + printed;
      CalculateSphericalCoords();
    }

    /** Records sigma1 and sigma3 with their given orientation and works out
        the azimuth and dip of sigma2, flipping a local copy of it into the
        lower hemisphere first. */
    method CalculateSphericalCoords()
      modifies this`principalAxes
      ensures AxesRecorded()
    {
      var axes := map[Sigma1 := AxisRecord(sigma1Vector, sigma1Azimuth, sigma1Dip)];
      axes := axes[Sigma3 := AxisRecord(sigma3Vector, sigma3Azimuth, sigma3Dip)];
      var vector := sigma2Vector;
      var azimuth: real, dip: real;
      if isAndersonian {
        azimuth, dip := 0.0, 90.0;
      } else if Abs(vector.x) < ParallelTolerance && Abs(vector.y) < ParallelTolerance {
        azimuth, dip := 0.0, 90.0;
      } else {
        azimuth := math.atan2Deg(vector.x, vector.y);
        if azimuth < 0.0 {
          azimuth := azimuth + 360.0;
        }
        if vector.z > 0.0 {
          vector := Neg(vector);
          azimuth := Mod360(azimuth + 180.0);
        }
        var horizontal := math.sqrt(HorizontalSquare(vector));
        if horizontal > ParallelTolerance {
          dip := math.atan2Deg(Abs(vector.z), horizontal);
        } else {
          dip := 90.0;
        }
      }
      principalAxes := axes[Sigma2 := AxisRecord(sigma2Vector, azimuth, dip)];
    }

    /** S = Rot diag(-1, -R, 0) Rot^T with the axes as the columns of Rot. */
    method CalculateStressTensor()
      modifies this`stressTensor
      ensures stressTensor == PrincipalTensor(ratio, sigma1Vector, sigma2Vector, sigma3Vector)
      ensures IsSymmetric(stressTensor)
      ensures Trace(stressTensor) == -Dot(sigma1Vector, sigma1Vector) - ratio * Dot(sigma2Vector, sigma2Vector)
    {
      var principal := Diag(-1.0, -ratio, 0.0);
      var rotation := ColumnStack(sigma1Vector, sigma2Vector, sigma3Vector);
      stressTensor := MatMul(MatMul(rotation, principal), Transpose(rotation));
      PrincipalTensorSymmetricWithTrace(ratio, sigma1Vector, sigma2Vector, sigma3Vector);
    }

    /** The traction on the plane with the given normal, split into its
        normal and shear parts. */
    function GetStressOnPlane(normal: Vec3): (r: PlaneStress)
      reads this
      ensures r == StressOnPlane(math, stressTensor, normal)
      ensures Dot(normal, normal) == 1.0 ==> Dot(r.shear, normal) == 0.0
      ensures Sound(math) ==> 0.0 <= r.shearMagnitude && r.shearMagnitude * r.shearMagnitude == Dot(r.shear, r.shear)
    {
      var r := StressOnPlane(math, stressTensor, normal);
      assert Dot(normal, normal) == 1.0 ==> Dot(r.shear, normal) == 0.0 by {
        if Dot(normal, normal) == 1.0 {
          ShearLiesInPlane(math, stressTensor, normal);
        }
      }
      assert Sound(math) ==> 0.0 <= r.shearMagnitude && r.shearMagnitude * r.shearMagnitude == Dot(r.shear, r.shear) by {
        if Sound(math) {
          ShearMagnitudeIsLength(math, stressTensor, normal);
        }
      }
      r
    }
  }
}
