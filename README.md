# Fault-slip generator and contact tracker in Dafny

This project models two computational cores of a small geoscience repository.

**The fault-slip generator** (`data/csv/Synthetic_data_sets/fault_data_generator.py`) covers:

- building a reduced stress tensor from the azimuth and dip of the principal stresses σ1 and σ3 and a stress ratio R (the `StressTensor` object);
- resolving the tensor onto a fault plane into normal and shear stress;
- writing a plane normal in geological notation (strike azimuth, dip, dip-direction octant);
- classifying the slip on the plane (acute rake, reference azimuth, sense-of-movement code such as `N+RL`);
- checking a plane's azimuth and dip against its normal.

**The contact tracker** (`data/pebble/plot_traj.py`) covers:

- reading blocks of particle contacts from the lines of a trajectory file;
- pairing the contacts that persist between two successive blocks;
- walking the file block by block.

Arithmetic is exact, over `real`.
- `Numerics.MathLib` stands for `math.sqrt`, `math.sin`/`math.cos`/`math.acos`/`math.atan2` in degrees, and numpy's `linalg.norm`. It is passed in as a parameter.
- `Numerics.Sound` lists the identities these functions satisfy in exact arithmetic:
  - the square root is a root;
  - sin² + cos² = 1;
  - the quarter-turn identities and period 360;
  - the range and inverse of acos;
  - the range of atan2, and that atan2 recovers a direction.
- The properties that need trigonometry assume `Sound`. The definitions themselves hold for any `MathLib`.

Python's `x % 360` is `Numerics.Mod360`. The tolerances of the source are constants with the source's values: 1e-10, 1e-6 and 0.1.

The modules follow the two scripts:
- `Vectors`: 3-vectors and 3×3 matrices, standing for numpy arrays.
- `Numerics`.
- `StressAxes`: axis vectors, σ2, warnings and the tensor.
- `StressState`: the traction on a plane and the imperative `StressTensor` class.
- `GeologicalNotation`: notation and validation.
- `SlipClassification`.
- `Tokens`: Python's `str.split()` and the `strip()` emptiness test.
- `ContactTracking`.
- `Wrappers`: `Option` and `Result`.

The contact tracker is imperative:
- `ReadBlock` is a loop, proved equal to the function `BlockAt`.
- `FindPersistentContacts` is nested loops with `break`, proved equal to `PersistentPairs`.
- `AnalyzeLines` is the `while` loop of `analyze_file`. It is proved to count the blocks of `ReadBlocks`, to collect `PersistenceSeries` of them, and to report the error that stopped it.

The `StressTensor` class keeps the source's fields. Its helper methods update them in place, in the source's order.

## Model

| member | source | states |
|---|---|---|
| Numerics.BearingIsUnit | data/csv/Synthetic_data_sets/fault_data_generator.py:340-345 | the horizontal vector (sin a, cos a, 0) at an azimuth is a unit vector |
| Numerics.OppositeBearing | data/csv/Synthetic_data_sets/fault_data_generator.py:363-369 | the horizontal vector at (a + 180) mod 360 is the negation of the one at a |
| StressAxes.HorizontalAxisComesOutVertical | data/csv/Synthetic_data_sets/fault_data_generator.py:95-99 | with the formula as written, an axis documented as horizontal (dip 0) comes out as the downward vertical |
| StressAxes.AndersonianAxesCoincideAsWritten | data/csv/Synthetic_data_sets/fault_data_generator.py:95-113 | as written, the Andersonian input gives σ1 = σ3 = down, with dot product 1 instead of 0 |
| StressAxes.AxisVectorMeaning | data/csv/Synthetic_data_sets/fault_data_generator.py:94-106 | the corrected axis vector is a unit vector; dip 0 gives the horizontal vector at the azimuth; dip 90 points straight down |
| StressAxes.Sigma2IsOrthogonal | data/csv/Synthetic_data_sets/fault_data_generator.py:117-128 | outside the Andersonian regime, the fallback is taken exactly when the length of σ3×σ1 is at most 1e-10, and then σ2 is down; otherwise σ2 is a unit vector orthogonal to σ1 and σ3 |
| StressAxes.AndersonianSigma2IsVertical | data/csv/Synthetic_data_sets/fault_data_generator.py:109-113 | in the Andersonian regime σ2 is (0, 0, -1) and no fallback is reported |
| StressAxes.AndersonianAxesAreOrthogonal | data/csv/Synthetic_data_sets/fault_data_generator.py:108-113 | the vertical σ2 is orthogonal to a horizontal σ1 and σ3 |
| StressAxes.OrthogonalityWarningIffObliqueInput | data/csv/Synthetic_data_sets/fault_data_generator.py:130-136 | once σ2 comes from the cross product, the non-orthogonality message is printed exactly when abs(σ1·σ3) > 1e-6 |
| StressAxes.LowerHemisphere | data/csv/Synthetic_data_sets/fault_data_generator.py:179-182 | the flipped vector points down (z ≤ 0) and is v or -v |
| StressAxes.Sigma2OrientationInRange | data/csv/Synthetic_data_sets/fault_data_generator.py:160-195 | σ2's recorded azimuth lies in [0, 360) and its dip in [0, 90] |
| StressAxes.VerticalSigma2Orientation | data/csv/Synthetic_data_sets/fault_data_generator.py:164-173 | a vertical σ2 (Andersonian, or horizontal part under 1e-10) is recorded as azimuth 0, dip 90, which is the orientation of the downward vertical |
| StressAxes.LowerTrendPointsAlong | data/csv/Synthetic_data_sets/fault_data_generator.py:175-182 | the azimuth, turned by 180 when σ2 points up, is the trend of the lower-hemisphere direction |
| StressAxes.Sigma2OrientationRecoversAxis | data/csv/Synthetic_data_sets/fault_data_generator.py:169-189 | away from the vertical, the axis formula applied to σ2's azimuth and dip gives back its lower-hemisphere unit vector |
| StressAxes.PrincipalTensorIsSpectral | data/csv/Synthetic_data_sets/fault_data_generator.py:200-217 | Rot diag(-1, -R, 0) Rotᵀ equals -σ1σ1ᵀ - Rσ2σ2ᵀ for any axes |
| StressAxes.PrincipalTensorSymmetricWithTrace | data/csv/Synthetic_data_sets/fault_data_generator.py:200-217 | the tensor is symmetric with trace -(σ1·σ1) - R(σ2·σ2), which is -1 - R for unit axes |
| StressAxes.PrincipalAxesAreEigenvectors | data/csv/Synthetic_data_sets/fault_data_generator.py:200-217 | for orthonormal axes, S σ1 = -σ1, S σ2 = -R σ2 and S σ3 = 0 |
| StressState.StressOnPlane | data/csv/Synthetic_data_sets/fault_data_generator.py:233-244 | the traction is S n; normal part plus shear is the traction; the magnitude is the norm of the shear |
| StressState.ShearLiesInPlane | data/csv/Synthetic_data_sets/fault_data_generator.py:233-241 | for a unit normal, the shear is orthogonal to n, the normal stress is the traction's component along n, and t·t = σn² + τ·τ |
| StressState.ShearMagnitudeIsLength | data/csv/Synthetic_data_sets/fault_data_generator.py:241-242 | the shear magnitude is non-negative, squares to τ·τ, and is 0 exactly when the shear vector is 0 |
| StressState.EigenPlaneHasNoShear | data/csv/Synthetic_data_sets/fault_data_generator.py:233-242 | a plane whose unit normal is an eigenvector carries no shear, and its normal stress is the eigenvalue |
| StressState.PrincipalPlanesHaveNoShear | data/csv/Synthetic_data_sets/fault_data_generator.py:200-242 | the planes normal to σ1, σ2, σ3 carry normal stress -1, -R, 0 and no shear |
| StressState.ConstructedAxesAreOrthonormal | data/csv/Synthetic_data_sets/fault_data_generator.py:94-128 | orthogonal σ1 and σ3 (horizontal when Andersonian) give an orthonormal basis without the fallback |
| StressState.StressTensor.constructor | data/csv/Synthetic_data_sets/fault_data_generator.py:60-83 | stores the inputs; σ2 attributes only in the Andersonian regime; messages; symmetric tensor; for orthogonal input, orthonormal axes, only the Andersonian message, trace -1 - R |
| StressState.StressTensor.CalculatePrincipalDirections | data/csv/Synthetic_data_sets/fault_data_generator.py:85-139 | sets the three axis vectors, σ2's Andersonian attributes, appends the messages, records the axes, leaves the tensor alone |
| StressState.StressTensor.CalculateSphericalCoords | data/csv/Synthetic_data_sets/fault_data_generator.py:141-195 | `principal_axes` holds σ1 and σ3 with their given angles and σ2 (unflipped) with the orientation of its lower-hemisphere direction |
| StressState.StressTensor.CalculateStressTensor | data/csv/Synthetic_data_sets/fault_data_generator.py:197-217 | the tensor becomes Rot diag(-1, -R, 0) Rotᵀ, symmetric, with the trace above |
| StressState.StressTensor.GetStressOnPlane | data/csv/Synthetic_data_sets/fault_data_generator.py:219-244 | the object's traction split, with the shear in the plane for a unit normal and a non-negative magnitude |
| GeologicalNotation.UpwardNormal | data/csv/Synthetic_data_sets/fault_data_generator.py:276-278 | the result points up, is n or -n, and has n's length |
| GeologicalNotation.VectorToGeologicalNotation | data/csv/Synthetic_data_sets/fault_data_generator.py:266-301 | strike azimuth in [0, 360) and, under exact trigonometry, dip in [0, 90] |
| GeologicalNotation.OctantIsNearestCardinal | data/csv/Synthetic_data_sets/fault_data_generator.py:288-296 | the octant is within 45° of the dip azimuth and no other cardinal direction is nearer |
| GeologicalNotation.NotationOctantIsNearest | data/csv/Synthetic_data_sets/fault_data_generator.py:283-296 | the dip azimuth lies in [0, 360) and the reported octant is the nearest cardinal direction to it |
| GeologicalNotation.UnitAngles | data/csv/Synthetic_data_sets/fault_data_generator.py:276-286 | an upward unit normal is (sin d sin p, sin d cos p, cos d) with d the dip and p the dip azimuth |
| GeologicalNotation.NotationDeterminesNormal | data/csv/Synthetic_data_sets/fault_data_generator.py:266-301 | the returned azimuth and dip give back the upward unit normal (notation is injective on planes) |
| GeologicalNotation.StrikeLiesOnPlane | data/csv/Synthetic_data_sets/fault_data_generator.py:298-299 | the horizontal vector at the returned azimuth is orthogonal to the normal |
| GeologicalNotation.NormalizeUnit | data/csv/Synthetic_data_sets/fault_data_generator.py:449-452 | normalising a unit vector leaves it unchanged |
| GeologicalNotation.CompareUnitVectors | data/csv/Synthetic_data_sets/fault_data_generator.py:449-461 | for unit vectors with a unit cross product, the check returns the vectors themselves and compares abs((d×a)·n) with 1 |
| GeologicalNotation.DipVectorAsWrittenIsNormal | data/csv/Synthetic_data_sets/fault_data_generator.py:440-447 | as written, the dip vector of a plane in notation form is the downward normal itself |
| GeologicalNotation.NotationPlanesNeverValidateAsWritten | data/csv/Synthetic_data_sets/fault_data_generator.py:410-463 | as written, every plane produced by the notation conversion fails the check |
| GeologicalNotation.NotationPlanesValidate | data/csv/Synthetic_data_sets/fault_data_generator.py:410-463 | with the dip vector along the steepest descent at (azimuth + 270) mod 360, every such plane passes, but dip × azimuth is the downward normal: against an upward normal the dot product is -1, and the plane passes only through the outer abs() |
| GeologicalNotation.DipVectorCrossStrike | data/csv/Synthetic_data_sets/fault_data_generator.py:438-456 | the steepest-descent dip vector crossed with the strike vector is the downward normal |
| GeologicalNotation.RightHandPlanesValidateUpward | data/csv/Synthetic_data_sets/fault_data_generator.py:410-463 | with the strike taken by the right-hand rule, (dip azimuth + 270) mod 360, and the dip vector at (azimuth + 90) mod 360 measured from the horizontal, every plane passes and dip × azimuth is the upward normal itself, with dot product 1 against an upward normal, as the documentation of the check says |
| GeologicalNotation.UpwardNormalDot | data/csv/Synthetic_data_sets/fault_data_generator.py:276-278 | the upward normal has dot product 1 or -1 with the unit normal it came from, and 1 when that normal already pointed up |
| SlipClassification.CalculateRakeAndMovement | data/csv/Synthetic_data_sets/fault_data_generator.py:303-408 | the reference azimuth is the plane's azimuth or its opposite |
| SlipClassification.ZeroShearNoSlip | data/csv/Synthetic_data_sets/fault_data_generator.py:318-319 | zero shear gives rake 0, code "N", the plane's azimuth; the norm test is exactly the zero-vector test |
| SlipClassification.MovementOfShear | data/csv/Synthetic_data_sets/fault_data_generator.py:385-406 | with shear, the movement code read back holds I iff the unit striation s has s.z > 0.1, N iff s.z < -0.1 or both s.z and the along-strike component lie within 0.1, LL iff the along-strike component > 0.1, RL iff it is < -0.1, and one or two components |
| SlipClassification.MovementComponentsIff | data/csv/Synthetic_data_sets/fault_data_generator.py:385-400 | I iff z > 0.1, N iff z < -0.1, LL iff lateral > 0.1, RL iff lateral < -0.1; at most one vertical then one lateral |
| SlipClassification.SplitJoinedCodes | data/csv/Synthetic_data_sets/fault_data_generator.py:402-406 | splitting the `'+'`-joined codes at `'+'` gives back the codes |
| SlipClassification.MovementCodeRoundTrip | data/csv/Synthetic_data_sets/fault_data_generator.py:402-406 | the code parses back to its components; the empty list, written "N", reads back as pure normal slip |
| SlipClassification.RakeIsAcute | data/csv/Synthetic_data_sets/fault_data_generator.py:347-383 | the rake lies in [0, 90] |
| SlipClassification.AcuteRakeRange | data/csv/Synthetic_data_sets/fault_data_generator.py:355-359 | for a unit in-plane direction, acos(abs(cos)) lies in [0, 90] and its cosine is abs(cos) |
| SlipClassification.RakeIsAngleToStrike | data/csv/Synthetic_data_sets/fault_data_generator.py:347-359 | the cosine of the rake is the absolute cosine of the angle between the strike vector and the in-plane striation |
| SlipClassification.TieKeepsAzimuth | data/csv/Synthetic_data_sets/fault_data_generator.py:374-379 | equal rakes keep the plane's own azimuth as reference |
| SlipClassification.OppositeRakeEqual | data/csv/Synthetic_data_sets/fault_data_generator.py:363-372 | the opposite azimuth gives the same acute rake |
| SlipClassification.OppositeNeverWins | data/csv/Synthetic_data_sets/fault_data_generator.py:361-379 | under exact trigonometry the reference azimuth is always the plane's own azimuth |
| SlipClassification.NoProjectionZeroRake | data/csv/Synthetic_data_sets/fault_data_generator.py:381-383 | a striation with no in-plane part gives rake 0 from the plane's azimuth |
| Tokens.Split | data/pebble/plot_traj.py:12 | every token is a non-empty run of non-whitespace (the whole behaviour is fixed by the two lemmas below) |
| Tokens.SplitSkipsSpace | data/pebble/plot_traj.py:12 | a whitespace character in front of a line does not change its tokens; with `SplitWordFirst` and the empty line this fixes every split |
| Tokens.SplitWordFirst | data/pebble/plot_traj.py:12 | a word followed by the end of the line or by whitespace is split off whole, in front of the tokens of the rest of the line |
| Tokens.NoTokensIffBlank | data/pebble/plot_traj.py:178 | a line has no tokens exactly when `strip()` leaves it empty |
| Tokens.SplitJoinWords | data/pebble/plot_traj.py:21 | splitting words joined by spaces gives the words back |
| ContactTracking.ParseContact | data/pebble/plot_traj.py:21-27 | a contact line parses iff it has at least 5 tokens and tokens 1-4 parse; the id comes from token 1, x, y, z from tokens 2-4 |
| ContactTracking.HeaderCount | data/pebble/plot_traj.py:12-13 | the count is the parsed last token of the header, and exists iff that token does and parses |
| ContactTracking.ReadBlockAsWritten | data/pebble/plot_traj.py:12-30 | as written, the next index is start + 2 + n, whatever the sign of n |
| ContactTracking.CountMinusTwoStalls | data/pebble/plot_traj.py:13-30 | as written, a header count of -2 returns the header's own index as the next index |
| ContactTracking.NegativeCountsAsWritten | data/pebble/plot_traj.py:13-30 | as written, a negative count n reads no contact and returns start + 2 + n: start + 1 for n = -1, an index before the header for n ≤ -3, a negative index for n < -(start + 2); the corrected reader rejects every negative count |
| ContactTracking.BlockAt | data/pebble/plot_traj.py:12-30 | a successful block ends at least two lines after its header |
| ContactTracking.BlockAtAgreesOnNonNegativeCounts | data/pebble/plot_traj.py:12-30 | the corrected reader returns the same contacts and next index as the source for every count ≥ 0 |
| ContactTracking.ContactsFromIff | data/pebble/plot_traj.py:19-28 | reading n contacts succeeds iff each of the n lines holds a contact; then contact i comes from line from + i |
| ContactTracking.BlockShape | data/pebble/plot_traj.py:12-30 | a block holds exactly the announced count of contacts, from lines start+2 .. start+1+n, and the next index is start+2+n |
| ContactTracking.SecondLineIgnored | data/pebble/plot_traj.py:15-16 | the line after the header has no influence on the block |
| ContactTracking.ReadBlock | data/pebble/plot_traj.py:6-30 | the loop returns exactly `BlockAt` |
| ContactTracking.FirstWithId | data/pebble/plot_traj.py:60-63 | the index found holds the id and no earlier one does; none iff no contact holds it |
| ContactTracking.FindPersistentContacts | data/pebble/plot_traj.py:50-65 | the nested loops with `break` return exactly `PersistentPairs` |
| ContactTracking.PairsFollowFirstState | data/pebble/plot_traj.py:58-63 | the first components are the matched contacts of the first state in their order; at most one pair per contact |
| ContactTracking.PairsAreFirstMatches | data/pebble/plot_traj.py:55-65 | each pair joins a contact of the first state to the first contact of the second with the same particle id |
| ContactTracking.PairedIffMatchExists | data/pebble/plot_traj.py:58-63 | a contact is paired iff the second state has a contact on the same particle |
| ContactTracking.SkipBlank | data/pebble/plot_traj.py:176-180 | the index reached is the first non-blank line at or after the start, or the end |
| ContactTracking.WalkSeesNoEmptyHeader | data/pebble/plot_traj.py:176-184 | the walk never fails on an empty header, as blank lines are skipped first |
| ContactTracking.WalkBlocksAreBlocks | data/pebble/plot_traj.py:176-200 | every block of the walk was read successfully at a non-blank line |
| ContactTracking.SeriesOfConsecutiveBlocks | data/pebble/plot_traj.py:188-196 | every kept list is non-empty and comes from two consecutive blocks; there are at most blocks - 1 of them |
| ContactTracking.AnalyzeLines | data/pebble/plot_traj.py:171-206 | the loop counts the blocks of the walk, collects their persistence series, and returns the error that stopped it |
| ContactTracking.RecordPersistence | data/pebble/plot_traj.py:189-196 | one step of the loop extends the persistence series of the blocks read by the list for the last two blocks, and only when that list is non-empty |
| Numerics.Mod360 | data/csv/Synthetic_data_sets/fault_data_generator.py:299 | Python's `% 360` on a float: the result lies in [0, 360) and an angle already in range, or one turn above it, is reduced by 0 or 360 |
| StressAxes.AxisVectorAsWritten | data/csv/Synthetic_data_sets/fault_data_generator.py:95-99 | the axis vector as written: (sin dip·sin az, sin dip·cos az, -cos dip) |
| StressAxes.AxisVector | data/csv/Synthetic_data_sets/fault_data_generator.py:95-106 | the corrected axis vector: (cos dip·sin az, cos dip·cos az, -sin dip); see `AxisVectorMeaning` |
| StressAxes.Sigma2Direction | data/csv/Synthetic_data_sets/fault_data_generator.py:108-128 | σ2 is down in the Andersonian regime, otherwise the normalised σ3 × σ1, falling back to down when its length is at most 1e-10; see `Sigma2IsOrthogonal` |
| StressAxes.MaxAbsDot | data/csv/Synthetic_data_sets/fault_data_generator.py:130-136 | the largest absolute dot product between two of the three axes |
| StressAxes.DirectionWarnings | data/csv/Synthetic_data_sets/fault_data_generator.py:115-136 | the messages in the source's order: the Andersonian note, the parallel-axes fallback, and non-orthogonality when the largest absolute dot product exceeds 1e-6 |
| StressAxes.LowerTrend | data/csv/Synthetic_data_sets/fault_data_generator.py:175-182 | the azimuth of σ2 from atan2(x, y), wrapped to [0, 360) and turned by 180 when σ2 points up; see `LowerTrendPointsAlong` |
| StressAxes.Plunge | data/csv/Synthetic_data_sets/fault_data_generator.py:184-189 | the dip of σ2 from atan2(|z|, horizontal length), 90 when the horizontal length is at most 1e-10 |
| StressAxes.Sigma2Orientation | data/csv/Synthetic_data_sets/fault_data_generator.py:160-195 | σ2's recorded azimuth and dip; see `Sigma2OrientationInRange` and `Sigma2OrientationRecoversAxis` |
| StressAxes.PrincipalTensor | data/csv/Synthetic_data_sets/fault_data_generator.py:200-217 | Rot diag(-1, -R, 0) Rotᵀ with the axes as the columns of Rot; see `PrincipalTensorIsSpectral` |
| GeologicalNotation.DipAzimuth | data/csv/Synthetic_data_sets/fault_data_generator.py:283-286 | the dip azimuth atan2(x, y), wrapped to [0, 360) |
| GeologicalNotation.Octant | data/csv/Synthetic_data_sets/fault_data_generator.py:288-296 | N, E, S or W by the 45° boundaries of the source; see `OctantIsNearestCardinal` |
| GeologicalNotation.CompareNormals | data/csv/Synthetic_data_sets/fault_data_generator.py:449-463 | normalises the three vectors, crosses dip with azimuth, and is valid when abs(abs(dot) - 1) < 1e-6; see `CompareUnitVectors` |
| GeologicalNotation.ValidateAsWritten | data/csv/Synthetic_data_sets/fault_data_generator.py:410-463 | the check as written, with the dip vector at (azimuth + 90) mod 360 by the as-written axis formula; see `NotationPlanesNeverValidateAsWritten` |
| GeologicalNotation.ValidateFaultPlaneVectors | data/csv/Synthetic_data_sets/fault_data_generator.py:410-463 | the check with the steepest-descent dip vector at (azimuth + 270) mod 360; see `NotationPlanesValidate` |
| GeologicalNotation.RightHandStrike | data/csv/Synthetic_data_sets/fault_data_generator.py:299 | the right-hand-rule strike, (dip azimuth + 270) mod 360; see `RightHandPlanesValidateUpward` |
| GeologicalNotation.ValidateSteepestDescent | data/csv/Synthetic_data_sets/fault_data_generator.py:410-463 | the check with the dip vector at (azimuth + 90) mod 360 measured from the horizontal; see `RightHandPlanesValidateUpward` |
| SlipClassification.AcuteRake | data/csv/Synthetic_data_sets/fault_data_generator.py:355-359 | acos of the absolute cosine between the strike vector and the in-plane striation; see `AcuteRakeRange` |
| SlipClassification.RakeAndReference | data/csv/Synthetic_data_sets/fault_data_generator.py:361-379 | the smaller rake of the azimuth and its opposite, keeping the azimuth on a tie; see `TieKeepsAzimuth` and `OppositeNeverWins` |
| SlipClassification.VerticalSense | data/csv/Synthetic_data_sets/fault_data_generator.py:388-392 | I above 0.1, N below -0.1, nothing in between |
| SlipClassification.LateralSense | data/csv/Synthetic_data_sets/fault_data_generator.py:394-400 | LL above 0.1, RL below -0.1, nothing in between |
| SlipClassification.MovementComponents | data/csv/Synthetic_data_sets/fault_data_generator.py:385-400 | the vertical component, then the lateral one; see `MovementComponentsIff` |
| SlipClassification.MovementCode | data/csv/Synthetic_data_sets/fault_data_generator.py:402-406 | "N" for no component, otherwise the codes joined by `+`; see `MovementCodeRoundTrip` |
| ContactTracking.ContactsFrom | data/pebble/plot_traj.py:19-29 | the n contacts from line `from` on, or the first error; see `ContactsFromIff` |
| ContactTracking.PersistentPairs | data/pebble/plot_traj.py:50-65 | each contact of the first state paired with the first contact of the second on the same particle; see `PairsAreFirstMatches` and `PairedIffMatchExists` |
| ContactTracking.ReadBlocks | data/pebble/plot_traj.py:171-206 | the blocks of the walk and the error that ends it, if any; see `WalkBlocksAreBlocks` and `AnalyzeLines` |
| ContactTracking.PersistenceSeries | data/pebble/plot_traj.py:188-196 | the non-empty persistence lists of consecutive blocks; see `SeriesOfConsecutiveBlocks` |

## Left out

- Floating point: all arithmetic is exact. Rounding and the tolerances' role in absorbing it are not modelled; the tolerance comparisons themselves are.
- `math.acos` of a value just outside [-1, 1] exists only through rounding. The model's acos is total, and `Sound` constrains it on [-1, 1] only.
- GeologicalNotation.VectorToGeologicalNotation: requires the normal's vertical component in [-1, 1]. Outside that range `math.acos` raises `ValueError`, and the source has no handler.
- The stress ratio is used as given: the `StressTensor` constructor does not clamp R. The clamp to [0, 1] in `get_user_input` (fault_data_generator.py line 711) is left out with that function.
- The constructor's printed messages are kept as the list of `Warning` values they report. The text formatting is not modelled.
- `principal_axes` is keyed by the `Axis` values σ1, σ2, σ3 instead of the strings `'σ1'`, `'σ2'`, `'σ3'`.
- numpy arrays are values in the model. The aliasing between `principal_axes[...]['vector']` and the object's vector fields is not modelled.
- The horizontal striation azimuth in `calculate_rake_and_movement` (fault_data_generator.py lines 324-337) is computed and never used, so it is not modelled.
- The unreachable code after the `return` of `validate_fault_plane_vectors` (lines 464-518) is not modelled.
- Not modelled, because they are random sampling, plotting, interactive input, CSV export or printing:
  - `generate_fault_normals_upper_hemisphere`;
  - `draw_great_circle` and `create_stereographic_projection`;
  - `get_user_input` and `main`;
  - `plot_all_trajectories`;
  - the file opening, `sys.exit` and printing of `analyze_file`;
  - `cartesian_to_spherical`.
- `normal_vector_distribution.py` and `parse_sphere.py` are not part of this model.
- `int()` and `float()` on a token are the functions of a `Parsers` value, with `None` where Python raises. Python's exact literal syntax is not modelled.
- Line indices are natural numbers. This holds for the corrected walk, where `BlockAt` rejects a negative count and every block moves the walk at least two lines forward. As written, a count of -3 or less moves the walk back and a count below -(start + 2) makes the index negative, where Python reads from the end of the file; that walk is not modelled (`ContactTracking.NegativeCountsAsWritten` states only the index it returns).
- `Validation.Undefined` stands for the NaNs numpy produces when it normalises a zero vector. The check then reports "not valid".

## Findings

| source | as written | input that shows it | evidently intended | confidence | as-written member | corrected member |
|---|---|---|---|---|---|---|
| data/csv/Synthetic_data_sets/fault_data_generator.py:95-106 | axis vector (sin dip·sin az, sin dip·cos az, -cos dip), which measures the dip from the vertical | σ1 dip 0 (documented as horizontal) at any azimuth gives (0, 0, -1). The Andersonian input σ1 dip 0, σ3 dip 0 gives σ1 = σ3 | (cos dip·sin az, cos dip·cos az, -sin dip), with dip measured downward from the horizontal | high, not executed | StressAxes.HorizontalAxisComesOutVertical | StressAxes.AxisVectorMeaning |
| data/csv/Synthetic_data_sets/fault_data_generator.py:440-447 | dip vector at (azimuth + 90) mod 360 with the same sin/-cos formula. For a plane from `vector_to_geological_notation` this is the downward normal, so dip × azimuth lies in the plane | normal (0, 0, 1) gives azimuth 90 and dip 0. The dip vector is (0, 0, -1), dip × azimuth is (0, -1, 0), the dot with the normal is 0, and `is_valid` is False. This holds for every unit normal | the documented right-hand convention: the strike is (dip azimuth + 270) mod 360, and the dip vector at (azimuth + 90) mod 360 makes the angle dip below the horizontal. Then dip × azimuth is the upward normal, as the check's documentation says, and every such plane validates. Keeping the strike of line 299 and turning the dip vector to (azimuth + 270) mod 360 instead also validates every plane, but gives the downward normal and passes only through abs() (`GeologicalNotation.NotationPlanesValidate`) | high, not executed | GeologicalNotation.NotationPlanesNeverValidateAsWritten | GeologicalNotation.RightHandPlanesValidateUpward |
| data/pebble/plot_traj.py:13-30 | a negative contact count is accepted. No contact is read and the next index is start + 2 + n | a header line `0 -2` returns the header's own index, so the `while` loop of `analyze_file` re-reads the same block forever | a negative count is a malformed block, which ends the walk like any other read error. The corrected reader therefore also ends the walk for n = -1, where the source goes on at start + 1 with an empty block, and for n ≤ -3, where the source steps back | medium, not executed | ContactTracking.CountMinusTwoStalls | ContactTracking.BlockAt |

The rest of the model uses the corrected members:
- `StressTensor` builds its axes with `StressAxes.AxisVector`.
- The validation of planes uses the steepest-descent dip vector: `ValidateSteepestDescent` with the right-hand strike `RightHandStrike`, and `ValidateFaultPlaneVectors` with the strike of line 299.
- `ReadBlock` and `AnalyzeLines` use `BlockAt`, which rejects a negative count.

`AnalyzeLines` is proved to terminate.
