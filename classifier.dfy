/** The face classifier `getPlatonicCubeFaceIdx`: which face of the cube points
    down, from the tilt angles theta (azimuth) and phi (polar angle) in degrees. */
module Classifier {
  import opened Maybe
  import opened Angles

  /** The tolerance `getDownwardFaceIndex` passes to the classifier. */
  const AngleCheck: real := 20.0

  /** `abs(angleDiff(angle, centre)) <= tol`: every bound is inclusive. */
  predicate Near(angle: real, centre: real, tol: real)
  {
    Abs(AngleDiff(angle, centre)) <= tol
  }

  /** Being near is symmetric: the circular distance does not depend on the direction. */
  lemma NearSymmetric(angle: real, centre: real, tol: real)
    ensures Near(angle, centre, tol) == Near(centre, angle, tol)
  {
    AngleDiffAntisymmetric(angle, centre);
  }

  /** The angle bin of one face: the theta centre (None where theta is not
      tested, at the two poles) and the phi centre. */
  datatype Bin = Bin(theta: Option<real>, phi: real)

  /** The six bins, face by face. */
  function BinOf(face: int): Bin
    requires 1 <= face <= 6
  {
    if face == 1 then Bin(Some(0.0), 90.0)
    else if face == 2 then Bin(Some(180.0), 90.0)
    else if face == 3 then Bin(Some(-90.0), 90.0)
    else if face == 4 then Bin(Some(90.0), 90.0)
    else if face == 5 then Bin(None, 0.0)
    else Bin(None, 180.0)
  }

  /** The tilt (theta, phi) lies in the bin of `face` with tolerance tol. */
  predicate InBin(face: int, theta: real, phi: real, tol: real)
    requires 1 <= face <= 6
  {
    var b := BinOf(face);
    (b.theta == None || Near(theta, b.theta.value, tol)) && Near(phi, b.phi, tol)
  }

  /** `getPlatonicCubeFaceIdx(theta, phi, angleCheck)`: the if/elif chain over
      the six faces, 0 when no condition holds. */
  function FaceIdx(theta: real, phi: real, angleCheck: real): (face: int)
    ensures 0 <= face <= 6
  {
    if Near(theta, 0.0, angleCheck) && Near(phi, 90.0, angleCheck) then 1
    else if Near(theta, 180.0, angleCheck) && Near(phi, 90.0, angleCheck) then 2
    else if Near(theta, -90.0, angleCheck) && Near(phi, 90.0, angleCheck) then 3
    else if Near(theta, 90.0, angleCheck) && Near(phi, 90.0, angleCheck) then 4
    else if Near(phi, 0.0, angleCheck) then 5
    else if Near(phi, 180.0, angleCheck) then 6
    else 0
  }

  /** Reference search over the bin table: the first face from k on whose bin
      holds the tilt, or 0 when there is none. */
  function FirstBin(theta: real, phi: real, tol: real, k: int): (face: int)
    requires 1 <= k <= 7
    ensures face == 0 || k <= face <= 6
    ensures face == 0 <==> forall j | k <= j <= 6 :: !InBin(j, theta, phi, tol)
    ensures face != 0 ==> InBin(face, theta, phi, tol)
    ensures forall j | k <= j <= 6 && (face == 0 || j < face) :: !InBin(j, theta, phi, tol)
    decreases 7 - k
  {
    if k == 7 then 0
    else if InBin(k, theta, phi, tol) then k
    else FirstBin(theta, phi, tol, k + 1)
  }

  /** The classifier is the first-match search over the bin table, in the fixed order 1..6. */
  lemma {:induction false} FaceIdxIsFirstBin(theta: real, phi: real, tol: real)
    ensures FaceIdx(theta, phi, tol) == FirstBin(theta, phi, tol, 1)
  {
    // One unfolding of the search per face. Without them the proof still goes
    // through, but only on some solver seeds.
    assert FirstBin(theta, phi, tol, 6) == if InBin(6, theta, phi, tol) then 6 else 0;
    assert FirstBin(theta, phi, tol, 5) == if InBin(5, theta, phi, tol) then 5 else FirstBin(theta, phi, tol, 6);
    assert FirstBin(theta, phi, tol, 4) == if InBin(4, theta, phi, tol) then 4 else FirstBin(theta, phi, tol, 5);
    assert FirstBin(theta, phi, tol, 3) == if InBin(3, theta, phi, tol) then 3 else FirstBin(theta, phi, tol, 4);
    assert FirstBin(theta, phi, tol, 2) == if InBin(2, theta, phi, tol) then 2 else FirstBin(theta, phi, tol, 3);
  }

  /** Face 0 is reported exactly when the tilt lies in none of the six bins. */
  lemma NoFaceIffNoBin(theta: real, phi: real, tol: real)
    ensures FaceIdx(theta, phi, tol) == 0 <==> forall k | 1 <= k <= 6 :: !InBin(k, theta, phi, tol)
  {
    FaceIdxIsFirstBin(theta, phi, tol);
  }

  /** A reported face's bin holds the tilt, and no earlier face's bin does: the first match wins. */
  lemma FirstMatchWins(theta: real, phi: real, tol: real)
    ensures FaceIdx(theta, phi, tol) != 0 ==> InBin(FaceIdx(theta, phi, tol), theta, phi, tol)
    ensures forall k | 1 <= k < FaceIdx(theta, phi, tol) :: !InBin(k, theta, phi, tol)
  {
    FaceIdxIsFirstBin(theta, phi, tol);
  }

  /** A face is reported when its bin holds the tilt and no earlier bin does. */
  lemma FirstMatchIs(theta: real, phi: real, tol: real, k: int)
    requires 1 <= k <= 6
    requires InBin(k, theta, phi, tol)
    requires forall j | 1 <= j < k :: !InBin(j, theta, phi, tol)
    ensures FaceIdx(theta, phi, tol) == k
  {
    FaceIdxIsFirstBin(theta, phi, tol);
  }

  /** Near on two angles less than half a turn apart compares their plain difference. */
  lemma NearExact(a: real, c: real, tol: real)
    requires -180.0 <= a - c < 180.0
    ensures Near(a, c, tol) == (Abs(a - c) <= tol)
  {
    AngleDiffExact(a, c);
  }

  /** Near on two angles between half a turn and one and a half turns apart
      measures the other way round the circle. */
  lemma NearWrapped(a: real, c: real, tol: real)
    requires 180.0 <= a - c < 540.0 || -540.0 <= a - c < -180.0
    ensures Near(a, c, tol) == (Abs(if a - c >= 0.0 then a - c - 360.0 else a - c + 360.0) <= tol)
  {
    var d := if a - c >= 0.0 then a - c - 360.0 else a - c + 360.0;
    if a - c >= 0.0 {
      CongruentByTurns(d, a - c, -1);
    } else {
      CongruentByTurns(d, a - c, 1);
    }
    AngleDiffUnique(a, c, d);
  }

  /** Lying flat with theta = 0 and phi = 90 is face 1 for every tolerance, however wide. */
  lemma DownAtCentre(tol: real)
    requires tol >= 0.0
    ensures FaceIdx(0.0, 90.0, tol) == 1
  {
    NearExact(0.0, 0.0, tol);
    NearExact(90.0, 90.0, tol);
    FirstMatchIs(0.0, 90.0, tol, 1);
  }

  /** The centre of face 2 is face 2 while the bins of faces 1 and 2 stay apart. */
  lemma UpAtCentre(tol: real)
    requires 0.0 <= tol < 180.0
    ensures FaceIdx(180.0, 90.0, tol) == 2
  {
    NearWrapped(180.0, 0.0, tol);
    NearExact(180.0, 180.0, tol);
    NearExact(90.0, 90.0, tol);
    FirstMatchIs(180.0, 90.0, tol, 2);
  }

  /** The centre of face 3 (theta = -90) is face 3 for tolerances below 90. */
  lemma SideOneAtCentre(tol: real)
    requires 0.0 <= tol < 90.0
    ensures FaceIdx(-90.0, 90.0, tol) == 3
  {
    NearExact(-90.0, 0.0, tol);
    NearWrapped(-90.0, 180.0, tol);
    NearExact(-90.0, -90.0, tol);
    NearExact(90.0, 90.0, tol);
    FirstMatchIs(-90.0, 90.0, tol, 3);
  }

  /** The azimuth 90 is far from the theta centres of faces 1, 2 and 3 for tolerances below 90. */
  lemma SideTwoFarFromOthers(tol: real)
    requires 0.0 <= tol < 90.0
    ensures !Near(90.0, 0.0, tol) && !Near(90.0, 180.0, tol) && !Near(90.0, -90.0, tol)
  {
    NearExact(90.0, 0.0, tol);
    NearExact(90.0, 180.0, tol);
    NearWrapped(90.0, -90.0, tol);
  }

  /** The centre of face 4 (theta = 90) is face 4 for tolerances below 90. */
  lemma SideTwoAtCentre(tol: real)
    requires 0.0 <= tol < 90.0
    ensures FaceIdx(90.0, 90.0, tol) == 4
  {
    SideTwoFarFromOthers(tol);
    NearExact(90.0, 90.0, tol);
    FirstMatchIs(90.0, 90.0, tol, 4);
  }

  /** At the poles phi = 0 and phi = 180 the faces are 5 and 6 whatever theta is,
      for tolerances below 90. */
  lemma PoleFaces(theta: real, tol: real)
    requires 0.0 <= tol < 90.0
    ensures FaceIdx(theta, 0.0, tol) == 5
    ensures FaceIdx(theta, 180.0, tol) == 6
  {
    NearExact(0.0, 90.0, tol);
    NearExact(0.0, 0.0, tol);
    FirstMatchIs(theta, 0.0, tol, 5);
    NearExact(180.0, 90.0, tol);
    NearWrapped(180.0, 0.0, tol);
    NearExact(180.0, 180.0, tol);
    FirstMatchIs(theta, 180.0, tol, 6);
  }

  /** From a tolerance of 90 on, the bins overlap and the fixed order decides:
      the centre of face 3 and the pole phi = 0 at theta = 0 are both reported as face 1. */
  lemma WideToleranceFavoursFaceOne(tol: real)
    requires tol >= 90.0
    ensures FaceIdx(-90.0, 90.0, tol) == 1
    ensures FaceIdx(0.0, 0.0, tol) == 1
  {
    NearExact(-90.0, 0.0, tol);
    NearExact(90.0, 90.0, tol);
    FirstMatchIs(-90.0, 90.0, tol, 1);
    NearExact(0.0, 0.0, tol);
    NearExact(0.0, 90.0, tol);
    FirstMatchIs(0.0, 0.0, tol, 1);
  }

  /** The bounds are inclusive: a tilt exactly `tol` away in both angles is still face 1. */
  lemma InclusiveBound(tol: real)
    requires 0.0 <= tol < 180.0
    ensures FaceIdx(tol, 90.0 - tol, tol) == 1
  {
    NearExact(tol, 0.0, tol);
    NearExact(90.0 - tol, 90.0, tol);
    FirstMatchIs(tol, 90.0 - tol, tol, 1);
  }

  /** For an azimuth in atan2's range (-180, 180] and phi = 90, face 1 is reported
      exactly when |theta| <= tol, for every tolerance. */
  lemma DownFaceWindow(theta: real, tol: real)
    requires -180.0 < theta <= 180.0
    ensures FaceIdx(theta, 90.0, tol) == 1 <==> Abs(theta) <= tol
  {
    NearExact(90.0, 90.0, tol);
    if theta < 180.0 {
      NearExact(theta, 0.0, tol);
    } else {
      NearWrapped(theta, 0.0, tol);
    }
    if Abs(theta) <= tol {
      FirstMatchIs(theta, 90.0, tol, 1);
    }
  }

  /** Centres between a quarter and three quarters of a turn apart are at least
      a quarter turn apart round the circle. */
  lemma CentresApart(c1: real, c2: real)
    requires 90.0 <= Abs(c1 - c2) <= 270.0
    ensures Abs(AngleDiff(c1, c2)) >= 90.0
  {
    var d := AngleDiff(c1, c2);
    AngleDiffCongruent(c1, c2);
    var k := TurnsBetween(d, c1 - c2);
    if k >= 1 {
      assert c1 - c2 <= d - 360.0;
    } else if k <= -1 {
      assert c1 - c2 >= d + 360.0;
    }
  }

  /** Below a tolerance of 45 no angle is near two centres that far apart. */
  lemma NotNearBoth(a: real, c1: real, c2: real, tol: real)
    requires tol < 45.0
    requires 90.0 <= Abs(c1 - c2) <= 270.0
    ensures !(Near(a, c1, tol) && Near(a, c2, tol))
  {
    if Near(a, c1, tol) && Near(a, c2, tol) {
      AngleDiffTriangle(a, c1, c2);
      CentresApart(c1, c2);
    }
  }

  /** Below a tolerance of 45 no tilt lies in two bins. */
  lemma BinsDisjoint(theta: real, phi: real, tol: real, j: int, k: int)
    requires tol < 45.0
    requires 1 <= j < k <= 6
    ensures !(InBin(j, theta, phi, tol) && InBin(k, theta, phi, tol))
  {
    var bj, bk := BinOf(j), BinOf(k);
    if bj.theta.Some? && bk.theta.Some? {
      NotNearBoth(theta, bj.theta.value, bk.theta.value, tol);
    } else {
      NotNearBoth(phi, bj.phi, bk.phi, tol);
    }
  }

  /** Below a tolerance of 45 the fixed order does not matter: the classifier
      reports a face exactly when the tilt lies in that face's bin. */
  lemma OrderIrrelevant(theta: real, phi: real, tol: real, k: int)
    requires tol < 45.0
    requires 1 <= k <= 6
    ensures FaceIdx(theta, phi, tol) == k <==> InBin(k, theta, phi, tol)
  {
    var f := FaceIdx(theta, phi, tol);
    FaceIdxIsFirstBin(theta, phi, tol);
    if InBin(k, theta, phi, tol) && f != k {
      if f == 0 {
        assert false;
      } else if f < k {
        BinsDisjoint(theta, phi, tol, f, k);
      } else {
        assert false;
      }
    }
  }
}
