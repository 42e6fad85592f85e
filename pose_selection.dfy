/** Landmark selection and pixel conversion of utils/pose_utils.py
    (`landmark_to_pixel`, `compute_shoulder_angle`).

    The pose detector's output is either absent (no person found) or a map from landmark
    names to normalized landmarks; only the six names the shoulder angle uses are modelled. */
module PoseSelection {

  import opened Wrappers
  import opened Geometry

  /** A detector landmark: coordinates relative to the image size (not necessarily in
      [0, 1]) and a visibility score that is never consulted. */
  datatype NormalizedLandmark = NormalizedLandmark(x: real, y: real, visibility: real)

  datatype LandmarkName =
    | LeftShoulder | RightShoulder
    | LeftElbow | RightElbow
    | LeftHip | RightHip

  type LandmarkSet = map<LandmarkName, NormalizedLandmark>

  /** The detector always reports every landmark of its skeleton. */
  ghost predicate Complete(lm: LandmarkSet) {
    forall n: LandmarkName :: n in lm
  }

  /** The three joints that the shoulder angle is measured from. */
  datatype Joint = Shoulder | Elbow | Hip

  /** The key of a joint in the returned position map. */
  function Key(j: Joint): string {
    match j
    case Shoulder => "shoulder"
    case Elbow => "elbow"
    case Hip => "hip"
  }

  const PositionKeys: set<string> := {"shoulder", "elbow", "hip"}

  /** Which joint a landmark name denotes. */
  function JointOf(n: LandmarkName): Joint {
    match n
    case LeftShoulder | RightShoulder => Shoulder
    case LeftElbow | RightElbow => Elbow
    case LeftHip | RightHip => Hip
  }

  predicate IsLeft(n: LandmarkName) {
    n.LeftShoulder? || n.LeftElbow? || n.LeftHip?
  }

  /** The landmark consulted for joint `j`: the LEFT_* one when `side` is exactly "left",
      the RIGHT_* one for every other value of `side`. */
  function SideLandmark(side: string, j: Joint): (n: LandmarkName)
    ensures JointOf(n) == j
    ensures IsLeft(n) <==> side == "left"
  {
    if side == "left" then
      match j
      case Shoulder => LeftShoulder
      case Elbow => LeftElbow
      case Hip => LeftHip
    else
      match j
      case Shoulder => RightShoulder
      case Elbow => RightElbow
      case Hip => RightHip
  }

  /** `r` is `v` with its fractional part dropped toward zero. */
  predicate TowardZero(v: real, r: int) {
    (0.0 <= v ==> 0 <= r && r as real <= v < r as real + 1.0) &&
    (v < 0.0 ==> r <= 0 && r as real - 1.0 < v <= r as real)
  }

  /** Python's `int()` on a number: truncation toward zero (not floor). */
  function Trunc(v: real): (r: int)
    ensures TowardZero(v, r)
  {
    if v >= 0.0 then v.Floor else -((-v).Floor)
  }

  /** `landmark_to_pixel`: scale by the image size and truncate each coordinate, so each pixel
      coordinate is within 1 of the scaled value, on the zero side of it. */
  function LandmarkToPixel(lm: NormalizedLandmark, width: nat, height: nat): (p: Point)
    ensures TowardZero(lm.x * width as real, p.x)
    ensures TowardZero(lm.y * height as real, p.y)
  {
    Point(Trunc(lm.x * width as real), Trunc(lm.y * height as real))
  }

  lemma NonNegativeProduct(a: real, b: real)
    requires 0.0 <= a && 0.0 <= b
    ensures 0.0 <= a * b
  {
  }

  /** A coordinate in [0, 1] scales and truncates into [0, size]. */
  lemma ScaledCoordinateInside(f: real, size: nat)
    requires 0.0 <= f <= 1.0
    ensures 0 <= Trunc(f * size as real) <= size
  {
    var n := size as real;
    var v := f * n;
    NonNegativeProduct(f, n);
    NonNegativeProduct(1.0 - f, n);
    assert n - v == (1.0 - f) * n;
    assert 0.0 <= v <= n;
    assert Trunc(v) as real <= size as real;
  }

  /** A landmark whose normalized coordinates lie in [0, 1] lands inside the closed image
      rectangle [0, width] x [0, height]. */
  lemma PixelInsideImage(lm: NormalizedLandmark, width: nat, height: nat)
    requires 0.0 <= lm.x <= 1.0 && 0.0 <= lm.y <= 1.0
    ensures 0 <= LandmarkToPixel(lm, width, height).x <= width
    ensures 0 <= LandmarkToPixel(lm, width, height).y <= height
  {
    ScaledCoordinateInside(lm.x, width);
    ScaledCoordinateInside(lm.y, height);
  }

  /** The pixel positions of the three joints of one side. */
  function JointPixels(lm: LandmarkSet, width: nat, height: nat, side: string): (m: map<string, Point>)
    requires Complete(lm)
    ensures m.Keys == PositionKeys
    ensures forall j: Joint :: m[Key(j)] == LandmarkToPixel(lm[SideLandmark(side, j)], width, height)
  {
    map[Key(Shoulder) := LandmarkToPixel(lm[SideLandmark(side, Shoulder)], width, height),
        Key(Elbow) := LandmarkToPixel(lm[SideLandmark(side, Elbow)], width, height),
        Key(Hip) := LandmarkToPixel(lm[SideLandmark(side, Hip)], width, height)]
  }

  /** `compute_shoulder_angle`: with no detected pose, no angle and no positions; otherwise
      the pixel positions of the chosen side's shoulder, elbow and hip, and the angle at the
      shoulder between elbow and hip. */
  function ComputeShoulderAngle(num: Numerics, results: Option<LandmarkSet>, width: nat, height: nat, side: string)
    : (r: (Option<real>, map<string, Point>))
    requires AcosInRange(num.acosDegrees)
    requires results.Some? ==> Complete(results.value)
    ensures results.None? ==> r.0 == None && r.1 == map[]
    ensures results.Some? ==> r.1.Keys == PositionKeys
    ensures results.Some? ==> forall j: Joint ::
              r.1[Key(j)] == LandmarkToPixel(results.value[SideLandmark(side, j)], width, height)
    ensures results.Some? ==> r.0 == CalculateAngle(num, r.1["elbow"], r.1["shoulder"], r.1["hip"])
  {
    match results
    case None => (None, map[])
    case Some(lm) =>
      var m := JointPixels(lm, width, height, side);
      (CalculateAngle(num, m[Key(Elbow)], m[Key(Shoulder)], m[Key(Hip)]), m)
  }

  /** With a detected pose, the shoulder angle is undetermined exactly when the elbow or
      the hip falls on the same pixel as the shoulder; when determined it lies in [0, 180]. */
  lemma ShoulderAngleUndetermined(num: Numerics, lm: LandmarkSet, width: nat, height: nat, side: string)
    requires AcosInRange(num.acosDegrees)
    requires Complete(lm)
    ensures var angle := ComputeShoulderAngle(num, Some(lm), width, height, side).0;
      var s := LandmarkToPixel(lm[SideLandmark(side, Shoulder)], width, height);
      var e := LandmarkToPixel(lm[SideLandmark(side, Elbow)], width, height);
      var h := LandmarkToPixel(lm[SideLandmark(side, Hip)], width, height);
      (angle.None? <==> e == s || h == s) &&
      (angle.Some? ==> 0.0 <= angle.value <= 180.0)
  {
    var m := ComputeShoulderAngle(num, Some(lm), width, height, side).1;
    assert m[Key(Shoulder)] == LandmarkToPixel(lm[SideLandmark(side, Shoulder)], width, height);
    assert m[Key(Elbow)] == LandmarkToPixel(lm[SideLandmark(side, Elbow)], width, height);
    assert m[Key(Hip)] == LandmarkToPixel(lm[SideLandmark(side, Hip)], width, height);
  }

  /** "left" reads the LEFT_* landmarks; any other side value reads the RIGHT_* ones. */
  lemma SideSelection(num: Numerics, lm: LandmarkSet, width: nat, height: nat, side: string)
    requires AcosInRange(num.acosDegrees)
    requires Complete(lm)
    ensures var m := ComputeShoulderAngle(num, Some(lm), width, height, side).1;
      if side == "left" then
        m["shoulder"] == LandmarkToPixel(lm[LeftShoulder], width, height) &&
        m["elbow"] == LandmarkToPixel(lm[LeftElbow], width, height) &&
        m["hip"] == LandmarkToPixel(lm[LeftHip], width, height)
      else
        m["shoulder"] == LandmarkToPixel(lm[RightShoulder], width, height) &&
        m["elbow"] == LandmarkToPixel(lm[RightElbow], width, height) &&
        m["hip"] == LandmarkToPixel(lm[RightHip], width, height)
  {
    var m := ComputeShoulderAngle(num, Some(lm), width, height, side).1;
    assert m[Key(Shoulder)] == LandmarkToPixel(lm[SideLandmark(side, Shoulder)], width, height);
    assert m[Key(Elbow)] == LandmarkToPixel(lm[SideLandmark(side, Elbow)], width, height);
    assert m[Key(Hip)] == LandmarkToPixel(lm[SideLandmark(side, Hip)], width, height);
  }
}
