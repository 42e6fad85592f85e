/** The shoulder-angle request as the page runs it: the selected joints and angle from
    `compute_shoulder_angle` are handed straight to `annotate_image_pil`. */
module ShoulderPipeline {

  import opened Wrappers
  import opened Geometry
  import opened PoseSelection
  import opened Annotation

  /** The draw commands of one request. */
  function RequestPlan(num: Numerics, results: Option<LandmarkSet>, width: nat, height: nat, side: string,
                       fmt: real -> string): seq<DrawCommand>
    requires AcosInRange(num.acosDegrees)
    requires results.Some? ==> Complete(results.value)
  {
    var r := ComputeShoulderAngle(num, results, width, height, side);
    Plan(r.0, r.1, fmt)
  }

  /** No person detected: no skeleton and no markers, only the "Angle: N/A" label at (10, 10),
      whichever side was asked for. */
  lemma NoPersonDetected(num: Numerics, width: nat, height: nat, side: string, fmt: real -> string)
    requires AcosInRange(num.acosDegrees)
    ensures var plan := RequestPlan(num, None, width, height, side, fmt);
      |plan| == 5 &&
      plan == [Text(Point(11, 11), NotAvailable, Black), Text(Point(11, 9), NotAvailable, Black),
               Text(Point(9, 11), NotAvailable, Black), Text(Point(9, 9), NotAvailable, Black),
               Text(Point(10, 10), NotAvailable, White)]
  {
    var positions: map<string, Point> := map[];
    assert SkeletonLines(positions) == [];
    assert Markers(positions) == [];
  }

  /** A detected pose: the shoulder-elbow and shoulder-hip lines, the red, green and blue
      markers, then the five label passes anchored beside the shoulder. */
  lemma PoseDetected(num: Numerics, lm: LandmarkSet, width: nat, height: nat, side: string, fmt: real -> string)
    requires AcosInRange(num.acosDegrees)
    requires Complete(lm)
    ensures var plan := RequestPlan(num, Some(lm), width, height, side, fmt);
      var s := LandmarkToPixel(lm[SideLandmark(side, Shoulder)], width, height);
      var e := LandmarkToPixel(lm[SideLandmark(side, Elbow)], width, height);
      var h := LandmarkToPixel(lm[SideLandmark(side, Hip)], width, height);
      |plan| == 10 &&
      plan[..5] == [Line(s, e, LineWidth), Line(s, h, LineWidth),
                    Ellipse(MarkerBox(s), Red), Ellipse(MarkerBox(e), Green), Ellipse(MarkerBox(h), Blue)] &&
      plan[9] == Text(Point(s.x + 10, s.y - 30), AngleText(CalculateAngle(num, e, s, h), fmt), White)
  {
    var r := ComputeShoulderAngle(num, Some(lm), width, height, side);
    var m := r.1;
    assert m["shoulder"] == m[Key(Shoulder)];
    assert m["elbow"] == m[Key(Elbow)];
    assert m["hip"] == m[Key(Hip)];
    assert "shoulder" in m && "elbow" in m && "hip" in m;
    assert |SkeletonLines(m)| == 2;
    assert |Markers(m)| == 3;
  }
}
