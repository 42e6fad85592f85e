/** The drawing done by `annotate_image_pil` in utils/pose_utils.py.

    The image being annotated is a `Canvas` holding the sequence of draw commands issued on
    it so far; rasterising those commands is left to the imaging library. `Plan` states the
    full command sequence the annotation produces, and the lemmas below state what that
    sequence contains and in which order. */
module Annotation {

  import opened Wrappers
  import opened Geometry

  datatype Colour = Rgb(red: int, green: int, blue: int)

  const Red := Rgb(255, 0, 0)
  const Green := Rgb(0, 255, 0)
  const Blue := Rgb(0, 0, 255)
  const Black := Rgb(0, 0, 0)
  const White := Rgb(255, 255, 255)

  /** A bounding box [left, top, right, bottom] as handed to `draw.ellipse`. */
  datatype Box = Box(left: int, top: int, right: int, bottom: int)

  /** The three kinds of drawing call. A line is drawn in the library's default ink. */
  datatype DrawCommand =
    | Line(p: Point, q: Point, width: int)
    | Ellipse(box: Box, fill: Colour)
    | Text(pos: Point, text: string, fill: Colour)

  const LineWidth := 4
  const MarkerRadius := 6

  /** The diagonal offsets of the dark outline passes, in drawing order. */
  const OutlineOffsets: seq<Point> := [Point(1, 1), Point(1, -1), Point(-1, 1), Point(-1, -1)]

  /** The mis-decoded degree sign that ends a numeric label: U+00C2 followed by U+00B0. */
  const DegreeSuffix: string := "\U{00C2}\U{00B0}"

  const LabelPrefix: string := "Angle: "
  const NotAvailable: string := "Angle: N/A"

  /** The label text. The one-decimal rendering of the angle is the caller-supplied `fmt`. */
  function AngleText(angle: Option<real>, fmt: real -> string): (t: string)
    ensures t == NotAvailable <==> angle.None?
    ensures |t| >= |LabelPrefix| && t[..|LabelPrefix|] == LabelPrefix
  {
    match angle
    case None => NotAvailable
    case Some(v) =>
      var t := LabelPrefix + fmt(v) + DegreeSuffix;
      assert t[|t| - 1] == '\U{00B0}' != NotAvailable[|NotAvailable| - 1];
      t
  }

  /** The filled-circle box of radius `MarkerRadius` around a joint. */
  function MarkerBox(p: Point): (b: Box)
    ensures b.right - b.left == 2 * MarkerRadius && b.bottom - b.top == 2 * MarkerRadius
    ensures Point((b.left + b.right) / 2, (b.top + b.bottom) / 2) == p
  {
    Box(p.x - MarkerRadius, p.y - MarkerRadius, p.x + MarkerRadius, p.y + MarkerRadius)
  }

  /** The marker colour of each joint key. */
  function MarkerColour(key: string): Colour {
    if key == "shoulder" then Red else if key == "elbow" then Green else Blue
  }

  /** Where the label goes: 10 pixels right of and 30 above the shoulder, or (10, 10). */
  function LabelAnchor(positions: map<string, Point>): Point {
    if "shoulder" in positions then
      var s := positions["shoulder"];
      Point(s.x + 10, s.y - 30)
    else Point(10, 10)
  }

  // ---------------------------------------------------------------------------
  // The command sequence the annotation issues

  function Translate(p: Point, o: Point): Point {
    Point(p.x + o.x, p.y + o.y)
  }

  function SkeletonLines(positions: map<string, Point>): seq<DrawCommand> {
    (if "shoulder" in positions && "elbow" in positions
     then [Line(positions["shoulder"], positions["elbow"], LineWidth)] else []) +
    (if "shoulder" in positions && "hip" in positions
     then [Line(positions["shoulder"], positions["hip"], LineWidth)] else [])
  }

  function Marker(positions: map<string, Point>, key: string): seq<DrawCommand> {
    if key in positions then [Ellipse(MarkerBox(positions[key]), MarkerColour(key))] else []
  }

  function Markers(positions: map<string, Point>): seq<DrawCommand> {
    Marker(positions, "shoulder") + Marker(positions, "elbow") + Marker(positions, "hip")
  }

  function OutlinePasses(anchor: Point, text: string): seq<DrawCommand> {
    seq(|OutlineOffsets|, i requires 0 <= i < |OutlineOffsets| =>
      Text(Translate(anchor, OutlineOffsets[i]), text, Black))
  }

  function LabelPasses(anchor: Point, text: string): seq<DrawCommand> {
    OutlinePasses(anchor, text) + [Text(anchor, text, White)]
  }

  /** Every command `annotate_image_pil` issues, in order. */
  function Plan(angle: Option<real>, positions: map<string, Point>, fmt: real -> string): seq<DrawCommand> {
    SkeletonLines(positions) + Markers(positions) +
    LabelPasses(LabelAnchor(positions), AngleText(angle, fmt))
  }

  // ---------------------------------------------------------------------------
  // The image being annotated

  class Canvas {
    const width: nat
    const height: nat
    /** The draw calls made on this image so far, oldest first. */
    var commands: seq<DrawCommand>

    constructor (width: nat, height: nat)
      ensures this.width == width && this.height == height
      ensures commands == []
    {
      this.width := width;
      this.height := height;
      commands := [];
    }

    method DrawLine(p: Point, q: Point, lineWidth: int)
      modifies this
      ensures commands == old(commands) + [Line(p, q, lineWidth)]
    {
      commands := commands + [Line(p, q, lineWidth)];
    }

    method DrawEllipse(box: Box, fill: Colour)
      modifies this
      ensures commands == old(commands) + [Ellipse(box, fill)]
    {
      commands := commands + [Ellipse(box, fill)];
    }

    method DrawText(pos: Point, text: string, fill: Colour)
      modifies this
      ensures commands == old(commands) + [Text(pos, text, fill)]
    {
      commands := commands + [Text(pos, text, fill)];
    }
  }

  /** The two skeleton lines, each drawn only when both of its endpoints are present. */
  method DrawSkeleton(im: Canvas, positions: map<string, Point>)
    modifies im
    ensures im.commands == old(im.commands) + SkeletonLines(positions)
  {
    if "shoulder" in positions && "elbow" in positions {
      im.DrawLine(positions["shoulder"], positions["elbow"], LineWidth);
    }
    if "shoulder" in positions && "hip" in positions {
      im.DrawLine(positions["shoulder"], positions["hip"], LineWidth);
    }
  }

  /** One filled circle per present joint: shoulder, then elbow, then hip. */
  method DrawMarkers(im: Canvas, positions: map<string, Point>)
    modifies im
    ensures im.commands == old(im.commands) + Markers(positions)
  {
    if "shoulder" in positions {
      im.DrawEllipse(MarkerBox(positions["shoulder"]), Red);
    }
    if "elbow" in positions {
      im.DrawEllipse(MarkerBox(positions["elbow"]), Green);
    }
    if "hip" in positions {
      im.DrawEllipse(MarkerBox(positions["hip"]), Blue);
    }
  }

  /** The dark outline passes around the anchor, then the light pass on it. */
  method DrawLabel(im: Canvas, anchor: Point, text: string)
    modifies im
    ensures im.commands == old(im.commands) + LabelPasses(anchor, text)
  {
    var x, y := anchor.x, anchor.y;
    for i := 0 to |OutlineOffsets|
      invariant im.commands == old(im.commands) + OutlinePasses(anchor, text)[..i]
    {
      var o := OutlineOffsets[i];
      im.DrawText(Point(x + o.x, y + o.y), text, Black);
    }
    im.DrawText(anchor, text, White);
  }

  /** `annotate_image_pil`: a new image of the given size on which the skeleton lines, the
      joint markers and the outlined label have been drawn, exactly as `Plan` lists them. */
  method AnnotateImage(width: nat, height: nat, angle: Option<real>, positions: map<string, Point>,
                       fmt: real -> string)
    returns (im: Canvas)
    ensures fresh(im) && im.width == width && im.height == height
    ensures im.commands == Plan(angle, positions, fmt)
  {
    im := new Canvas(width, height);
    DrawSkeleton(im, positions);
    DrawMarkers(im, positions);

    DrawLabel(im, LabelAnchor(positions), AngleText(angle, fmt));
  }

  // ---------------------------------------------------------------------------
  // What the plan contains

  /** 0 for lines, 1 for markers, 2 for label passes. */
  function Rank(c: DrawCommand): nat {
    match c
    case Line(_, _, _) => 0
    case Ellipse(_, _) => 1
    case Text(_, _, _) => 2
  }

  /** All lines come before all markers, and all markers before every label pass. */
  lemma {:induction false} PlanOrdered(angle: Option<real>, positions: map<string, Point>, fmt: real -> string)
    ensures var plan := Plan(angle, positions, fmt);
      forall i, j :: 0 <= i < j < |plan| ==> Rank(plan[i]) <= Rank(plan[j])
  {
    var lines, markers := SkeletonLines(positions), Markers(positions);
    var passes := LabelPasses(LabelAnchor(positions), AngleText(angle, fmt));
    var plan := Plan(angle, positions, fmt);
    assert plan == lines + markers + passes;
    assert forall k :: 0 <= k < |lines| ==> lines[k].Line?;
    assert forall k :: 0 <= k < |markers| ==> markers[k].Ellipse?;
    assert forall k :: 0 <= k < |passes| ==> passes[k].Text?;
    forall i, j | 0 <= i < j < |plan| ensures Rank(plan[i]) <= Rank(plan[j]) {
      if i < |lines| {
        assert plan[i] == lines[i];
      } else if i < |lines| + |markers| {
        assert plan[i] == markers[i - |lines|];
        assert plan[j] == (markers + passes)[j - |lines|];
      } else {
        assert plan[i] == passes[i - |lines| - |markers|];
        assert plan[j] == passes[j - |lines| - |markers|];
      }
    }
  }

  /** A skeleton line joins the shoulder to the elbow or to the hip, with width 4, and each of
      the two is drawn exactly when both of its endpoints are present. */
  lemma PlanLines(angle: Option<real>, positions: map<string, Point>, fmt: real -> string)
    ensures var plan := Plan(angle, positions, fmt);
      forall c :: c in plan && c.Line? ==>
        c.width == LineWidth && "shoulder" in positions && c.p == positions["shoulder"] &&
        (("elbow" in positions && c.q == positions["elbow"]) || ("hip" in positions && c.q == positions["hip"]))
    ensures var plan := Plan(angle, positions, fmt);
      "shoulder" in positions && "elbow" in positions ==>
        Line(positions["shoulder"], positions["elbow"], LineWidth) in plan
    ensures var plan := Plan(angle, positions, fmt);
      "shoulder" in positions && "hip" in positions ==>
        Line(positions["shoulder"], positions["hip"], LineWidth) in plan
    ensures |SkeletonLines(positions)| ==
      (if "shoulder" in positions && "elbow" in positions then 1 else 0) +
      (if "shoulder" in positions && "hip" in positions then 1 else 0)
  {
    var plan := Plan(angle, positions, fmt);
    var lines, markers := SkeletonLines(positions), Markers(positions);
    var passes := LabelPasses(LabelAnchor(positions), AngleText(angle, fmt));
    assert plan == lines + (markers + passes);
    assert forall c :: c in markers + passes ==> Rank(c) != 0;
  }

  /** Each joint has its marker, a radius-6 circle in the joint's own colour, exactly when its
      position is present: red for the shoulder, green for the elbow, blue for the hip. */
  lemma PlanMarkers(angle: Option<real>, positions: map<string, Point>, fmt: real -> string, key: string)
    requires key in {"shoulder", "elbow", "hip"}
    ensures key == "shoulder" ==> MarkerColour(key) == Red
    ensures key == "elbow" ==> MarkerColour(key) == Green
    ensures key == "hip" ==> MarkerColour(key) == Blue
    ensures var plan := Plan(angle, positions, fmt);
      key in positions ==> Ellipse(MarkerBox(positions[key]), MarkerColour(key)) in plan
    ensures var plan := Plan(angle, positions, fmt);
      key !in positions ==> forall c :: c in plan && c.Ellipse? ==> c.fill != MarkerColour(key)
  {
    var plan := Plan(angle, positions, fmt);
    var passes := LabelPasses(LabelAnchor(positions), AngleText(angle, fmt));
    assert plan == SkeletonLines(positions) + Markers(positions) + passes;
    assert forall c :: c in SkeletonLines(positions) + passes ==> Rank(c) != 1;
  }

  /** The five label passes written out. */
  lemma LabelPassesSpelledOut(a: Point, t: string)
    ensures LabelPasses(a, t) ==
      [Text(Point(a.x + 1, a.y + 1), t, Black), Text(Point(a.x + 1, a.y - 1), t, Black),
       Text(Point(a.x - 1, a.y + 1), t, Black), Text(Point(a.x - 1, a.y - 1), t, Black),
       Text(a, t, White)]
  {
    var outline := OutlinePasses(a, t);
    assert |outline| == 4;
    assert outline[0] == Text(Point(a.x + 1, a.y + 1), t, Black);
    assert outline[1] == Text(Point(a.x + 1, a.y - 1), t, Black);
    assert outline[2] == Text(Point(a.x - 1, a.y + 1), t, Black);
    assert outline[3] == Text(Point(a.x - 1, a.y - 1), t, Black);
  }

  /** The label closes the plan: four black passes at the diagonal offsets (1,1), (1,-1),
      (-1,1), (-1,-1) of the anchor, in that order, then the white pass at the anchor itself,
      which is the last command. Every text command carries the angle label. */
  lemma PlanLabel(angle: Option<real>, positions: map<string, Point>, fmt: real -> string)
    ensures var plan := Plan(angle, positions, fmt);
      var a, t := LabelAnchor(positions), AngleText(angle, fmt);
      |plan| >= 5 &&
      plan[|plan| - 5..] == [Text(Point(a.x + 1, a.y + 1), t, Black), Text(Point(a.x + 1, a.y - 1), t, Black),
                             Text(Point(a.x - 1, a.y + 1), t, Black), Text(Point(a.x - 1, a.y - 1), t, Black),
                             Text(a, t, White)]
    ensures var plan := Plan(angle, positions, fmt);
      forall c :: c in plan && c.Text? ==> c.text == AngleText(angle, fmt)
  {
    var plan := Plan(angle, positions, fmt);
    var a, t := LabelAnchor(positions), AngleText(angle, fmt);
    var prefix := SkeletonLines(positions) + Markers(positions);
    var passes := LabelPasses(a, t);
    LabelPassesSpelledOut(a, t);
    assert plan == prefix + passes;
    assert plan[|plan| - 5..] == passes;
    assert forall c :: c in prefix ==> Rank(c) != 2;
    assert forall c :: c in passes ==> c.text == t;
  }

  /** The label's final white pass sits 10 pixels right of and 30 above the shoulder when the
      shoulder is present, and at (10, 10) otherwise. */
  lemma PlanLabelAnchor(angle: Option<real>, positions: map<string, Point>, fmt: real -> string)
    ensures var plan := Plan(angle, positions, fmt);
      |plan| >= 1 && plan[|plan| - 1].Text? && plan[|plan| - 1].fill == White &&
      ("shoulder" in positions ==>
        plan[|plan| - 1].pos == Point(positions["shoulder"].x + 10, positions["shoulder"].y - 30)) &&
      ("shoulder" !in positions ==> plan[|plan| - 1].pos == Point(10, 10))
  {
    PlanLabel(angle, positions, fmt);
    var plan := Plan(angle, positions, fmt);
    assert plan[|plan| - 1] == plan[|plan| - 5..][4];
  }
}
