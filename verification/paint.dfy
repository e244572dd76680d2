/**
 * The preview that the screenshot widget's `paint` strokes while a drag is
 * in progress: the selection or annotation shape between the first and the
 * current pointer position. Every stroke is BORDER_WIDTH wide; the shapes
 * are in widget coordinates for the capture window and, apart from the
 * rectangle (which adds the recorded centring offsets), in the recorded
 * coordinates otherwise.
 */
module WidgetPaint {
  import opened Wrappers
  import opened Casts
  import opened Geometry
  import opened Raster
  import opened Session
  import opened ScreenshotWidget

  /** The shapes the preview strokes. */
  datatype Shape =
    | RectOutline(x0: real, y0: real, x1: real, y1: real)
    | CircleOutline(circle: CircleParams)
    | LineOutline(seg: Segment)

  datatype Stroke = Stroke(shape: Shape, color: Rgba)

  /** `Color::rgb8`: the colour with full opacity. */
  function Opaque(c: Rgba): Rgba {
    Rgba(c.r, c.g, c.b, 255)
  }

  /** The selection outline colour. */
  const White: Rgba := Rgba(255, 255, 255, 255)

  /** One line stroke per segment, in order, all in the same colour. */
  function LineStrokes(segs: seq<Segment>, color: Rgba): (r: seq<Stroke>)
    ensures |r| == |segs|
    ensures forall i :: 0 <= i < |segs| ==> r[i] == Stroke(LineOutline(segs[i]), color)
  {
    if |segs| == 0 then [] else [Stroke(LineOutline(segs[0]), color)] + LineStrokes(segs[1..], color)
  }

  /**
   * The outline of the spanned rectangle. On the edit window the first
   * recorded offset is added to its top-left corner and the last one to its
   * bottom-right corner.
   */
  function PreviewRect(firstScreen: bool, ps: seq<Point>, offsets: seq<Point>): Shape
    requires |ps| > 0 && (firstScreen || |offsets| > 0)
  {
    var r := MakeRectangleFromPoints(ps).value;
    if firstScreen then RectOutline(r.minX, r.minY, r.maxX, r.maxY)
    else
      var o0, o1 := offsets[0], offsets[|offsets| - 1];
      RectOutline(r.minX + o0.x, r.minY + o0.y, r.maxX + o1.x, r.maxY + o1.y)
  }

  /** The circle through the corners of the truncated spanned rectangle. */
  function PreviewCircle(ps: seq<Point>, m: Libm): CircleParams
    requires |ps| > 0
  {
    var r := MakeRectangleFromPoints(ps).value;
    CircleCenterRadius(TruncToInt(r.minX), TruncToInt(r.minY), TruncToInt(r.maxX), TruncToInt(r.maxY), m)
  }

  /** The text caret: a vertical line, `textSize` long, down from the last click. */
  function Caret(ps: seq<Point>, textSize: real): Segment
    requires |ps| > 0
  {
    Segment(Last(ps), Point(Last(ps).x, Last(ps).y + textSize))
  }

  /**
   * Reference definition of the preview: nothing without a drag; otherwise
   * the shape of the selected tool. The selection rectangle is white, every
   * other shape has the chosen colour; the highlighter has no preview.
   */
  function PreviewStrokes(kind: Annotation, firstScreen: bool, ps: seq<Point>, offsets: seq<Point>,
                          color: Rgba, textSize: real, m: Libm): seq<Stroke>
    requires firstScreen || |ps| <= |offsets|
  {
    if |ps| == 0 then []
    else
      match kind
      case None => [Stroke(PreviewRect(firstScreen, ps, offsets), White)]
      case Rectangle => [Stroke(PreviewRect(firstScreen, ps, offsets), Opaque(color))]
      case Circle => [Stroke(CircleOutline(PreviewCircle(ps, m)), Opaque(color))]
      case Line => LineStrokes([Segment(First(ps), Last(ps))], Opaque(color))
      case Cross => LineStrokes(CrossSegments(ps), Opaque(color))
      case FreeLine => LineStrokes(Polyline(ps), Opaque(color))
      case Highlighter => []
      case Arrow =>
        if ArrowDefined(ps, m) then
          var a := ComputeArrowPoints(ps, m).value;
          LineStrokes([a.main, a.wing0, a.wing1], Opaque(color))
        else LineStrokes([Segment(First(ps), Last(ps))], Opaque(color))
      case Text => [Stroke(LineOutline(Caret(ps, textSize)), Opaque(color))]
  }

  /**
   * `paint`: the strokes for the session's current drag. The free line is
   * stroked one segment at a time, as the source's loop does.
   */
  method Paint(data: GrabData, m: Libm) returns (strokes: seq<Stroke>)
    requires data.firstScreen || |data.positions| <= |data.offsets|
    ensures strokes == PreviewStrokes(data.annotation, data.firstScreen, data.positions, data.offsets,
                                      data.color, data.textSize, m)
  {
    var ps := data.positions;
    if |ps| == 0 || data.annotation != FreeLine {
      return PreviewStrokes(data.annotation, data.firstScreen, ps, data.offsets, data.color, data.textSize, m);
    }
    var color := Opaque(data.color);
    strokes := [];
    for i := 0 to |ps| - 1
      invariant strokes == LineStrokes(Polyline(ps)[..i], color)
    {
      var segs := Polyline(ps);
      assert segs[..i + 1] == segs[..i] + [Segment(ps[i], ps[i + 1])];
      LineStrokesConcat(segs[..i], [Segment(ps[i], ps[i + 1])], color);
      strokes := strokes + [Stroke(LineOutline(Segment(ps[i], ps[i + 1])), color)];
    }
    assert Polyline(ps)[..|ps| - 1] == Polyline(ps);
  }

  lemma {:induction false} LineStrokesConcat(a: seq<Segment>, b: seq<Segment>, color: Rgba)
    ensures LineStrokes(a + b, color) == LineStrokes(a, color) + LineStrokes(b, color)
  {
    var l, r := LineStrokes(a + b, color), LineStrokes(a, color) + LineStrokes(b, color);
    forall i | 0 <= i < |l|
      ensures l[i] == r[i]
    {
      if i < |a| {
        assert (a + b)[i] == a[i];
      } else {
        assert (a + b)[i] == b[i - |a|];
      }
    }
  }

  /** The line segments a preview strokes, in order. */
  function StrokedSegments(strokes: seq<Stroke>): (r: seq<Segment>)
  {
    if |strokes| == 0 then []
    else if strokes[0].shape.LineOutline? then [strokes[0].shape.seg] + StrokedSegments(strokes[1..])
    else StrokedSegments(strokes[1..])
  }

  /** The line segments a list of marks draws on the image, in order. */
  function DrawnSegments(marks: seq<Mark>): (r: seq<Segment>)
  {
    if |marks| == 0 then []
    else if marks[0].LineSegment? then [Segment(marks[0].from, marks[0].to)] + DrawnSegments(marks[1..])
    else DrawnSegments(marks[1..])
  }

  lemma {:induction false} StrokedLineStrokes(segs: seq<Segment>, color: Rgba)
    ensures StrokedSegments(LineStrokes(segs, color)) == segs
  {
    if |segs| > 0 {
      var s := LineStrokes(segs, color);
      assert s[1..] == LineStrokes(segs[1..], color);
      StrokedLineStrokes(segs[1..], color);
      assert segs == [segs[0]] + segs[1..];
    }
  }

  lemma {:induction false} DrawnSegmentMarks(segs: seq<Segment>, color: Rgba)
    ensures DrawnSegments(SegmentMarks(segs, color)) == segs
  {
    if |segs| > 0 {
      var s := SegmentMarks(segs, color);
      assert s[1..] == SegmentMarks(segs[1..], color);
      DrawnSegmentMarks(segs[1..], color);
      assert segs == [segs[0]] + segs[1..];
    }
  }

  /**
   * For the line-based tools the preview shows exactly the segments that
   * releasing the button draws on the image (on the edit window, where
   * annotations are committed).
   */
  lemma PreviewMatchesCommit(kind: Annotation, ps: seq<Point>, offsets: seq<Point>, b: Bounds,
                             color: Rgba, textSize: real, m: Libm)
    requires |ps| > 0 && |ps| <= |offsets|
    requires kind == Line || kind == Cross || kind == FreeLine || kind == Arrow
    ensures StrokedSegments(PreviewStrokes(kind, false, ps, offsets, color, textSize, m)) ==
            DrawnSegments(AnnotationMarks(kind, ps, b, color, m))
  {
    var segs :=
      if kind == Line then [Segment(First(ps), Last(ps))]
      else if kind == Cross then CrossSegments(ps)
      else if kind == FreeLine then Polyline(ps)
      else if ArrowDefined(ps, m) then
        var a := ComputeArrowPoints(ps, m).value;
        [a.main, a.wing0, a.wing1]
      else [Segment(First(ps), Last(ps))];
    assert PreviewStrokes(kind, false, ps, offsets, color, textSize, m) == LineStrokes(segs, Opaque(color));
    assert AnnotationMarks(kind, ps, b, color, m) == SegmentMarks(segs, color);
    StrokedLineStrokes(segs, Opaque(color));
    DrawnSegmentMarks(segs, color);
  }

  /**
   * On the capture window a drag whose ends differ on both axes is
   * outlined in white by the rectangle they span, corners normalised.
   */
  lemma SelectionOutlineSpansDrag(ps: seq<Point>, offsets: seq<Point>, color: Rgba, textSize: real, m: Libm)
    requires |ps| > 0 && StrictlyApart(First(ps), Last(ps))
    ensures var r := SpannedRect(First(ps), Last(ps));
      PreviewStrokes(Annotation.None, true, ps, offsets, color, textSize, m) ==
        [Stroke(RectOutline(r.minX, r.minY, r.maxX, r.maxY), White)] &&
      r.minX < r.maxX && r.minY < r.maxY
  {
  }

  /**
   * On the edit window, while the widget keeps its size (every recorded
   * offset is `off`), the outline is the spanned rectangle moved by `off`.
   */
  lemma EditOutlineShiftedByOffset(kind: Annotation, ps: seq<Point>, off: Point, offsets: seq<Point>,
                                   color: Rgba, textSize: real, m: Libm)
    requires |ps| > 0 && |ps| <= |offsets| && (kind == Annotation.None || kind == Rectangle)
    requires forall i :: 0 <= i < |offsets| ==> offsets[i] == off
    ensures var r := MakeRectangleFromPoints(ps).value;
      var s := PreviewStrokes(kind, false, ps, offsets, color, textSize, m);
      |s| == 1 && s[0].shape == RectOutline(r.minX + off.x, r.minY + off.y, r.maxX + off.x, r.maxY + off.y) &&
      s[0].color == (if kind == Annotation.None then White else Opaque(color))
  {
  }

  /** The circle preview passes through the four corners of the truncated rectangle. */
  lemma CirclePreviewThroughCorners(ps: seq<Point>, offsets: seq<Point>, firstScreen: bool,
                                    color: Rgba, textSize: real, m: Libm)
    requires |ps| > 0 && (firstScreen || |ps| <= |offsets|)
    requires var r := MakeRectangleFromPoints(ps).value;
      SqrtAt(m, DiagonalSquared(TruncToInt(r.minX), TruncToInt(r.minY), TruncToInt(r.maxX), TruncToInt(r.maxY)))
    ensures var r := MakeRectangleFromPoints(ps).value;
      var x0, y0, x1, y1 := TruncToInt(r.minX) as real, TruncToInt(r.minY) as real,
                            TruncToInt(r.maxX) as real, TruncToInt(r.maxY) as real;
      var s := PreviewStrokes(Circle, firstScreen, ps, offsets, color, textSize, m);
      |s| == 1 && s[0].shape.CircleOutline? &&
      OnCircle(s[0].shape.circle, x0, y0) && OnCircle(s[0].shape.circle, x1, y0) &&
      OnCircle(s[0].shape.circle, x0, y1) && OnCircle(s[0].shape.circle, x1, y1)
  {
    var r := MakeRectangleFromPoints(ps).value;
    CircleThroughCorners(TruncToInt(r.minX), TruncToInt(r.minY), TruncToInt(r.maxX), TruncToInt(r.maxY), m);
  }

  /** The text caret hangs straight down from the last click and is as long as the text size. */
  lemma CaretLength(ps: seq<Point>, offsets: seq<Point>, firstScreen: bool, color: Rgba, textSize: real, m: Libm)
    requires |ps| > 0 && (firstScreen || |ps| <= |offsets|)
    ensures var s := PreviewStrokes(Text, firstScreen, ps, offsets, color, textSize, m);
      |s| == 1 && s[0].shape.LineOutline? &&
      s[0].shape.seg.from == Last(ps) && s[0].shape.seg.to.x == Last(ps).x &&
      s[0].shape.seg.to.y - Last(ps).y == textSize &&
      SquaredDistance(s[0].shape.seg.to, s[0].shape.seg.from) == Sq(textSize)
  {
    var c := Caret(ps, textSize);
    assert c.to.x - c.from.x == 0.0 && c.to.y - c.from.y == textSize;
  }
}
