/**
 * The screenshot widget: how pointer events drive the session. On the
 * capture window a drag selects a rectangle that is captured from the
 * monitor when the button is released; on the edit window a drag draws the
 * selected annotation (or, with no annotation, crops), and the result is
 * stored as the new image. `paint` shows a preview of the shape being
 * dragged.
 *
 * The values of BORDER_WIDTH, BUTTON_WIDTH, LIMIT_PROPORTION and
 * SCALE_FACTOR are kept in a `Constants` parameter; the monitor list, the
 * display scale and the maths library are parameters too.
 */
module ScreenshotWidget {
  import opened Wrappers
  import opened Casts
  import opened Geometry
  import opened Raster
  import opened Session

  datatype Constants = Constants(borderWidth: real, buttonWidth: real, limitProportion: real, scaleFactor: real)

  predicate ValidConstants(c: Constants) {
    c.borderWidth >= 0.0 && c.buttonWidth >= 0.0 && c.limitProportion > 0.0 && c.scaleFactor > 0.0
  }

  /** The window opened once the button is released. */
  datatype Window = SelectionWindow | EditWindow | NoWindow

  /** How a button release ended. */
  datatype Outcome =
    | NoSelection
    | MonitorMissing
    | CannotCropFurther
    | Committed(width: nat, height: nat, window: Window)

  /** The selection rectangle in integer pixels. */
  datatype Bounds = Bounds(minX: int, minY: int, maxX: int, maxY: int)

  /**
   * The selection in pixels: on the capture window the rectangle is scaled
   * by the display scale before `as i32`; on the edit window it is already
   * in image pixels and is only truncated.
   */
  function SelectionBounds(r: Rect, firstScreen: bool, dpiX: real, dpiY: real): Bounds
  {
    TruncatedBounds(if firstScreen then ScaledRect(r, dpiX, dpiY) else r)
  }

  /** The rectangle in physical pixels at display scale (dpiX, dpiY). */
  function ScaledRect(r: Rect, dpiX: real, dpiY: real): Rect {
    Rect(r.minX * dpiX, r.minY * dpiY, r.maxX * dpiX, r.maxY * dpiY)
  }

  /** Each corner coordinate cast with `as i32`. */
  function TruncatedBounds(r: Rect): Bounds {
    Bounds(TruncToInt(r.minX), TruncToInt(r.minY), TruncToInt(r.maxX), TruncToInt(r.maxY))
  }

  /** Truncating a normalised rectangle keeps it normalised, at any non-negative display scale. */
  lemma SelectionBoundsOrdered(r: Rect, firstScreen: bool, dpiX: real, dpiY: real)
    requires r.minX <= r.maxX && r.minY <= r.maxY && dpiX >= 0.0 && dpiY >= 0.0
    ensures var b := SelectionBounds(r, firstScreen, dpiX, dpiY);
      b.minX <= b.maxX && b.minY <= b.maxY
  {
    var s := if firstScreen then ScaledRect(r, dpiX, dpiY) else r;
    if firstScreen {
      ScaledRectOrdered(r, dpiX, dpiY);
    }
    TruncMonotone(s.minX, s.maxX);
    TruncMonotone(s.minY, s.maxY);
  }

  lemma ScaledRectOrdered(r: Rect, dpiX: real, dpiY: real)
    requires r.minX <= r.maxX && r.minY <= r.maxY && dpiX >= 0.0 && dpiY >= 0.0
    ensures var s := ScaledRect(r, dpiX, dpiY);
      s.minX <= s.maxX && s.minY <= s.maxY
  {
    ScaleMonotone(r.minX, r.maxX, dpiX);
    ScaleMonotone(r.minY, r.maxY, dpiY);
  }

  lemma ScaleMonotone(a: real, b: real, k: real)
    requires a <= b && k >= 0.0
    ensures a * k <= b * k
  {
    assert b * k - a * k == (b - a) * k;
  }

  /**
   * The area handed to `capture_area`: the selection without the border
   * drawn around it. The width and height are i32 differences cast with
   * `as u32`, so a selection thinner than two borders wraps around.
   */
  function CaptureRegion(b: Bounds, borderWidth: real): (area: Region)
    ensures var bw := TruncToInt(borderWidth);
      area.x == b.minX + bw && area.y == b.minY + bw &&
      (b.maxX - b.minX >= 2 * bw && b.maxX - b.minX - 2 * bw < U32_MODULUS ==> area.x + area.width == b.maxX - bw) &&
      (b.maxY - b.minY >= 2 * bw && b.maxY - b.minY - 2 * bw < U32_MODULUS ==> area.y + area.height == b.maxY - bw)
    ensures var bw := TruncToInt(borderWidth);
      (-U32_MODULUS <= b.maxX - b.minX - 2 * bw < 0 ==> area.width == U32_MODULUS + (b.maxX - b.minX - 2 * bw)) &&
      (-U32_MODULUS <= b.maxY - b.minY - 2 * bw < 0 ==> area.height == U32_MODULUS + (b.maxY - b.minY - 2 * bw))
  {
    var bw := TruncToInt(borderWidth);
    Region(b.minX + bw, b.minY + bw, AsU32(b.maxX - (b.minX + 2 * bw)), AsU32(b.maxY - (b.minY + 2 * bw)))
  }

  /** A drag from (100, 100) to (500, 400) with a 2-pixel border captures the 396 x 296 pixels inside it. */
  lemma CaptureRegionExample()
    ensures CaptureRegion(Bounds(100, 100, 500, 400), 2.0) == Region(102, 102, 396, 296)
  {
  }

  /** The selection of a drag on the edit window, in image pixels. */
  function EditBounds(ps: seq<Point>): Bounds
    requires |ps| > 0
  {
    SelectionBounds(MakeRectangleFromPoints(ps).value, false, 0.0, 0.0)
  }

  /** The selection of a drag on the capture window, in physical pixels. */
  function CaptureBounds(ps: seq<Point>, dpiX: real, dpiY: real): Bounds
    requires |ps| > 0
  {
    SelectionBounds(MakeRectangleFromPoints(ps).value, true, dpiX, dpiY)
  }

  /** The crop guard: a crop would start left of or above the image, or be empty. */
  predicate CannotCrop(b: Bounds) {
    b.minX < 0 || b.minY < 0 || b.maxX - b.minX <= 0 || b.maxY - b.minY <= 0
  }

  /** The crop of the selection, taken when the guard lets it through. */
  function CropSelection(img: Image, b: Bounds): (r: Image)
    requires !CannotCrop(b)
    ensures r.width <= img.width && r.height <= img.height
    ensures b.maxX <= img.width && b.maxY <= img.height ==>
      r.width == b.maxX - b.minX && r.height == b.maxY - b.minY
    ensures b.minX < img.width < b.maxX ==> r.width == img.width - b.minX
    ensures b.minY < img.height < b.maxY ==> r.height == img.height - b.minY
    ensures b.minX >= img.width ==> r.width == 0
    ensures b.minY >= img.height ==> r.height == 0
  {
    Crop(img, b.minX, b.minY, b.maxX - b.minX, b.maxY - b.minY)
  }

  /**
   * The zoom for an image: SCALE_FACTOR once either side reaches the
   * LIMIT_PROPORTION share of the monitor (each limit truncated to u32),
   * 1 otherwise.
   */
  function ScaleTier(width: nat, height: nat, display: DisplayInfo, cfg: Constants): (s: real)
    ensures s == cfg.scaleFactor || s == 1.0
    ensures (width >= FloatToU32(display.width as real * cfg.limitProportion) ||
             height >= FloatToU32(display.height as real * cfg.limitProportion)) ==> s == cfg.scaleFactor
    ensures (width < FloatToU32(display.width as real * cfg.limitProportion) &&
             height < FloatToU32(display.height as real * cfg.limitProportion)) ==> s == 1.0
  {
    if width >= FloatToU32(display.width as real * cfg.limitProportion) ||
       height >= FloatToU32(display.height as real * cfg.limitProportion)
    then cfg.scaleFactor
    else 1.0
  }

  /** An image at least as large as one that gets SCALE_FACTOR gets it too. */
  lemma ScaleTierMonotone(w1: nat, h1: nat, w2: nat, h2: nat, display: DisplayInfo, cfg: Constants)
    requires w1 <= w2 && h1 <= h2
    requires ScaleTier(w1, h1, display, cfg) == cfg.scaleFactor != 1.0
    ensures ScaleTier(w2, h2, display, cfg) == cfg.scaleFactor
  {
  }

  /** The smallest width, in pixels, the window must exceed: two buttons and a margin. */
  function MinWindowWidth(buttonWidth: real): real {
    buttonWidth * 2.0 + 10.0
  }

  /** The amount the enlarging loop adds to the zoom at each step. */
  function GrowStep(buttonWidth: real, width: nat): real
    requires width > 0
  {
    MinWindowWidth(buttonWidth) / width as real
  }

  /** The zoom reached after `k` increments of `inc` from `scale`. */
  function StepScale(scale: real, inc: real, k: nat): real {
    scale + k as real * inc
  }

  /** How many steps short of MinWindowWidth the displayed width is, rounded down. */
  function Shortfall(width: nat, scale: real, buttonWidth: real): int
    requires buttonWidth >= 0.0
  {
    ((MinWindowWidth(buttonWidth) - width as real * scale) / MinWindowWidth(buttonWidth)).Floor
  }

  /** Each step of the enlarging loop brings the displayed width one step closer to the limit. */
  lemma ShortfallShrinks(width: nat, scale: real, buttonWidth: real)
    requires width > 0 && buttonWidth >= 0.0
    requires width as real * scale <= MinWindowWidth(buttonWidth)
    ensures 0 <= Shortfall(width, scale, buttonWidth)
    ensures Shortfall(width, scale + GrowStep(buttonWidth, width), buttonWidth) == Shortfall(width, scale, buttonWidth) - 1
  {
    var limit := MinWindowWidth(buttonWidth);
    var inc := GrowStep(buttonWidth, width);
    var before := limit - width as real * scale;
    assert Shortfall(width, scale, buttonWidth) == (before / limit).Floor;
    assert width as real * inc == limit;
    assert limit - width as real * (scale + inc) == before - limit;
    assert Shortfall(width, scale + inc, buttonWidth) == ((before - limit) / limit).Floor;
    ShiftQuotient(before, limit);
  }

  /**
   * The zoom the enlarging loop settles on: the first of scale, scale + step,
   * scale + 2 step, ... at which an image `width` pixels wide is wider than
   * MinWindowWidth.
   */
  function GrownScale(width: nat, scale: real, buttonWidth: real): (r: real)
    requires width > 0 && buttonWidth >= 0.0
    ensures r >= scale
    ensures width as real * r > MinWindowWidth(buttonWidth)
    decreases Shortfall(width, scale, buttonWidth)
  {
    if width as real * scale > MinWindowWidth(buttonWidth) then scale
    else
      ShortfallShrinks(width, scale, buttonWidth);
      GrownScale(width, scale + GrowStep(buttonWidth, width), buttonWidth)
  }

  /**
   * GrownScale is the first zoom of the sequence scale + k step whose
   * displayed width exceeds the limit.
   */
  lemma {:induction false} GrownScaleAfter(width: nat, scale: real, buttonWidth: real, steps: nat)
    requires width > 0 && buttonWidth >= 0.0
    requires forall k: nat :: k < steps ==>
      width as real * StepScale(scale, GrowStep(buttonWidth, width), k) <= MinWindowWidth(buttonWidth)
    requires width as real * StepScale(scale, GrowStep(buttonWidth, width), steps) > MinWindowWidth(buttonWidth)
    ensures GrownScale(width, scale, buttonWidth) == StepScale(scale, GrowStep(buttonWidth, width), steps)
    decreases steps
  {
    var inc := GrowStep(buttonWidth, width);
    if steps > 0 {
      var next := scale + inc;
      assert StepScale(scale, inc, 0) == scale;
      forall k: nat | k <= steps - 1
        ensures StepScale(next, inc, k) == StepScale(scale, inc, k + 1)
      {
        assert (k + 1) as real * inc == k as real * inc + inc;
      }
      GrownScaleAfter(width, next, buttonWidth, steps - 1);
    }
  }

  /** The zoom after `EnlargeToFit`: the loop does not run for an image of width zero. */
  function FitScale(width: nat, scale: real, buttonWidth: real): (r: real)
    requires buttonWidth >= 0.0
    ensures r >= scale
    ensures width > 0 ==> width as real * r > MinWindowWidth(buttonWidth)
    ensures width == 0 ==> r == scale
  {
    if width > 0 then GrownScale(width, scale, buttonWidth) else scale
  }

  /**
   * The loop that enlarges small images: the zoom grows by MinWindowWidth /
   * width until the displayed width exceeds MinWindowWidth. The result is
   * the first zoom of that sequence that does.
   */
  method GrowScaleFactor(width: nat, scale: real, buttonWidth: real) returns (r: real, ghost steps: nat)
    requires width > 0 && buttonWidth >= 0.0
    ensures r == GrownScale(width, scale, buttonWidth)
    ensures r >= scale
    ensures r == StepScale(scale, GrowStep(buttonWidth, width), steps)
    ensures width as real * r > MinWindowWidth(buttonWidth)
    ensures forall k: nat :: k < steps ==>
      width as real * StepScale(scale, GrowStep(buttonWidth, width), k) <= MinWindowWidth(buttonWidth)
  {
    var limit := MinWindowWidth(buttonWidth);
    var w := width as real;
    var inc := GrowStep(buttonWidth, width);
    assert w * inc == limit;
    r := scale;
    steps := 0;
    while w * r <= limit
      invariant r == StepScale(scale, inc, steps) && r >= scale
      invariant forall k: nat :: k < steps ==> w * StepScale(scale, inc, k) <= limit
      decreases Shortfall(width, r, buttonWidth)
    {
      ShortfallShrinks(width, r, buttonWidth);
      r := r + inc;
      steps := steps + 1;
    }
    GrownScaleAfter(width, scale, buttonWidth, steps);
  }

  /** Taking one divisor away lowers the floor of a quotient by one. */
  lemma ShiftQuotient(a: real, c: real)
    requires c > 0.0
    ensures ((a - c) / c).Floor == (a / c).Floor - 1
  {
    DivideDifference(a, c);
    DivideSelf(c);
  }

  lemma DivideDifference(a: real, c: real)
    requires c > 0.0
    ensures (a - c) / c == a / c - c / c
  {
  }

  lemma DivideSelf(c: real)
    requires c > 0.0
    ensures c / c == 1.0
  {
  }

  /** The free line drawn onto the image one segment at a time, as the commit loop does. */
  method DrawFreeLine(img: Image, ps: seq<Point>, color: Rgba) returns (r: Image)
    requires |ps| > 0
    ensures r == Draw(img, SegmentMarks(Polyline(ps), color))
  {
    r := img;
    var i := 0;
    while i < |ps| - 1
      invariant 0 <= i <= |ps| - 1
      invariant r == Draw(img, SegmentMarks(Polyline(ps)[..i], color))
    {
      var segs := Polyline(ps);
      assert segs[..i + 1] == segs[..i] + [Segment(ps[i], ps[i + 1])];
      SegmentMarksConcat(segs[..i], [Segment(ps[i], ps[i + 1])], color);
      DrawConcat(img, SegmentMarks(segs[..i], color), SegmentMarks([Segment(ps[i], ps[i + 1])], color));
      r := Draw(r, [LineSegment(ps[i], ps[i + 1], color)]);
      i := i + 1;
    }
    assert Polyline(ps)[..i] == Polyline(ps);
  }

  lemma {:induction false} SegmentMarksConcat(a: seq<Segment>, b: seq<Segment>, color: Rgba)
    ensures SegmentMarks(a + b, color) == SegmentMarks(a, color) + SegmentMarks(b, color)
  {
    var l, r := SegmentMarks(a + b, color), SegmentMarks(a, color) + SegmentMarks(b, color);
    assert |l| == |r|;
    forall i | 0 <= i < |l|
      ensures l[i] == r[i]
    {
      if i < |a| {
        assert (a + b)[i] == a[i];
      } else {
        assert (a + b)[i] == b[i - |a|];
      }
    }
  }

  /** The highlighter's translucent variant of the colour. */
  function HighlighterColor(c: Rgba): Rgba {
    Rgba(c.r, c.g, c.b, 60)
  }

  /**
   * What committing annotation `kind` draws on the image, for the drag `ps`
   * whose normalised bounds are `b`. A highlighter whose drag did not move
   * and an arrow of zero length divide zero by zero in the source; the
   * model draws nothing for the former and only the shaft for the latter.
   */
  function AnnotationMarks(kind: Annotation, ps: seq<Point>, b: Bounds, color: Rgba, m: Libm): (r: seq<Mark>)
    requires |ps| > 0
    ensures kind == Annotation.None || kind == Text ==> |r| == 0
    ensures kind == Line || kind == Rectangle || kind == Circle ==> |r| == 1
    ensures kind == Cross ==> |r| == 2
    ensures kind == FreeLine ==> |r| == |ps| - 1
    ensures kind == Highlighter ==> |r| == if First(ps) == Last(ps) then 0 else 1
    ensures kind == Arrow ==> |r| == if ArrowDefined(ps, m) then 3 else 1
  {
    match kind
    case None => []
    case Text => []
    case Line => [LineSegment(First(ps), Last(ps), color)]
    case Cross => SegmentMarks(CrossSegments(ps), color)
    case FreeLine => SegmentMarks(Polyline(ps), color)
    case Rectangle => [HollowRect(b.minX, b.minY, AsU32(b.maxX - b.minX), AsU32(b.maxY - b.minY), color)]
    case Circle =>
      var c := CircleCenterRadius(b.minX, b.minY, b.maxX, b.maxY, m);
      [HollowCircle(TruncToInt(c.centerX), TruncToInt(c.centerY), TruncToInt(c.radius), color)]
    case Highlighter =>
      if First(ps) == Last(ps) then []
      else
        var q := ComputeHighlighterPoints(ps, m).value;
        [FilledPolygon(TruncatedVertices([q.p1, q.p2, q.p3, q.p4]), HighlighterColor(color))]
    case Arrow =>
      if ArrowDefined(ps, m) then
        var a := ComputeArrowPoints(ps, m).value;
        SegmentMarks([a.main, a.wing0, a.wing1], color)
      else [LineSegment(First(ps), Last(ps), color)]
  }

  /** Every drawing annotation of a moved drag draws at least one mark; only None and Text draw nothing. */
  lemma AnnotationMarksNonEmpty(kind: Annotation, ps: seq<Point>, b: Bounds, color: Rgba, m: Libm)
    requires |ps| > 1 && First(ps) != Last(ps)
    ensures |AnnotationMarks(kind, ps, b, color, m)| == 0 <==> kind == Annotation.None || kind == Text
  {
  }

  /** The annotated image stored by a commit on the edit window. */
  function Annotate(kind: Annotation, img: Image, ps: seq<Point>, b: Bounds, color: Rgba, m: Libm): (r: Image)
    requires |ps| > 0
    ensures r.width == img.width && r.height == img.height
    ensures |r.history| >= |img.history| && r.history[..|img.history|] == img.history
  {
    Draw(img, AnnotationMarks(kind, ps, b, color, m))
  }

  /** `MouseDown`: the left button starts a drag; with the text tool the click is recorded at once. */
  method MouseDown(data: GrabData, leftButton: bool, widget: Size, pointer: Point)
    requires data.Valid()
    requires data.annotation == Text ==> data.LoadImage().Some?
    modifies data
    ensures data.Valid()
    ensures data.press == (leftButton || old(data.press))
    ensures data.imageDataOld == old(data.imageDataOld) && data.imageDataNew == old(data.imageDataNew)
    ensures data.firstScreen == old(data.firstScreen) && data.scaleFactor == old(data.scaleFactor)
    ensures data.annotation == old(data.annotation) && data.textAnnotation == old(data.textAnnotation)
    ensures data.GetSettings() == old(data.GetSettings())
    ensures data.annotation != Text ==> data.positions == old(data.positions) && data.offsets == old(data.offsets)
    ensures data.annotation == Text ==>
      var img := old(data.LoadImage()).value;
      var off := CenteringOffset(widget, img.width, img.height, data.scaleFactor);
      data.offsets == old(data.offsets) + [off] &&
      data.positions == old(data.positions) + [ToImageSpace(pointer, off, data.scaleFactor)]
    ensures data.annotation == Text ==>
      ToWidgetSpace(Last(data.positions), data.offsets[|data.offsets| - 1], data.scaleFactor) == pointer
  {
    if leftButton {
      data.press := true;
    }
    if data.annotation == Text {
      data.RescaleCoordinates(widget, pointer);
    }
  }

  /**
   * `MouseMove`: while the button is held, the capture window records the
   * raw window position and the edit window the rescaled one; the text
   * tool ignores moves.
   */
  method MouseMove(data: GrabData, widget: Size, windowPos: Point, pointer: Point)
    requires data.Valid()
    modifies data
    ensures data.Valid()
    ensures data.press == old(data.press) && data.firstScreen == old(data.firstScreen)
    ensures data.imageDataOld == old(data.imageDataOld) && data.imageDataNew == old(data.imageDataNew)
    ensures data.scaleFactor == old(data.scaleFactor)
    ensures data.annotation == old(data.annotation) && data.textAnnotation == old(data.textAnnotation)
    ensures data.GetSettings() == old(data.GetSettings())
    ensures data.annotation == Text || !data.press ==>
      data.positions == old(data.positions) && data.offsets == old(data.offsets)
    ensures data.annotation != Text && data.press && data.firstScreen ==>
      data.positions == old(data.positions) + [windowPos] && data.offsets == old(data.offsets)
    ensures data.annotation != Text && data.press && !data.firstScreen ==>
      var img := old(data.LoadImage()).value;
      var off := CenteringOffset(widget, img.width, img.height, data.scaleFactor);
      data.offsets == old(data.offsets) + [off] &&
      data.positions == old(data.positions) + [ToImageSpace(pointer, off, data.scaleFactor)]
    ensures data.annotation != Text && data.press && !data.firstScreen ==>
      ToWidgetSpace(Last(data.positions), data.offsets[|data.offsets| - 1], data.scaleFactor) == pointer
  {
    if data.annotation != Text {
      if data.press && data.firstScreen {
        data.positions := data.positions + [windowPos];
      }
      if data.press && !data.firstScreen {
        data.RescaleCoordinates(widget, pointer);
      }
    }
  }

  /**
   * The capture-window half of `MouseUp`: the selection (minus its border)
   * is captured, stored as the screenshot, and the session moves on to the
   * edit stage at the zoom the image's size calls for.
   */
  method CaptureSelection(data: GrabData, screen: Screen, dpiX: real, dpiY: real, cfg: Constants)
    returns (width: nat, height: nat)
    requires data.Valid() && data.firstScreen && |data.positions| > 0 && ValidConstants(cfg)
    modifies data
    ensures var shot := CaptureArea(screen, CaptureRegion(CaptureBounds(old(data.positions), dpiX, dpiY), cfg.borderWidth));
      data.imageDataOld == Encode(shot) && width == shot.width && height == shot.height &&
      data.scaleFactor == ScaleTier(shot.width, shot.height, screen.display, cfg)
    ensures data.imageDataNew == Empty && !data.firstScreen && data.positions == []
    ensures data.press == old(data.press) && data.offsets == old(data.offsets)
    ensures data.annotation == old(data.annotation) && data.textAnnotation == old(data.textAnnotation)
    ensures data.GetSettings() == old(data.GetSettings())
    ensures data.Valid()
  {
    var b := CaptureBounds(data.positions, dpiX, dpiY);
    var shot := CaptureArea(screen, CaptureRegion(b, cfg.borderWidth));
    data.imageDataOld := Encode(shot);
    data.positions := [];
    var img := data.LoadImage().value;
    data.scaleFactor := ScaleTier(img.width, img.height, screen.display, cfg);
    width, height := img.width, img.height;
    data.imageDataOld := Encode(img);
    data.firstScreen := false;
  }

  /** What a release on the edit window makes of the current image. */
  datatype EditCommit = CropRefused | TextKept | Stored(image: Image)

  /**
   * The edit-window commit as a value: with no annotation the selection is
   * cropped, or refused when the guard trips; the text tool keeps the
   * image; every other tool draws its marks on it, at the same size.
   */
  function EditCommitOf(kind: Annotation, img: Image, ps: seq<Point>, color: Rgba, m: Libm): (c: EditCommit)
    requires |ps| > 0
    ensures c.Stored? && kind != Annotation.None ==> c.image.width == img.width && c.image.height == img.height
  {
    if kind == Annotation.None then
      if CannotCrop(EditBounds(ps)) then CropRefused else Stored(CropSelection(img, EditBounds(ps)))
    else if kind == Text then TextKept
    else Stored(Annotate(kind, img, ps, EditBounds(ps), color, m))
  }

  /**
   * The zoom after an edit commit and before enlarging: a crop recomputes
   * it from the cropped size, anything else keeps it.
   */
  function CommitScale(kind: Annotation, c: EditCommit, display: DisplayInfo, cfg: Constants, scale: real): real {
    if kind == Annotation.None && c.Stored? then ScaleTier(c.image.width, c.image.height, display, cfg) else scale
  }

  /**
   * The edit-window half of `MouseUp`. With no annotation the selection is
   * cropped (refused when the guard trips) and the zoom recomputed; the
   * text tool changes nothing; every other tool draws its marks on the
   * current image. Except for text, the drag is cleared and the result
   * stored as the new image.
   */
  method CommitAnnotation(data: GrabData, screen: Screen, cfg: Constants, m: Libm)
    returns (refused: bool, width: nat, height: nat)
    requires data.Valid() && !data.firstScreen && |data.positions| > 0 && ValidConstants(cfg)
    modifies data
    ensures data.imageDataOld == old(data.imageDataOld) && data.firstScreen == old(data.firstScreen)
    ensures data.press == old(data.press) && data.offsets == old(data.offsets)
    ensures data.annotation == old(data.annotation) && data.textAnnotation == old(data.textAnnotation)
    ensures data.GetSettings() == old(data.GetSettings())
    ensures refused ==> data.annotation == Annotation.None
    ensures !refused && data.annotation != Text ==> data.positions == [] && data.imageDataNew != Empty
    ensures var c := old(EditCommitOf(data.annotation, data.LoadImage().value, data.positions, data.color, m));
      (refused <==> c.CropRefused?) &&
      (c.CropRefused? ==>
        data.positions == [] && data.imageDataNew == old(data.imageDataNew) &&
        data.scaleFactor == old(data.scaleFactor)) &&
      (c.TextKept? ==>
        var img := old(data.LoadImage()).value;
        data.imageDataNew == old(data.imageDataNew) && data.positions == old(data.positions) &&
        width == img.width && height == img.height && data.scaleFactor == old(data.scaleFactor)) &&
      (c.Stored? ==>
        data.imageDataNew == Encode(c.image) && data.positions == [] &&
        width == c.image.width && height == c.image.height &&
        data.scaleFactor == CommitScale(data.annotation, c, screen.display, cfg, old(data.scaleFactor)))
    ensures data.Valid()
  {
    var ps := data.positions;
    var b := EditBounds(ps);
    var img := data.LoadImage().value;
    refused := false;
    var result := img;
    match data.annotation {
      case None =>
        if CannotCrop(b) {
          data.positions := [];
          refused := true;
          width, height := 0, 0;
          return;
        }
        result := CropSelection(img, b);
        data.scaleFactor := ScaleTier(result.width, result.height, screen.display, cfg);
      case Text =>
      case FreeLine =>
        result := DrawFreeLine(img, ps, data.color);
      case _ =>
        result := Annotate(data.annotation, img, ps, b, data.color, m);
    }
    width, height := result.width, result.height;
    if data.annotation != Text {
      data.positions := [];
      data.imageDataNew := Encode(result);
    }
  }

  /** Runs the enlarging loop on the session's zoom for an image `width` pixels wide. */
  method EnlargeToFit(data: GrabData, width: nat, cfg: Constants)
    requires data.Valid() && ValidConstants(cfg)
    modifies data
    ensures data.scaleFactor == FitScale(width, old(data.scaleFactor), cfg.buttonWidth)
    ensures data.imageDataOld == old(data.imageDataOld) && data.imageDataNew == old(data.imageDataNew)
    ensures data.press == old(data.press) && data.firstScreen == old(data.firstScreen)
    ensures data.positions == old(data.positions) && data.offsets == old(data.offsets)
    ensures data.annotation == old(data.annotation) && data.textAnnotation == old(data.textAnnotation)
    ensures data.GetSettings() == old(data.GetSettings())
    ensures data.Valid()
  {
    if width > 0 {
      ghost var steps;
      data.scaleFactor, steps := GrowScaleFactor(width, data.scaleFactor, cfg.buttonWidth);
    }
  }

  /** The window `MouseUp` opens after a commit: none for the text tool. */
  function NextWindow(annotation: Annotation, imageDataNew: Buffer): Window {
    if annotation == Text then NoWindow
    else if imageDataNew == Empty then SelectionWindow else EditWindow
  }

  /**
   * A release on the capture window, once the monitor is found: the
   * selection is captured and stored as the screenshot, the drag cleared,
   * and the zoom set from the shot's size and then enlarged to fit.
   */
  twostate predicate CaptureReleased(data: GrabData, screen: Screen, dpiX: real, dpiY: real, cfg: Constants,
    outcome: Outcome)
    requires old(data.Valid()) && old(data.firstScreen) && old(|data.positions|) > 0 && ValidConstants(cfg)
    reads data
  {
    var shot := CaptureArea(screen, CaptureRegion(CaptureBounds(old(data.positions), dpiX, dpiY), cfg.borderWidth));
    outcome == Committed(shot.width, shot.height, NextWindow(old(data.annotation), Empty)) &&
    !data.firstScreen && data.imageDataOld == Encode(shot) && data.imageDataNew == Empty && data.positions == [] &&
    data.scaleFactor == FitScale(shot.width, ScaleTier(shot.width, shot.height, screen.display, cfg), cfg.buttonWidth)
  }

  /**
   * A release on the edit window, once the monitor is found: the commit of
   * EditCommitOf is stored (or refused, or skipped for text), the drag
   * cleared unless the tool is text, and the zoom enlarged to fit.
   */
  twostate predicate EditReleased(data: GrabData, screen: Screen, cfg: Constants, m: Libm, outcome: Outcome)
    requires old(data.Valid()) && !old(data.firstScreen) && old(|data.positions|) > 0 && ValidConstants(cfg)
    reads data
  {
    var img := old(data.LoadImage()).value;
    var c := EditCommitOf(old(data.annotation), img, old(data.positions), old(data.color), m);
    !data.firstScreen && data.imageDataOld == old(data.imageDataOld) &&
    match c
      case CropRefused =>
        outcome == CannotCropFurther && data.positions == [] &&
        data.imageDataNew == old(data.imageDataNew) && data.scaleFactor == old(data.scaleFactor)
      case TextKept =>
        outcome == Committed(img.width, img.height, NoWindow) && data.positions == old(data.positions) &&
        data.imageDataNew == old(data.imageDataNew) &&
        data.scaleFactor == FitScale(img.width, old(data.scaleFactor), cfg.buttonWidth)
      case Stored(image) =>
        outcome == Committed(image.width, image.height, EditWindow) && data.positions == [] &&
        data.imageDataNew == Encode(image) &&
        data.scaleFactor ==
          FitScale(image.width, CommitScale(old(data.annotation), c, screen.display, cfg, old(data.scaleFactor)),
            cfg.buttonWidth)
  }

  /**
   * `MouseUp` on the capture window, once the monitor is found: captures the
   * selection, enlarges the zoom of images too small for the window, and
   * opens the selection window.
   */
  method CommitCapture(data: GrabData, screen: Screen, dpiX: real, dpiY: real, cfg: Constants)
    returns (outcome: Outcome)
    requires data.Valid() && ValidConstants(cfg) && data.firstScreen && |data.positions| > 0
    modifies data
    ensures data.Valid()
    ensures data.press == old(data.press) && data.annotation == old(data.annotation)
    ensures data.textAnnotation == old(data.textAnnotation)
    ensures data.offsets == old(data.offsets) && data.GetSettings() == old(data.GetSettings())
    ensures CaptureReleased(data, screen, dpiX, dpiY, cfg, outcome)
  {
    var width, height := CaptureSelection(data, screen, dpiX, dpiY, cfg);
    EnlargeToFit(data, width, cfg);
    outcome := Committed(width, height, NextWindow(data.annotation, data.imageDataNew));
  }

  /**
   * `MouseUp` on the edit window: commits the annotation (or reports the
   * refused crop), enlarges the zoom of images too small for the window,
   * and opens the edit window, except for the text tool.
   */
  method CommitEdit(data: GrabData, screen: Screen, cfg: Constants, m: Libm)
    returns (outcome: Outcome)
    requires data.Valid() && ValidConstants(cfg) && !data.firstScreen && |data.positions| > 0
    modifies data
    ensures data.Valid()
    ensures data.press == old(data.press) && data.annotation == old(data.annotation)
    ensures data.textAnnotation == old(data.textAnnotation)
    ensures data.offsets == old(data.offsets) && data.GetSettings() == old(data.GetSettings())
    ensures EditReleased(data, screen, cfg, m, outcome)
  {
    var refused, width, height := CommitAnnotation(data, screen, cfg, m);
    if refused {
      return CannotCropFurther;
    }
    EnlargeToFit(data, width, cfg);
    outcome := Committed(width, height, NextWindow(data.annotation, data.imageDataNew));
  }

  /**
   * `MouseUp`: ends the drag. With recorded positions it looks the monitor
   * up and commits the drag on it; a monitor index past the list of screens
   * is where the source's indexing panics.
   */
  method MouseUp(data: GrabData, screens: seq<Screen>, dpiX: real, dpiY: real, cfg: Constants, m: Libm)
    returns (outcome: Outcome)
    requires data.Valid() && ValidConstants(cfg)
    modifies data
    ensures data.Valid() && !data.press
    ensures data.annotation == old(data.annotation) && data.textAnnotation == old(data.textAnnotation)
    ensures data.offsets == old(data.offsets) && data.GetSettings() == old(data.GetSettings())
    ensures outcome == NoSelection <==> old(data.positions) == []
    ensures outcome == MonitorMissing <==> old(data.positions) != [] && data.monitorIndex >= |screens|
    ensures outcome == NoSelection || outcome == MonitorMissing ==>
      data.positions == old(data.positions) && data.firstScreen == old(data.firstScreen) &&
      data.imageDataOld == old(data.imageDataOld) && data.imageDataNew == old(data.imageDataNew) &&
      data.scaleFactor == old(data.scaleFactor)
    ensures old(data.firstScreen) && old(data.positions) != [] && data.monitorIndex < |screens| ==>
      CaptureReleased(data, screens[data.monitorIndex], dpiX, dpiY, cfg, outcome)
    ensures !old(data.firstScreen) && old(data.positions) != [] && data.monitorIndex < |screens| ==>
      EditReleased(data, screens[data.monitorIndex], cfg, m, outcome)
  {
    data.press := false;
    if data.positions == [] {
      return NoSelection;
    }
    if data.monitorIndex >= |screens| {
      return MonitorMissing;
    }
    if data.firstScreen {
      outcome := CommitCapture(data, screens[data.monitorIndex], dpiX, dpiY, cfg);
    } else {
      outcome := CommitEdit(data, screens[data.monitorIndex], cfg, m);
    }
  }
}
