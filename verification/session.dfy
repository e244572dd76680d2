/**
 * The session record shared by the capture and edit windows (`GrabData`)
 * and the helpers that act on it: mapping a click into image coordinates,
 * choosing which stored image to load, and resetting the record for a new
 * capture.
 */
module Session {
  import opened Wrappers
  import opened Geometry
  import opened Raster

  /** The annotation tool currently selected. */
  datatype Annotation = None | Rectangle | Circle | Line | Cross | FreeLine | Highlighter | Arrow | Text

  /**
   * The offset that centres an image of `width` x `height` pixels, shown at
   * `scale`, in the widget: the margin on each side of the image is the same.
   */
  function CenteringOffset(widget: Size, width: nat, height: nat, scale: real): (off: Point)
    ensures off.x == widget.width - (off.x + width as real * scale)
    ensures off.y == widget.height - (off.y + height as real * scale)
  {
    Point((widget.width - width as real * scale) / 2.0, (widget.height - height as real * scale) / 2.0)
  }

  /** A widget position as a point of the image shown centred at `off` and `scale`. */
  function ToImageSpace(pos: Point, off: Point, scale: real): Point
    requires scale != 0.0
  {
    Point((pos.x - off.x) / scale, (pos.y - off.y) / scale)
  }

  /** Reference inverse: where a point of the image appears in the widget. */
  function ToWidgetSpace(p: Point, off: Point, scale: real): Point {
    Point(p.x * scale + off.x, p.y * scale + off.y)
  }

  /** Mapping a click into the image and back gives the click. */
  lemma WidgetImageRoundTrip(pos: Point, off: Point, scale: real)
    requires scale != 0.0
    ensures ToWidgetSpace(ToImageSpace(pos, off, scale), off, scale) == pos
  {
    var qx, qy := (pos.x - off.x) / scale, (pos.y - off.y) / scale;
    assert qx * scale == pos.x - off.x;
    assert qy * scale == pos.y - off.y;
  }

  /** Mapping a point of the image to the widget and back gives the point. */
  lemma ImageWidgetRoundTrip(p: Point, off: Point, scale: real)
    requires scale != 0.0
    ensures ToImageSpace(ToWidgetSpace(p, off, scale), off, scale) == p
  {
    var w := ToWidgetSpace(p, off, scale);
    assert w.x - off.x == p.x * scale && w.y - off.y == p.y * scale;
    assert (p.x * scale) / scale == p.x;
    assert (p.y * scale) / scale == p.y;
  }

  /** The fields of the session that a reset keeps. */
  datatype Settings = Settings(color: Rgba, monitorIndex: nat, textSize: real)

  class GrabData {
    /** The captured screenshot (PNG), or empty before the first capture. */
    var imageDataOld: Buffer
    /** The last annotated version (PNG), or empty while nothing was committed. */
    var imageDataNew: Buffer
    /** The left button is held down. */
    var press: bool
    /** The capture window is showing (no screenshot taken yet). */
    var firstScreen: bool
    /** The zoom at which the image is displayed. */
    var scaleFactor: real
    /** The pointer positions of the current drag. */
    var positions: seq<Point>
    /** The centring offset recorded with each rescaled position. */
    var offsets: seq<Point>
    var annotation: Annotation
    var textAnnotation: string
    var color: Rgba
    var monitorIndex: nat
    var textSize: real

    /**
     * The session invariant: a positive zoom; no annotated image while the
     * capture window is up; once past it, a stored screenshot and one
     * offset for every recorded position.
     */
    ghost predicate Valid()
      reads this
    {
      scaleFactor > 0.0 &&
      (firstScreen ==> imageDataNew == Empty) &&
      (!firstScreen ==> imageDataOld != Empty && |positions| <= |offsets|)
    }

    function GetSettings(): Settings
      reads this
    {
      Settings(color, monitorIndex, textSize)
    }

    /** A session in the state a reset leaves it, with the given user settings. */
    constructor (settings: Settings)
      ensures Valid() && Fresh() && GetSettings() == settings
    {
      imageDataOld := Empty;
      imageDataNew := Empty;
      press := false;
      firstScreen := true;
      scaleFactor := 1.0;
      positions := [];
      offsets := [];
      annotation := Annotation.None;
      textAnnotation := "";
      color := settings.color;
      monitorIndex := settings.monitorIndex;
      textSize := settings.textSize;
    }

    /** Every field that `reset_data` sets has its initial value. */
    ghost predicate Fresh()
      reads this
    {
      imageDataOld == Empty && imageDataNew == Empty && !press && firstScreen &&
      scaleFactor == 1.0 && positions == [] && offsets == [] &&
      annotation == Annotation.None && textAnnotation == ""
    }

    /**
     * `load_image`: the annotated version when there is one, the screenshot
     * otherwise; `None` where the source's decoding `expect` panics.
     */
    function LoadImage(): (r: Option<Image>)
      reads this
      ensures r.None? <==> imageDataNew == Empty && imageDataOld == Empty
      ensures imageDataNew != Empty ==> r == Decode(imageDataNew)
      ensures imageDataNew == Empty ==> r == Decode(imageDataOld)
    {
      if imageDataNew != Empty then Decode(imageDataNew) else Decode(imageDataOld)
    }

    /**
     * `reset_data`: back to the state of a fresh session; the colour, the
     * monitor and the text size chosen by the user survive.
     */
    method ResetData()
      modifies this
      ensures Valid() && Fresh()
      ensures GetSettings() == old(GetSettings())
    {
      imageDataOld := Empty;
      imageDataNew := Empty;
      press := false;
      firstScreen := true;
      scaleFactor := 1.0;
      positions := [];
      offsets := [];
      annotation := Annotation.None;
      textAnnotation := "";
    }

    /**
     * `rescale_coordinates`: records the offset that centres the current
     * image in the widget and the pointer position mapped into image
     * coordinates; that position maps back onto the pointer.
     */
    method RescaleCoordinates(widget: Size, pointer: Point)
      requires Valid() && LoadImage().Some?
      modifies this
      ensures imageDataOld == old(imageDataOld) && imageDataNew == old(imageDataNew)
      ensures press == old(press) && firstScreen == old(firstScreen) && scaleFactor == old(scaleFactor)
      ensures annotation == old(annotation) && textAnnotation == old(textAnnotation)
      ensures GetSettings() == old(GetSettings())
      ensures var img := old(LoadImage()).value;
        var off := CenteringOffset(widget, img.width, img.height, scaleFactor);
        offsets == old(offsets) + [off] &&
        positions == old(positions) + [ToImageSpace(pointer, off, scaleFactor)]
      ensures ToWidgetSpace(positions[|positions| - 1], offsets[|offsets| - 1], scaleFactor) == pointer
      ensures Valid()
    {
      var img := LoadImage().value;
      var off := CenteringOffset(widget, img.width, img.height, scaleFactor);
      offsets := offsets + [off];
      var p := ToImageSpace(pointer, off, scaleFactor);
      positions := positions + [p];
      WidgetImageRoundTrip(pointer, off, scaleFactor);
    }
  }
}
