/**
 * The images the widget handles, abstracted from their pixels. An image is
 * its size plus the list of edits that produced it (the screen capture it
 * started from, crops, and the shapes drawn on it). A PNG buffer is either
 * empty (no image yet) or the encoding of one image; encoding and decoding
 * round-trip exactly, which is what the PNG codec guarantees for RGBA data.
 */
module Raster {
  import opened Wrappers
  import opened Geometry
  import opened Casts

  type Byte = x: int | 0 <= x < 256

  /** An RGBA colour, one byte per channel. */
  datatype Rgba = Rgba(r: Byte, g: Byte, b: Byte, a: Byte)

  /** Pixel size of a monitor as the capture library reports it. */
  datatype DisplayInfo = DisplayInfo(width: nat, height: nat)

  /** A monitor that can be captured. */
  datatype Screen = Screen(id: nat, display: DisplayInfo)

  /** An axis-aligned pixel rectangle: top-left corner and size. */
  datatype Region = Region(x: int, y: int, width: nat, height: nat)

  /** What the drawing library is asked to draw, in integer pixel coordinates where it takes them. */
  datatype Mark =
    | LineSegment(from: Point, to: Point, color: Rgba)
    | HollowCircle(centerX: int, centerY: int, radius: int, color: Rgba)
    | HollowRect(x: int, y: int, width: nat, height: nat, color: Rgba)
    | FilledPolygon(vertices: seq<(int, int)>, color: Rgba)

  datatype Edit =
    | Captured(screen: nat, area: Region)
    | Cropped(x: nat, y: nat)
    | Drawn(mark: Mark)

  datatype Image = Image(width: nat, height: nat, history: seq<Edit>)

  /** The content of a `Vec<u8>` image field: empty, or a PNG encoding. */
  datatype Buffer = Empty | Png(image: Image)

  /** `capture_area`: an image of exactly the requested size, taken from the screen. */
  function CaptureArea(screen: Screen, area: Region): (img: Image)
    ensures img.width == area.width && img.height == area.height
    ensures img.history == [Captured(screen.id, area)]
  {
    Image(area.width, area.height, [Captured(screen.id, area)])
  }

  /** `image_to_buffer`: PNG encoding, never empty. */
  function Encode(img: Image): (b: Buffer)
    ensures b != Empty
  {
    Png(img)
  }

  /** `load_from_memory_with_format(.., Png)`: fails on an empty buffer. */
  function Decode(b: Buffer): (r: Option<Image>)
    ensures r.None? <==> b == Empty
  {
    match b
    case Empty => None
    case Png(img) => Some(img)
  }

  lemma DecodeEncode(img: Image)
    ensures Decode(Encode(img)) == Some(img)
  {
  }

  lemma EncodeDecode(b: Buffer)
    requires Decode(b).Some?
    ensures Encode(Decode(b).value) == b
  {
  }

  /**
   * `DynamicImage::crop`: the requested rectangle is first clamped to the
   * image (its corner to the image size, its size to what is left), so the
   * result always fits inside the original.
   */
  function Crop(img: Image, x: nat, y: nat, width: nat, height: nat): (r: Image)
    ensures r.width <= img.width && r.height <= img.height
    ensures x + width <= img.width ==> r.width == width
    ensures y + height <= img.height ==> r.height == height
    ensures x < img.width < x + width ==> r.width == img.width - x
    ensures y < img.height < y + height ==> r.height == img.height - y
    ensures x >= img.width ==> r.width == 0
    ensures y >= img.height ==> r.height == 0
    ensures r.history == img.history + [Cropped(MinNat(x, img.width), MinNat(y, img.height))]
  {
    var cx := MinNat(x, img.width);
    var cy := MinNat(y, img.height);
    Image(MinNat(width, img.width - cx), MinNat(height, img.height - cy),
      img.history + [Cropped(cx, cy)])
  }

  function MinNat(a: nat, b: nat): nat { if a <= b then a else b }

  /** Drawing keeps the size and appends one edit per mark, in order. */
  function Draw(img: Image, marks: seq<Mark>): (r: Image)
    ensures r.width == img.width && r.height == img.height
    ensures |r.history| == |img.history| + |marks|
    ensures r.history[..|img.history|] == img.history
    ensures forall i :: 0 <= i < |marks| ==> r.history[|img.history| + i] == Drawn(marks[i])
    decreases |marks|
  {
    if |marks| == 0 then img
    else Draw(Image(img.width, img.height, img.history + [Drawn(marks[0])]), marks[1..])
  }

  /** Drawing two lists of marks one after the other is drawing their concatenation. */
  lemma {:induction false} DrawConcat(img: Image, a: seq<Mark>, b: seq<Mark>)
    ensures Draw(Draw(img, a), b) == Draw(img, a + b)
    decreases |a|
  {
    if |a| == 0 {
      assert a + b == b;
    } else {
      var next := Image(img.width, img.height, img.history + [Drawn(a[0])]);
      assert (a + b)[1..] == a[1..] + b;
      DrawConcat(next, a[1..], b);
    }
  }

  /** One line segment per geometric segment, all in the same colour. */
  function SegmentMarks(segs: seq<Segment>, color: Rgba): (r: seq<Mark>)
    ensures |r| == |segs|
    ensures forall i :: 0 <= i < |segs| ==> r[i] == LineSegment(segs[i].from, segs[i].to, color)
  {
    if |segs| == 0 then [] else [LineSegment(segs[0].from, segs[0].to, color)] + SegmentMarks(segs[1..], color)
  }

  /** Vertices converted with `as i32`, as imageproc points take them. */
  function TruncatedVertices(ps: seq<Point>): (r: seq<(int, int)>)
    ensures |r| == |ps|
    ensures forall i :: 0 <= i < |ps| ==> r[i] == (TruncToInt(ps[i].x), TruncToInt(ps[i].y))
  {
    if |ps| == 0 then [] else [(TruncToInt(ps[0].x), TruncToInt(ps[0].y))] + TruncatedVertices(ps[1..])
  }
}
