# Screenshot widget: selection, annotation and preview logic

This project models the part of the screenshot tool that turns a mouse drag
into something drawn or captured. The model leaves out the UI toolkit, the
screen-capture library, the PNG codec and pixel rasterisation.

- **Geometry** (`geometry.dfy`) covers the helpers that turn the drag's list of
  positions into shape parameters. These are the normalised rectangle, the
  circumscribed circle, the arrow (shaft and two head segments) and the
  highlighter band. They are defined in `src/utilities.rs:48-154`. The
  rectangle, circle and arrow helpers are copied in
  `src/image_screen.rs:533-607`, and the highlighter computation is written
  out inline in the commit (`src/image_screen.rs:220-256`); the model defines
  each one once.
  `sqrt`, `atan`, `atan2`, `cos` and `sin` are fields of a `Libm` value
  (arbitrary functions). A lemma that needs them exact says so with the
  predicates `SqrtAt` (the result is the non-negative square root) or
  `PythagoreanAt` (cos² + sin² = 1).
- **Casts** (`casts.dfy`) spells out the Rust numeric casts the code relies on:
  `f64 as i32` truncates toward zero, `i32 as u32` wraps modulo 2³², and
  `f64 as u32` saturates at 0.
- **Raster** (`raster.dfy`) stands in for images. An image is its width, its
  height and the list of edits that produced it (capture, crop, drawn marks).
  A PNG buffer is `Empty` or the encoding of one image, and decoding inverts
  encoding. Cropping clamps the requested rectangle to the image, as
  `DynamicImage::crop` does.
- **Session** (`session.dfy`) models the `GrabData` record as a class. Its
  fields are the two image buffers, `press`, `first_screen`, `scale_factor`,
  the recorded positions and offsets, the annotation tool and the user
  settings. It has `rescale_coordinates`, `load_image` and `reset_data` as
  members, and `Valid()` is the invariant the event handlers keep.
  `rescale_coordinates`, `load_image` and `image_to_buffer` are copied in
  `src/image_screen.rs:493-531`; each is modelled once.
- **ScreenshotWidget** (`screenshot_widget.dfy`) models the mouse-event state
  machine of `ScreenshotWidget::event`:
  - press and release;
  - recording positions while dragging;
  - on the capture window, capturing the selection inside its border;
  - on the edit window, the crop guard and the crop, or drawing the selected
    annotation;
  - choosing the zoom tier;
  - the loop that enlarges small images;
  - choosing the window that opens next.
- **WidgetPaint** (`paint.dfy`) models the preview that `paint` strokes while
  the user drags. It also relates that preview to what the commit draws.

The monitor list, the display scale (`ctx.scale()`), the widget size and the
pointer positions are parameters. So are the values of `BORDER_WIDTH`,
`BUTTON_WIDTH`, `LIMIT_PROPORTION` and `SCALE_FACTOR` (a `Constants` value):
the file that defines those constants is not part of this model. The model
assumes (`ValidConstants`) that `BORDER_WIDTH` and `BUTTON_WIDTH` are at least 0
and that `LIMIT_PROPORTION` and `SCALE_FACTOR` are positive.

## Model

| member | source | states |
|---|---|---|
| Casts.TruncToInt | src/image_screen.rs:82-93 | `as i32` drops the fraction toward zero: the result lies within one unit of the input, on the input's side of zero |
| Casts.TruncMonotone | src/image_screen.rs:82-93 | truncation preserves the order of two coordinates |
| Casts.AsU32 | src/image_screen.rs:96 | `as u32` of an i32 is the value modulo 2³²: below 2³², congruent to the input, the identity on values already in range |
| Casts.FloatToU32 | src/image_screen.rs:136 | `as u32` of a display limit is its floor, and 0 for non-positive values |
| Geometry.MakeRectangleFromPoints | src/utilities.rs:48-84 | None exactly when there are no positions; otherwise min ≤ max on both axes; when the first and last positions differ on both axes, the rectangle they span with min < max; when they share an x or a y, the all-zero rectangle (the copy at src/image_screen.rs:533-569 is the same code) |
| Geometry.RectangleIgnoresIntermediatePoints | src/utilities.rs:54-55 | positions between the first and the last never change the rectangle |
| Geometry.CircleCenterRadius | src/utilities.rs:86-93 | the centre is the midpoint of the rectangle on both axes; with an exact square root the radius is non-negative and (2·radius)² is the squared diagonal (the copy at src/image_screen.rs:571-578 is the same code) |
| Geometry.CircleThroughCorners | src/utilities.rs:86-93 | with an exact square root all four corners of the rectangle lie on the circle |
| Geometry.DragLengthPositive | src/utilities.rs:103-105 | the squared drag length is positive exactly when the last position differs from the first |
| Geometry.ArrowLengthPositive | src/utilities.rs:105 | with an exact square root a positive squared length gives a positive arrow length |
| Geometry.ArrowDefinedWhenApart | src/utilities.rs:95-113 | with an exact square root, every drag that moved has the non-zero length the arrow divides by |
| Geometry.ComputeArrowPoints | src/utilities.rs:95-122 | None exactly on no positions; the shaft runs from the first to the last position; both head segments start at the last position and end a third of the length back from the base point, turned by ±30° from the shaft's angle (the copy at src/image_screen.rs:580-607 is the same code) |
| Geometry.ArrowBaseOnShaft | src/utilities.rs:112-113 | the base point of the head lies on the shaft's line, exactly one unit from the tip, on the side of the first position (back along the shaft, not beyond the tip) |
| Geometry.ArrowWingsTipLength | src/utilities.rs:109-118 | with cos² + sin² = 1 at both angles, each head segment ends at distance length/3 from the base point |
| Geometry.WingLength | src/utilities.rs:116-118 | a head endpoint lies at distance `tip` from the base point |
| Geometry.ComputeHighlighterPoints | src/utilities.rs:124-154 | None exactly on no positions; the first two vertices are centred on the first position, the last two on the last position, and p4 − p1 = p3 − p2 = last − first (a parallelogram along the drag) (the commit writes the same computation out inline at src/image_screen.rs:220-256) |
| Geometry.HighlighterBandWidth | src/utilities.rs:143-151 | with cos² + sin² = 1, both short sides of the band are 2·10 long |
| Geometry.Polyline | src/image_screen.rs:208-217 | the free line has one segment fewer than the positions, and segment i joins positions i and i+1 |
| Geometry.CrossSegments | src/image_screen.rs:173-191 | the cross is the first→last diagonal plus (first.x, last.y)→(last.x, first.y), and both diagonals share their midpoint |
| Raster.CaptureArea | src/image_screen.rs:96 | the captured image has exactly the requested size and records the screen and area |
| Raster.Encode | src/utilities.rs:40-46 | encoding always gives a non-empty buffer (the copy at src/image_screen.rs:525-531 is the same code) |
| Raster.Decode | src/utilities.rs:29-35 | decoding fails exactly on the empty buffer |
| Raster.DecodeEncode | src/utilities.rs:40-46 | decoding an encoded image gives it back |
| Raster.EncodeDecode | src/utilities.rs:26-38 | re-encoding a decodable buffer gives the same buffer |
| Raster.Crop | src/image_screen.rs:130-135 | the crop fits inside the image, has the requested size when the request fits, ends at the image's edge when it runs past it (image size minus the corner), is empty when its corner is beyond the image, and records the clamped corner |
| Raster.Draw | src/image_screen.rs:144-286 | drawing keeps the size and appends one edit per mark, in order, after the old history |
| Raster.DrawConcat | src/image_screen.rs:208-217 | drawing two lists of marks in turn equals drawing their concatenation |
| Raster.SegmentMarks | src/image_screen.rs:154-217 | one line mark per segment, same order, same colour |
| Raster.TruncatedVertices | src/image_screen.rs:249-252 | the polygon vertices are the points cast with `as i32`, one for one |
| Session.CenteringOffset | src/utilities.rs:11-15 | the offset leaves equal margins on both sides of the scaled image, on both axes |
| Session.WidgetImageRoundTrip | src/utilities.rs:19-21 | a pointer mapped into image coordinates maps back onto the pointer |
| Session.ImageWidgetRoundTrip | src/utilities.rs:19-21 | an image point mapped to the widget and back is unchanged |
| Session.GrabData.constructor | src/utilities.rs:157-173 | a new session is in the reset state, valid, with the given colour, monitor and text size |
| Session.GrabData.LoadImage | src/utilities.rs:26-38 | the annotated image when its buffer is non-empty, else the screenshot; no image exactly when both buffers are empty (the copy at src/image_screen.rs:511-523 is the same code) |
| Session.GrabData.ResetData | src/utilities.rs:157-173 | both buffers, positions and offsets empty, `first_screen`, zoom 1, not pressed, no annotation, empty text; colour, monitor and text size unchanged |
| Session.GrabData.RescaleCoordinates | src/utilities.rs:8-24 | appends exactly the centring offset and the pointer mapped into image coordinates; the new position maps back onto the pointer; no other field changes; the invariant is kept (the copy at src/image_screen.rs:493-509 is the same code) |
| ScreenshotWidget.SelectionBoundsOrdered | src/image_screen.rs:78-94 | truncating a normalised rectangle keeps it normalised at any non-negative display scale |
| ScreenshotWidget.CaptureRegion | src/image_screen.rs:96 | the captured area starts one border inside the selection and ends one border before its far edges; a selection thinner than two borders wraps around 2³² |
| ScreenshotWidget.CaptureRegionExample | src/image_screen.rs:96 | the drag (100,100)–(500,400) with border 2 captures 396×296 pixels at (102,102) |
| ScreenshotWidget.CropSelection | src/image_screen.rs:130-135 | the crop fits in the image; it has the selection's size when the selection lies inside the image, is clamped to end at the right or bottom edge when the selection runs past it, and is empty on an axis where the selection starts beyond the image |
| ScreenshotWidget.ScaleTier | src/image_screen.rs:136-140 | SCALE_FACTOR when either side reaches its truncated limit, 1.0 when both are below it |
| ScreenshotWidget.ScaleTierMonotone | src/image_screen.rs:317-321 | a larger image never drops from the SCALE_FACTOR tier to 1.0 |
| ScreenshotWidget.ShortfallShrinks | src/image_screen.rs:335-338 | while the displayed width is at most 2·BUTTON_WIDTH + 10, each step lowers the number of steps still missing by exactly one, and that number is non-negative: the loop terminates |
| ScreenshotWidget.GrownScale | src/image_screen.rs:335-338 | the zoom the loop settles on is at least the starting zoom and makes the displayed width exceed 2·BUTTON_WIDTH + 10 |
| ScreenshotWidget.GrownScaleAfter | src/image_screen.rs:335-338 | when the first k values of scale + k·step fall short and the next one exceeds the limit, GrownScale is that next value |
| ScreenshotWidget.FitScale | src/image_screen.rs:334-338 | the zoom after enlarging never decreases, makes a positive width exceed the limit, and is unchanged for width 0 |
| ScreenshotWidget.GrowScaleFactor | src/image_screen.rs:335-338 | the loop returns GrownScale: the zoom never decreases, is the first value of the sequence scale + k·step whose displayed width exceeds 2·BUTTON_WIDTH + 10 |
| ScreenshotWidget.DrawFreeLine | src/image_screen.rs:203-217 | the commit loop draws exactly the free line's segments, in order |
| ScreenshotWidget.AnnotationMarks | src/image_screen.rs:144-286 | how many marks each tool draws: none for none and text; one for line, rectangle and circle; two for the cross; one per consecutive pair of positions for the free line; one band for a highlighter drag that moved; shaft and two head segments for an arrow of non-zero length, the shaft alone otherwise |
| ScreenshotWidget.AnnotationMarksNonEmpty | src/image_screen.rs:144-286 | for a drag that moved, a commit draws something exactly when the tool is neither none nor text |
| ScreenshotWidget.Annotate | src/image_screen.rs:144-286 | drawing an annotation keeps the image size and the history before it |
| ScreenshotWidget.MouseDown | src/image_screen.rs:38-46 | the left button sets `press`; with the text tool the centring offset of the current image and the click mapped into image coordinates are appended, earlier ones kept, and the click maps back onto the pointer; nothing else changes |
| ScreenshotWidget.MouseMove | src/image_screen.rs:53-69 | with the text tool or without `press` nothing is recorded; on the capture window the raw window position is appended; on the edit window the centring offset and the pointer mapped into image coordinates are appended, earlier ones kept; nothing else changes |
| ScreenshotWidget.CaptureSelection | src/image_screen.rs:92-101 | the screenshot stored is the capture of the inset selection; positions are cleared; the capture window is left; the zoom tier is that of the screenshot's size |
| ScreenshotWidget.EditCommitOf | src/image_screen.rs:107-315 | the commit of each tool: the crop of the selection or its refusal for none, nothing for text, the annotated image for the others, which keeps the image's size |
| ScreenshotWidget.CommitAnnotation | src/image_screen.rs:107-315 | the crop is refused exactly when EditCommitOf refuses it, and then positions are cleared with the image and zoom kept; the text tool changes nothing; otherwise the image EditCommitOf gives is stored, the positions cleared, its size returned, and the zoom is the new tier after a crop and unchanged after drawing |
| ScreenshotWidget.EnlargeToFit | src/image_screen.rs:334-338 | the zoom becomes FitScale of the image width and the old zoom; nothing else changes |
| ScreenshotWidget.CommitCapture | src/image_screen.rs:92-106 | a capture-window release stores the capture of the inset selection, clears the positions and leaves the capture window; the reported size is the shot's; then (src/image_screen.rs:316-346) the zoom becomes FitScale of the shot's tier, and the selection window opens next (none for the text tool) |
| ScreenshotWidget.CommitEdit | src/image_screen.rs:107-346 | an edit-window release reports the refused crop with the images and zoom kept; for text keeps the image and positions, enlarges the old zoom and opens no window; otherwise stores EditCommitOf's image, clears the positions, sets the zoom to FitScale of the new tier (crop) or of the old zoom (drawing), and opens the edit window with the image's size; the screenshot is never changed |
| ScreenshotWidget.MouseUp | src/image_screen.rs:71-349 | `press` is cleared. Without positions nothing else changes; a monitor index past the screens changes nothing else. With both, the capture window does what CommitCapture states and the edit window what CommitEdit states |
| WidgetPaint.LineStrokes | src/image_screen.rs:415-456 | one line stroke per segment, in order, same colour |
| WidgetPaint.Paint | src/image_screen.rs:362-490 | the strokes painted are the preview of the current drag; the free line is stroked one segment per consecutive pair |
| WidgetPaint.LineStrokesConcat | src/image_screen.rs:443-456 | stroking two segment lists in turn is stroking their concatenation |
| WidgetPaint.PreviewMatchesCommit | src/image_screen.rs:415-477 | for line, cross, free line and arrow, the segments previewed are exactly the segments the commit draws on the image |
| WidgetPaint.SelectionOutlineSpansDrag | src/image_screen.rs:367-398 | on the capture window a drag that moved on both axes is outlined in white by the normalised rectangle of its ends |
| WidgetPaint.EditOutlineShiftedByOffset | src/image_screen.rs:381-386 | on the edit window with one centring offset, the outline is the spanned rectangle moved by that offset, white for the selection and the chosen colour for the rectangle tool |
| WidgetPaint.CirclePreviewThroughCorners | src/image_screen.rs:400-413 | with an exact square root the circle preview passes through the four corners of the truncated rectangle |
| WidgetPaint.CaretLength | src/image_screen.rs:479-488 | the text caret starts at the last click, is vertical, and ends `textSize` further down (screen y grows downward) |

## Left out

- Screen capture (`Screen::all`, `capture_area`, `to_png`) is platform I/O. The capture is a function returning an image of the requested size. Its failures (`unwrap`) are not modelled.
- The PNG codec is abstract. Encoding and decoding round-trip; a decoding failure on an empty buffer is the `None` of `LoadImage`. `Valid()` excludes that case on the edit window.
- Pixel rasterisation (`draw_line_segment`, `draw_hollow_circle`, `draw_hollow_rect`, `draw_polygon`) is recorded as a list of marks. The `f32` conversions of line endpoints are not modelled.
- The druid UI is left out: cursors, `request_paint`, closing and opening windows, the "Cannot Crop Further" window's contents, `println!` and the stroke calls. The window to open is part of `MouseUp`'s result, and the painted shapes are returned as data.
- f64 rounding, infinities and NaN are not modelled; reals are exact. `sqrt`, `atan`, `atan2`, `cos` and `sin` are uninterpreted.
- i32 overflow of the selection coordinates is not modelled. `as i32` is modelled without saturation.
- The hotkey, timer, error-message and `trigger_ui` fields that `reset_data` also assigns are not part of this model.
- The commented-out text rasterisation and window-size handlers are left out.
- Geometry.ComputeArrowPoints: requires a non-zero length. A drag that did not move divides 0 by 0 in the source and yields NaN points. AnnotationMarks and the preview then draw only the shaft.
- Geometry.ComputeHighlighterPoints: requires distinct first and last positions, because the source's 0/0 slope is NaN. AnnotationMarks draws nothing for such a drag. In the source the NaN vertices cast to (0,0) with `as i32`, and `draw_polygon` is then handed a polygon whose first and last vertices coincide, which imageproc rejects with a panic; the same holds for a short drag whose truncated first and last vertices coincide, which the model draws as a polygon. A vertical drag (infinite slope) is modelled as an angle of ±π/2.
- ScreenshotWidget.EnlargeToFit: skips the loop for an image of width 0. The source then adds +∞ to the zoom once.
- ScreenshotWidget.CommitAnnotation: a selection that starts beyond the image passes the crop guard (`src/image_screen.rs:111`) and crops to an image of width or height 0 (Raster.Crop). The model stores it like any other image; the PNG encoder's behaviour on a zero-sized image (an error would make `image_to_buffer` panic before the enlarging loop) is not part of this model.
- ScreenshotWidget.MouseDown: requires an image to be loadable for a text click. A text click on the capture window before any screenshot makes `load_image` panic in the source (its `expect` on an empty buffer); the model does not cover that call.
- ScreenshotWidget.MouseUp: a monitor index past the screens is an outcome of its own. The source panics there.
- imageproc panics on a zero-sized rectangle; the model draws it.
- WidgetPaint.EditOutlineShiftedByOffset: covers only drags with a single recorded centring offset. The rectangle preview on the edit window adds the first offset recorded since the last reset (`offsets[0]`) to one corner and the latest offset to the other; PreviewRect keeps that, but no lemma describes the outline after the zoom or window size changed between commits.
- The `Valid()` invariant also assumes the buffers hold valid PNG data.
