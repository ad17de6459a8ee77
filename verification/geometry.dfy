/**
 Geometry of the admin canvas editor: points, the reference rectangle, the
 measuring line, and the view transform between canvas pixels and image pixels.
 */
module Geometry {

  import opened Numbers

  datatype Point = Point(x: real, y: real)

  /** The reference rectangle, in image pixels; `w` and `h` may be negative while it is dragged. */
  datatype Box = Box(x: real, y: real, w: real, h: real)

  /** The measuring line, from (x1, y1) to (x2, y2), in image pixels. */
  datatype Line = Line(x1: real, y1: real, x2: real, y2: real)
  {
    function Dx(): real { x2 - x1 }
    function Dy(): real { y2 - y1 }
  }

  /** Canvas size, zoom factor and pan offset: canvas = offset + image * scale. */
  datatype View = View(canvasWidth: real, canvasHeight: real, scale: real, offset: Point)

  function Min(a: real, b: real): real { if a <= b then a else b }
  function Max(a: real, b: real): real { if a <= b then b else a }

  /** The interval covered from `start` with signed extent `extent`. */
  function Lo(start: real, extent: real): real { Min(start, start + extent) }
  function Hi(start: real, extent: real): real { Max(start, start + extent) }

  /**
   The mouse-up clean-up: a side dragged to a negative extent moves the corner
   back by that extent and takes its absolute value.
   */
  function NormalizeBox(b: Box): (r: Box)
    ensures r.w >= 0.0 && r.h >= 0.0
    ensures r.x == Lo(b.x, b.w) && r.x + r.w == Hi(b.x, b.w)
    ensures r.y == Lo(b.y, b.h) && r.y + r.h == Hi(b.y, b.h)
    ensures b.w >= 0.0 && b.h >= 0.0 ==> r == b
  {
    if b.w < 0.0 || b.h < 0.0 then
      var bx := if b.w < 0.0 then b.(x := b.x + b.w, w := Abs(b.w)) else b;
      if bx.h < 0.0 then bx.(y := bx.y + bx.h, h := Abs(bx.h)) else bx
    else
      b
  }

  /** Normalising twice is normalising once. */
  lemma NormalizeIdempotent(b: Box)
    ensures NormalizeBox(NormalizeBox(b)) == NormalizeBox(b)
  {
  }

  /** Where an image point is drawn on the canvas. */
  function ToCanvas(v: View, p: Point): Point
  {
    Point(v.offset.x + p.x * v.scale, v.offset.y + p.y * v.scale)
  }

  /** The image point under a canvas position (`getMousePos` after subtracting the canvas origin). */
  function ToImage(v: View, c: Point): (p: Point)
    requires v.scale > 0.0
    ensures ToCanvas(v, p) == c
  {
    Point((c.x - v.offset.x) / v.scale, (c.y - v.offset.y) / v.scale)
  }

  /** Mapping an image point to the canvas and back returns the point. */
  lemma ToImageToCanvas(v: View, p: Point)
    requires v.scale > 0.0
    ensures ToImage(v, ToCanvas(v, p)) == p
  {
    var q := ToImage(v, ToCanvas(v, p));
    assert (q.x - p.x) * v.scale == 0.0;
    assert (q.y - p.y) * v.scale == 0.0;
  }

  /** The zoom factor `zoomToPoint` switches to. */
  const ZoomTarget: real := 4.0

  /** Zoom to 4x so that the image point `p` appears at the centre of the canvas. */
  function ZoomToPoint(v: View, p: Point): (r: View)
    ensures r.scale == ZoomTarget
    ensures ToCanvas(r, p) == Point(v.canvasWidth / 2.0, v.canvasHeight / 2.0)
    ensures r.canvasWidth == v.canvasWidth && r.canvasHeight == v.canvasHeight
  {
    View(v.canvasWidth, v.canvasHeight, ZoomTarget,
         Point(v.canvasWidth / 2.0 - p.x * ZoomTarget, v.canvasHeight / 2.0 - p.y * ZoomTarget))
  }

  /** Panning by the mouse movement. */
  function Pan(v: View, movement: Point): (r: View)
    ensures r.scale == v.scale
    ensures r.canvasWidth == v.canvasWidth && r.canvasHeight == v.canvasHeight
    ensures forall p :: ToCanvas(r, p) == Point(ToCanvas(v, p).x + movement.x, ToCanvas(v, p).y + movement.y)
  {
    v.(offset := Point(v.offset.x + movement.x, v.offset.y + movement.y))
  }

  const ZoomIntensity: real := 0.1

  /** The wheel: scrolling down zooms out by 10%, any other scroll zooms in by 10%. */
  function Wheel(v: View, deltaY: real): (r: View)
    ensures deltaY > 0.0 ==> r.scale == v.scale * 0.9
    ensures deltaY <= 0.0 ==> r.scale == v.scale * 1.1
    ensures v.scale > 0.0 ==> r.scale > 0.0
    ensures v.scale > 0.0 && deltaY > 0.0 ==> r.scale < v.scale
    ensures v.scale > 0.0 && deltaY <= 0.0 ==> r.scale > v.scale
    ensures r.offset == v.offset && r.canvasWidth == v.canvasWidth && r.canvasHeight == v.canvasHeight
  {
    var delta := if deltaY > 0.0 then -ZoomIntensity else ZoomIntensity;
    v.(scale := v.scale * (1.0 + delta))
  }
}
