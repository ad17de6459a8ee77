/**
 The placeholder reference-object detector: for a decodable image it returns
 a box a fifth of the image's width and height, centred in the image.
 Decoding is abstracted to the image's pixel dimensions, or nothing when the
 file cannot be read. Python's `//` on these non-negative sizes is Dafny's `/`.
 */
module ReferenceDetector {

  import opened Options

  /** Width and height of a decoded image, in pixels. */
  datatype Dimensions = Dimensions(width: nat, height: nat)

  /** The returned box `{x, y, w, h}`, in pixels. */
  datatype PixelBox = PixelBox(x: int, y: int, w: int, h: int)

  /** Offset of a centred span of length `size / 5` inside a span of length `size`. */
  function CentredStart(size: nat): (start: int)
    ensures start >= 0
    ensures start + size / 5 <= size
    ensures start + (size / 5) / 2 == size / 2
  {
    var centre := size / 2;
    var span := size / 5;
    SpanFits(size);
    centre - span / 2
  }

  /** Half of a fifth never exceeds a half, and the rest of the fifth fits in the other half. */
  lemma SpanFits(size: nat)
    ensures (size / 5) / 2 <= size / 2
    ensures size / 2 - (size / 5) / 2 + size / 5 <= size
  {
    var q, r := size / 10, size % 10;
    assert size == 10 * q + r;
    assert size / 5 == 2 * q + r / 5;
    assert size / 2 == 5 * q + r / 2;
    assert (size / 5) / 2 == q;
  }

  /** The box is inside the image, of non-negative origin, sized a fifth per side and centred. */
  ghost predicate IsCentredFifth(d: Dimensions, b: PixelBox)
  {
    && b.w == d.width / 5 && b.h == d.height / 5
    && b.x + b.w / 2 == d.width / 2 && b.y + b.h / 2 == d.height / 2
  }

  /** `detect_reference_object`: no box for an undecodable image, otherwise the centre box. */
  function DetectReferenceObject(image: Option<Dimensions>, refType: string): (r: Option<PixelBox>)
    ensures image.None? <==> r.None?
    ensures r.Some? ==> IsCentredFifth(image.value, r.value)
    ensures r.Some? ==> r.value.x >= 0 && r.value.y >= 0
    ensures r.Some? ==> r.value.x + r.value.w <= image.value.width
    ensures r.Some? ==> r.value.y + r.value.h <= image.value.height
  {
    match image
    case None => None
    case Some(d) =>
      var boxW, boxH := d.width / 5, d.height / 5;
      Some(PixelBox(CentredStart(d.width), CentredStart(d.height), boxW, boxH))
  }

  /** The detected box is the only box with those sizes centred in the image. */
  lemma DetectedIsUniqueCentredFifth(d: Dimensions, refType: string, b: PixelBox)
    ensures DetectReferenceObject(Some(d), refType) == Some(b) <==> IsCentredFifth(d, b)
  {
    var r := DetectReferenceObject(Some(d), refType).value;
    if IsCentredFifth(d, b) {
      assert b.w == r.w && b.h == r.h;
      assert b.x == r.x && b.y == r.y;
    }
  }

  /** The reference type never influences the result. */
  lemma IgnoresReferenceType(image: Option<Dimensions>, t1: string, t2: string)
    ensures DetectReferenceObject(image, t1) == DetectReferenceObject(image, t2)
  {
  }
}
