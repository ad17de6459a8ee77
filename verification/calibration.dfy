/**
 Calibration of the admin editor: the reference object's long side in
 millimetres, the box side it is matched against, and the rounded millimetre
 value of a measured line.
 */
module Calibration {

  import opened Numbers
  import opened Geometry

  /** Long side of an ID-1 card (ISO/IEC 7810) in millimetres. */
  const CreditCardLong: real := 85.6
  /** Long side of an A4 sheet (ISO 216) in millimetres, used for every other type. */
  const A4Long: real := 297.0

  /** The reference length chosen by the reference type. */
  function ReferenceLength(refType: string): (r: real)
    ensures r > 0.0
    ensures refType == "CREDIT_CARD" <==> r == CreditCardLong
    ensures refType != "CREDIT_CARD" <==> r == A4Long
  {
    if refType == "CREDIT_CARD" then CreditCardLong else A4Long
  }

  /** The box side used for calibration: the longer one, the height on a tie. */
  function CalibrationSide(b: Box): (r: real)
    ensures r >= Abs(b.w) && r >= Abs(b.h)
    ensures r == Abs(b.w) || r == Abs(b.h)
    ensures Abs(b.w) <= Abs(b.h) ==> r == Abs(b.h)
  {
    var isHoriz := Abs(b.w) > Abs(b.h);
    if isHoriz then Abs(b.w) else Abs(b.h)
  }

  /** Image pixels per millimetre: the calibration side over the reference length. */
  function PixelsPerMm(b: Box, refType: string): (r: real)
    ensures r >= 0.0
    ensures r > 0.0 <==> CalibrationSide(b) > 0.0
    ensures r * ReferenceLength(refType) == CalibrationSide(b)
  {
    CalibrationSide(b) / ReferenceLength(refType)
  }

  /**
   The value written into a slot: `Math.round(linePx / pixelsPerMm)`. A box
   with no extent makes the division +Infinity, or NaN for a zero-length line.
   */
  function MeasuredValue(linePx: real, b: Box, refType: string): (r: Num)
    requires linePx >= 0.0
    ensures CalibrationSide(b) > 0.0 <==> r.Finite?
    ensures r.Finite? ==> IsWhole(r.v) && r.v >= 0.0
    ensures r.Finite? ==> Abs(r.v * PixelsPerMm(b, refType) - linePx) <= 0.5 * PixelsPerMm(b, refType)
    ensures CalibrationSide(b) == 0.0 && linePx > 0.0 ==> r == PosInfinity
    ensures CalibrationSide(b) == 0.0 && linePx == 0.0 ==> r == NaN
  {
    var ppm := PixelsPerMm(b, refType);
    if ppm > 0.0 then
      RoundedQuotientError(linePx, ppm);
      RoundNum(DivNonNegative(linePx, ppm))
    else
      RoundNum(DivNonNegative(linePx, ppm))
  }

  /**
   A line drawn over an object of true length `mm` millimetres, on a picture
   where the reference box's long side shows the reference object at `k`
   pixels per millimetre, measures `mm` rounded to whole millimetres.
   */
  lemma MeasureRoundTrip(b: Box, refType: string, k: real, mm: real)
    requires k > 0.0 && mm >= 0.0
    requires CalibrationSide(b) == ReferenceLength(refType) * k
    ensures MeasuredValue(mm * k, b, refType) == Finite(Round(mm) as real)
  {
    var ppm := PixelsPerMm(b, refType);
    assert ppm * ReferenceLength(refType) == k * ReferenceLength(refType);
    assert ppm == k;
    assert (mm * k) / ppm == mm;
  }
}
