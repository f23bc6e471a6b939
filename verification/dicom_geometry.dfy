/** Imaging geometry of a single radiograph.

    The header lookups of `read_dicom` are replaced by a typed record of the
    twelve extracted values; what remains is the straight-line derivation of
    sensor size, active image size and field of view.  The arctangent is a
    parameter (`atan`), about which lemmas assume only what they need.
 */
module DicomGeometry {

  /** Pi: the shortest decimal literal that rounds to numpy's double `pi`
      (that double is 3.141592653589793115997963...). */
  const Pi: real := 3.141592653589793

  /** DICOM value representation US (unsigned short), used by Rows and Columns. */
  type uint16 = x: int | 0 <= x < 0x1_0000

  /** Imager Pixel Spacing (0018,1164): `value[0]` is the spacing between rows,
      `value[1]` the spacing between columns, both in mm. */
  datatype PixelSpacing = PixelSpacing(rowSpacing: real, columnSpacing: real)

  /** The values `read_dicom` extracts from the header, one per tag. Four of
      them are read but never used by the derivation. */
  datatype HeaderFields = HeaderFields(
    distSourceDetector: real,          // (0018,1110)
    distSourcePatient: real,           // (0018,1111), unused
    distSourceEntrance: real,          // (0040,0306), unused
    imagerPixelSpacing: PixelSpacing,  // (0018,1164)
    positionerPrimaryAngle: real,      // (0018,1510), unused
    positionerSecondaryAngle: real,    // (0018,1511), unused
    rows: uint16,                      // (0028,0010)
    columns: uint16,                   // (0028,0011)
    leftEdge: int,                     // (0018,1602)
    rightEdge: int,                    // (0018,1604)
    upperEdge: int,                    // (0018,1606)
    lowerEdge: int)                    // (0018,1608)

  /** The `dicom_data` record. */
  datatype DicomData = DicomData(
    sensorWidthPx: int, sensorHeightPx: int,
    sensorWidthMm: real, sensorHeightMm: real,
    imageWidthPx: int, imageHeightPx: int,
    imageWidthMm: real, imageHeightMm: real,
    fovXRad: real, fovYRad: real,
    fovXDeg: real, fovYDeg: real)

  /** The one way the arithmetic can fail: Python raises ZeroDivisionError
      when the source-to-detector distance is zero. */
  datatype GeometryError = DivisionByZero

  datatype Result<T> = Success(value: T) | Failure(error: GeometryError)

  // ---------------------------------------------------------------------------
  // The axis convention: which spacing component belongs to which axis.
  // ---------------------------------------------------------------------------

  /** Horizontal size of a pixel: the column spacing, `value[1]`. */
  function WidthSpacing(s: PixelSpacing): real { s.columnSpacing }

  /** Vertical size of a pixel: the row spacing, `value[0]`. */
  function HeightSpacing(s: PixelSpacing): real { s.rowSpacing }

  // ---------------------------------------------------------------------------
  // Building blocks
  // ---------------------------------------------------------------------------

  /** Number of pixels between two shutter edges, both edges included. */
  function InclusiveExtent(lo: int, hi: int): int { hi - lo + 1 }

  /** Pixel coordinate `x` lies between the two edges, both included. */
  predicate Between(lo: int, x: int, hi: int) { lo <= x <= hi }

  /** The pixel coordinates from `lo` to `hi`, both included: the reference
      meaning of an inclusive extent. The bare bounds make the set visibly
      finite; `Between` gives the comprehension a term to trigger on. */
  function Covered(lo: int, hi: int): set<int> {
    set x: int | lo <= x <= hi && Between(lo, x, hi)
  }

  /** Full opening angle of an object of `sizeMm` seen from `distance`. */
  function FieldOfView(sizeMm: real, distance: real, atan: real -> real): real
    requires distance != 0.0
  {
    2.0 * atan(sizeMm / 2.0 / distance)
  }

  /** Radians to degrees as the source writes it: `rad / (2 pi) * 360`. */
  function RadToDeg(rad: real): (deg: real)
    ensures deg * Pi == rad * 180.0
    ensures deg * Pi / 180.0 == rad
  {
    rad / (2.0 * Pi) * 360.0
  }

  /** Largest half-angle tangent for which the range of the arctangent is
      assumed. Both the exact arctangent and numpy's double `arctan` stay
      below `Pi / 2` up to this argument, since pi/2 - atan(x) is about 1/x.
      Beyond about 5.8e15 numpy's `arctan` returns the double nearest pi/2,
      and `read_dicom` itself reports a field of view of exactly 180 degrees. */
  const MaxTangent: real := 1_000_000_000_000_000.0

  /** What lemmas about the field of view may assume of the arctangent:
      on positive arguments up to `MaxTangent` it lies strictly between
      0 and pi/2. */
  ghost predicate ArctanLike(atan: real -> real) {
    forall x: real :: 0.0 < x <= MaxTangent ==> 0.0 < atan(x) < Pi / 2.0
  }

  /** `tan` undoes `atan`. */
  ghost predicate InverseOf(tan: real -> real, atan: real -> real) {
    forall x: real :: tan(atan(x)) == x
  }

  // ---------------------------------------------------------------------------
  // The derivation
  // ---------------------------------------------------------------------------

  /** The arithmetic of `read_dicom` once the header values are known. */
  function Derive(f: HeaderFields, atan: real -> real): (d: DicomData)
    requires f.distSourceDetector != 0.0
    ensures d.sensorWidthPx == f.columns && d.sensorHeightPx == f.rows
    ensures d.sensorWidthMm == d.sensorWidthPx as real * WidthSpacing(f.imagerPixelSpacing)
    ensures d.sensorHeightMm == d.sensorHeightPx as real * HeightSpacing(f.imagerPixelSpacing)
    ensures d.imageWidthMm == d.imageWidthPx as real * WidthSpacing(f.imagerPixelSpacing)
    ensures d.imageHeightMm == d.imageHeightPx as real * HeightSpacing(f.imagerPixelSpacing)
    ensures d.imageWidthPx - 1 == f.rightEdge - f.leftEdge
    ensures d.imageHeightPx - 1 == f.lowerEdge - f.upperEdge
    ensures d.fovXRad == 2.0 * atan(d.imageWidthMm / 2.0 / f.distSourceDetector)
    ensures d.fovYRad == 2.0 * atan(d.imageHeightMm / 2.0 / f.distSourceDetector)
    ensures d.fovXDeg * Pi == d.fovXRad * 180.0
    ensures d.fovYDeg * Pi == d.fovYRad * 180.0
  {
    var sensorWidthMm := f.columns as real * WidthSpacing(f.imagerPixelSpacing);
    var sensorHeightMm := f.rows as real * HeightSpacing(f.imagerPixelSpacing);
    var imageWidth := InclusiveExtent(f.leftEdge, f.rightEdge);
    var imageHeight := InclusiveExtent(f.upperEdge, f.lowerEdge);
    var imageWidthMm := imageWidth as real * WidthSpacing(f.imagerPixelSpacing);
    var imageHeightMm := imageHeight as real * HeightSpacing(f.imagerPixelSpacing);
    var fovX := FieldOfView(imageWidthMm, f.distSourceDetector, atan);
    var fovY := FieldOfView(imageHeightMm, f.distSourceDetector, atan);
    DicomData(
      sensorWidthPx := f.columns,
      sensorHeightPx := f.rows,
      sensorWidthMm := sensorWidthMm,
      sensorHeightMm := sensorHeightMm,
      imageWidthPx := imageWidth,
      imageHeightPx := imageHeight,
      imageWidthMm := imageWidthMm,
      imageHeightMm := imageHeightMm,
      fovXRad := fovX,
      fovYRad := fovY,
      fovXDeg := RadToDeg(fovX),
      fovYDeg := RadToDeg(fovY))
  }

  /** `read_dicom` after the lookups: the derivation, or the division error. */
  function ReadDicom(f: HeaderFields, atan: real -> real): (r: Result<DicomData>)
    ensures r.Failure? <==> f.distSourceDetector == 0.0
    ensures r.Success? ==> r.value == Derive(f, atan)
  {
    if f.distSourceDetector == 0.0 then Failure(DivisionByZero)
    else Success(Derive(f, atan))
  }

  /** Positive distance, spacings and counts, ordered edges, and an image
      no wider or taller than `2 * MaxTangent` times the distance. */
  predicate PlausibleGeometry(f: HeaderFields) {
    && f.distSourceDetector > 0.0
    && f.imagerPixelSpacing.rowSpacing > 0.0
    && f.imagerPixelSpacing.columnSpacing > 0.0
    && f.rows > 0 && f.columns > 0
    && f.leftEdge <= f.rightEdge
    && f.upperEdge <= f.lowerEdge
    && InclusiveExtent(f.leftEdge, f.rightEdge) as real * f.imagerPixelSpacing.columnSpacing
       <= 2.0 * MaxTangent * f.distSourceDetector
    && InclusiveExtent(f.upperEdge, f.lowerEdge) as real * f.imagerPixelSpacing.rowSpacing
       <= 2.0 * MaxTangent * f.distSourceDetector
  }

  // ---------------------------------------------------------------------------
  // Properties
  // ---------------------------------------------------------------------------

  /** An inclusive extent counts exactly the covered pixel coordinates. */
  lemma {:induction false} InclusiveExtentCounts(lo: int, hi: int)
    requires lo <= hi + 1
    ensures |Covered(lo, hi)| == InclusiveExtent(lo, hi)
    decreases hi - lo + 1
  {
    if lo == hi + 1 {
      assert Covered(lo, hi) == {};
    } else {
      InclusiveExtentCounts(lo, hi - 1);
      assert Covered(lo, hi) == Covered(lo, hi - 1) + {hi};
      assert hi !in Covered(lo, hi - 1);
    }
  }

  /** The image width and height in pixels are the numbers of pixel columns
      and rows between the shutter edges, both edges included. */
  lemma ImageSizeCountsPixels(f: HeaderFields, atan: real -> real)
    requires f.distSourceDetector != 0.0
    requires f.leftEdge <= f.rightEdge && f.upperEdge <= f.lowerEdge
    ensures Derive(f, atan).imageWidthPx == |Covered(f.leftEdge, f.rightEdge)|
    ensures Derive(f, atan).imageHeightPx == |Covered(f.upperEdge, f.lowerEdge)|
  {
    InclusiveExtentCounts(f.leftEdge, f.rightEdge);
    InclusiveExtentCounts(f.upperEdge, f.lowerEdge);
  }

  /** Equal left and right edges give a one-pixel-wide image, not an empty
      one; likewise for upper and lower edges. */
  lemma SingleEdgeGivesOnePixel(f: HeaderFields, atan: real -> real)
    requires f.distSourceDetector != 0.0
    ensures f.leftEdge == f.rightEdge ==> Derive(f, atan).imageWidthPx == 1
    ensures f.upperEdge == f.lowerEdge ==> Derive(f, atan).imageHeightPx == 1
  {
  }

  /** The source does not check edge order: inverted edges are accepted and
      give an image size of zero or less. */
  lemma InvertedEdgesAccepted(f: HeaderFields, atan: real -> real)
    requires f.distSourceDetector != 0.0
    ensures ReadDicom(f, atan).Success?
    ensures f.rightEdge < f.leftEdge ==> ReadDicom(f, atan).value.imageWidthPx <= 0
    ensures f.lowerEdge < f.upperEdge ==> ReadDicom(f, atan).value.imageHeightPx <= 0
  {
  }

  /** Each axis uses one spacing component for both the sensor and the image:
      millimetres per pixel agree between sensor and image, and equal the
      column spacing horizontally and the row spacing vertically. */
  lemma SpacingPerAxis(f: HeaderFields, atan: real -> real)
    requires f.distSourceDetector != 0.0
    ensures var d := Derive(f, atan);
      && d.imageWidthMm * d.sensorWidthPx as real == d.sensorWidthMm * d.imageWidthPx as real
      && d.imageHeightMm * d.sensorHeightPx as real == d.sensorHeightMm * d.imageHeightPx as real
    ensures var d := Derive(f, atan);
      && (d.sensorWidthPx != 0 ==> d.sensorWidthMm / d.sensorWidthPx as real == f.imagerPixelSpacing.columnSpacing)
      && (d.imageWidthPx != 0 ==> d.imageWidthMm / d.imageWidthPx as real == f.imagerPixelSpacing.columnSpacing)
      && (d.sensorHeightPx != 0 ==> d.sensorHeightMm / d.sensorHeightPx as real == f.imagerPixelSpacing.rowSpacing)
      && (d.imageHeightPx != 0 ==> d.imageHeightMm / d.imageHeightPx as real == f.imagerPixelSpacing.rowSpacing)
  {
    var d := Derive(f, atan);
    var s := f.imagerPixelSpacing;
    SameSpacing(d.sensorWidthPx, d.imageWidthPx, s.columnSpacing);
    SameSpacing(d.sensorHeightPx, d.imageHeightPx, s.rowSpacing);
  }

  /** Two pixel counts scaled by one spacing: sizes are proportional to the
      counts, and each size divided by its count gives back the spacing. */
  lemma SameSpacing(a: int, b: int, spacing: real)
    ensures (b as real * spacing) * a as real == (a as real * spacing) * b as real
    ensures a != 0 ==> (a as real * spacing) / a as real == spacing
    ensures b != 0 ==> (b as real * spacing) / b as real == spacing
  {
  }

  /** The geometric meaning of the field of view: the tangent of half the
      angle is half the image size over the source-to-detector distance. */
  lemma FovHalfAngleTangent(f: HeaderFields, atan: real -> real, tan: real -> real)
    requires f.distSourceDetector != 0.0
    requires InverseOf(tan, atan)
    ensures var d := Derive(f, atan);
      && tan(d.fovXRad / 2.0) * f.distSourceDetector == d.imageWidthMm / 2.0
      && tan(d.fovYRad / 2.0) * f.distSourceDetector == d.imageHeightMm / 2.0
  {
  }

  /** Degrees convert back to the radians they were computed from. */
  lemma FovDegreesRoundTrip(f: HeaderFields, atan: real -> real)
    requires f.distSourceDetector != 0.0
    ensures var d := Derive(f, atan);
      && d.fovXDeg * Pi / 180.0 == d.fovXRad
      && d.fovYDeg * Pi / 180.0 == d.fovYRad
  {
  }

  /** For plausible input every size is positive and both fields of view lie
      strictly between 0 and pi radians, 0 and 180 degrees. */
  lemma PlausibleGeometryRanges(f: HeaderFields, atan: real -> real)
    requires PlausibleGeometry(f)
    requires ArctanLike(atan)
    ensures var d := Derive(f, atan);
      && d.sensorWidthPx > 0 && d.sensorHeightPx > 0
      && d.sensorWidthMm > 0.0 && d.sensorHeightMm > 0.0
      && d.imageWidthPx > 0 && d.imageHeightPx > 0
      && d.imageWidthMm > 0.0 && d.imageHeightMm > 0.0
      && 0.0 < d.fovXRad < Pi && 0.0 < d.fovYRad < Pi
      && 0.0 < d.fovXDeg < 180.0 && 0.0 < d.fovYDeg < 180.0
  {
  }

  /** Only the eight tags the derivation reads influence the result: the
      source-to-patient and source-to-entrance distances and the positioner
      angles are read and ignored. */
  lemma UnusedTagsIgnored(f: HeaderFields, g: HeaderFields, atan: real -> real)
    requires f.distSourceDetector == g.distSourceDetector
    requires f.imagerPixelSpacing == g.imagerPixelSpacing
    requires f.rows == g.rows && f.columns == g.columns
    requires f.leftEdge == g.leftEdge && f.rightEdge == g.rightEdge
    requires f.upperEdge == g.upperEdge && f.lowerEdge == g.lowerEdge
    ensures ReadDicom(f, atan) == ReadDicom(g, atan)
  {
    if f.distSourceDetector != 0.0 {
      var d, e := Derive(f, atan), Derive(g, atan);
      assert d.sensorWidthMm == e.sensorWidthMm && d.sensorHeightMm == e.sensorHeightMm;
      assert d.imageWidthMm == e.imageWidthMm && d.imageHeightMm == e.imageHeightMm;
      assert d.fovXRad == e.fovXRad && d.fovYRad == e.fovYRad;
      assert d == e;
    }
  }

  /** A worked example: 800 rows and 1200 columns, row spacing 0.15 mm and
      column spacing 0.2 mm, shutter edges 100..899 horizontally and 50..649
      vertically, at 1000 mm from the source. */
  lemma WorkedExample(atan: real -> real)
    ensures var f := HeaderFields(1000.0, 0.0, 0.0, PixelSpacing(0.15, 0.2), 0.0, 0.0,
                                  800, 1200, 100, 899, 50, 649);
      var d := Derive(f, atan);
      && d.sensorWidthPx == 1200 && d.sensorHeightPx == 800
      && d.sensorWidthMm == 240.0 && d.sensorHeightMm == 120.0
      && d.imageWidthPx == 800 && d.imageHeightPx == 600
      && d.imageWidthMm == 160.0 && d.imageHeightMm == 90.0
      && d.fovXRad == 2.0 * atan(0.08) && d.fovYRad == 2.0 * atan(0.045)
  {
  }
}
