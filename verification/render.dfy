/** The geometry and the title of the overlay scene `visualize` draws. */
module Render {
  import opened Dicom
  import opened Contours

  /** `calculateImageDimensions`'s result `(x1, x2, y1, y2)`. */
  datatype Dimensions = Dimensions(x1: real, x2: real, y1: real, y2: real)

  /** The `extent` handed to `imshow`: `(left, right, bottom, top)`. */
  datatype ImageExtent = ImageExtent(left: real, right: real, bottom: real, top: real)

  /** What `visualize` draws: the CT pixels placed at `extent`, one outline per
      polygon, and the title. */
  datatype Scene = Scene(pixels: seq<seq<int>>, extent: ImageExtent, polygons: seq<seq<Point>>, title: string)

  /** `calculateImageDimensions`: the rectangle starts at the patient position
      and is `PixelSpacing[0] * Rows` wide and `PixelSpacing[1] * Columns` high. */
  function CalculateImageDimensions(ct: CtImage): (d: Dimensions)
    ensures d.x1 == ct.imagePositionPatient.0 && d.y1 == ct.imagePositionPatient.1
    ensures d.x2 - d.x1 == ct.pixelSpacing.0 * ct.rows as real
    ensures d.y2 - d.y1 == ct.pixelSpacing.1 * ct.columns as real
  {
    var x1 := ct.imagePositionPatient.0;
    var y1 := ct.imagePositionPatient.1;
    Dimensions(x1, x1 + ct.pixelSpacing.0 * ct.rows as real, y1, y1 + ct.pixelSpacing.1 * ct.columns as real)
  }

  /** The image is placed with its y range flipped: `(x1, x2, y2, y1)`. */
  function DisplayExtent(d: Dimensions): (e: ImageExtent)
    ensures e.left == d.x1 && e.right == d.x2
    ensures e.bottom == d.y2 && e.top == d.y1
  {
    ImageExtent(d.x1, d.x2, d.y2, d.y1)
  }

  /** With positive spacing and a non-empty grid the displayed rectangle runs
      left to right and top to bottom in increasing patient coordinates. */
  lemma DisplayExtentOrientation(ct: CtImage)
    requires ct.pixelSpacing.0 > 0.0 && ct.pixelSpacing.1 > 0.0
    requires ct.rows > 0 && ct.columns > 0
    ensures var e := DisplayExtent(CalculateImageDimensions(ct));
      e.left < e.right && e.top < e.bottom && e.top == ct.imagePositionPatient.1
  {
    var d := CalculateImageDimensions(ct);
    assert ct.pixelSpacing.1 * ct.columns as real > 0.0;
    assert ct.pixelSpacing.0 * ct.rows as real > 0.0;
  }

  /** Non-positive spacing is not rejected: zero spacing yields a rectangle of
      zero width. */
  lemma ZeroSpacingIsDegenerate(ct: CtImage)
    requires ct.pixelSpacing.0 == 0.0
    ensures CalculateImageDimensions(ct).x1 == CalculateImageDimensions(ct).x2
  {
  }

  /** A 512 x 512 slice with 1 mm pixels at (-100, -100, 0) spans -100 to 412 on both axes. */
  lemma Slice512Extent(ct: CtImage)
    requires ct.rows == 512 && ct.columns == 512
    requires ct.pixelSpacing == (1.0, 1.0) && ct.imagePositionPatient == (-100.0, -100.0, 0.0)
    ensures CalculateImageDimensions(ct) == Dimensions(-100.0, 412.0, -100.0, 412.0)
    ensures DisplayExtent(CalculateImageDimensions(ct)) == ImageExtent(-100.0, 412.0, 412.0, -100.0)
  {
  }

  /** Python's `sep.join(xs)`. */
  function Join(xs: seq<string>, sep: string): (s: string)
    ensures |xs| == 1 ==> s == xs[0]
    ensures |xs| == 0 ==> s == ""
  {
    if |xs| == 0 then "" else if |xs| == 1 then xs[0] else xs[0] + sep + Join(xs[1..], sep)
  }

  /** Joining one more element appends the separator and that element. */
  lemma {:induction false} JoinSnoc(xs: seq<string>, x: string, sep: string)
    requires |xs| > 0
    ensures Join(xs + [x], sep) == Join(xs, sep) + sep + x
  {
    if |xs| > 1 {
      JoinSnoc(xs[1..], x, sep);
      assert (xs + [x])[1..] == xs[1..] + [x];
    }
  }

  const TitlePrefix: string := "Selected ROIs: "

  /** The title: the fixed prefix, then the selected names joined by ", " in
      selection order. */
  function Title(selected: seq<string>): (t: string)
    ensures |t| >= |TitlePrefix| && t[..|TitlePrefix|] == TitlePrefix
    ensures t[|TitlePrefix|..] == Join(selected, ", ")
  {
    TitlePrefix + Join(selected, ", ")
  }
}
