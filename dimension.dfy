/** The pixel extent of an image or a screen (Sources/Image/Dimension.swift). */
module Dimensions {
  import opened Numeric

  /** A CGSize: a width and a height in CGFloat, modelled as exact reals. */
  datatype Size = Size(width: real, height: real)

  /** `Dimension`: an immutable width/height pair in whole pixels. */
  datatype Dimension = Dimension(width: int, height: int)

  /** `init(width:height:)`: both fields are stored as given. */
  function MakeDimension(width: int, height: int): (d: Dimension)
    ensures d.width == width && d.height == height
  {
    Dimension(width, height)
  }

  /** `init(_ size:)`: each component of the CGSize is converted with `Int(...)`. */
  function FromSize(size: Size): (d: Dimension)
    ensures 0.0 <= size.width ==> 0 <= d.width && d.width as real <= size.width < d.width as real + 1.0
    ensures size.width < 0.0 ==> d.width <= 0 && d.width as real - 1.0 < size.width <= d.width as real
    ensures 0.0 <= size.height ==> 0 <= d.height && d.height as real <= size.height < d.height as real + 1.0
    ensures size.height < 0.0 ==> d.height <= 0 && d.height as real - 1.0 < size.height <= d.height as real
  {
    Dimension(Trunc(size.width), Trunc(size.height))
  }

  /** `cgSize`: the same extent as a CGSize. */
  function CgSize(d: Dimension): (s: Size)
    ensures s.width == d.width as real && s.height == d.height as real
  {
    Size(d.width as real, d.height as real)
  }

  /**
   * `aspectRatio`: width divided by height, on CGFloat. A zero height gives +infinity,
   * -infinity or NaN according to the sign of the width.
   */
  function AspectRatio(d: Dimension): (ratio: Float)
    ensures ratio.Finite? <==> d.height != 0
    ensures ratio.Finite? ==> ratio.value * d.height as real == d.width as real
    ensures d.height == 0 ==> (ratio == PosInf <==> d.width > 0) && (ratio == NaN <==> d.width == 0)
  {
    FloatDiv(d.width as real, d.height as real)
  }

  /** Converting to a CGSize and back gives the same dimension. */
  lemma {:induction false} CgSizeRoundTrip(d: Dimension)
    ensures FromSize(CgSize(d)) == d
  {
    TruncOfInt(d.width);
    TruncOfInt(d.height);
  }

  /** For positive heights, a wider aspect ratio is the cross-multiplied comparison. */
  lemma AspectRatioOrder(a: Dimension, b: Dimension)
    requires a.height > 0 && b.height > 0
    ensures AspectRatio(a).value >= AspectRatio(b).value <==> a.width * b.height >= b.width * a.height
  {
    var ra, rb := AspectRatio(a).value, AspectRatio(b).value;
    var ha, hb := a.height as real, b.height as real;
    assert ra * ha == a.width as real && rb * hb == b.width as real;
    assert (a.width * b.height) as real == ra * ha * hb;
    assert (b.width * a.height) as real == rb * hb * ha;
    assert ra >= rb <==> ra * (ha * hb) >= rb * (ha * hb);
  }
}
