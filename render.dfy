/**
 * `renderImageWithMargin` (Sources/Image.swift): fill the screen-sized canvas black, clip
 * to the area below the top margin (rounded when a border radius is given), draw the
 * scaled image centred horizontally on the bottom edge.
 */
module Render {
  import opened Wrappers
  import opened Numeric
  import opened Dimensions
  import opened Geometry
  import opened Paths
  import opened Raster
  import opened ImageErrors
  import opened Scaling

  /** Outcomes of the Core Graphics calls that can fail: creating the context, `makeImage()`. */
  datatype Graphics = Graphics(contextAvailable: bool, finalImageAvailable: bool)

  /** Where the scaled image is drawn: `xOffset = (screenWidth - scaled.width) / 2`, on the bottom edge. */
  function ImageRect(screenWidth: int, scaled: Dimension): (r: Rect)
    ensures r.x == HalfTowardZero(screenWidth - scaled.width) as real
    ensures r.y == 0.0 && r.width == scaled.width as real && r.height == scaled.height as real
    ensures var left, right := r.x, screenWidth as real - (r.x + r.width);
      -1.0 <= left - right <= 1.0
  {
    Rect(HalfTowardZero(screenWidth - scaled.width) as real, 0.0, scaled.width as real, scaled.height as real)
  }

  /** The whole screen width, from the bottom edge up to the top margin. */
  function AvailableRect(screenWidth: int, screenHeight: int, marginTop: int): (r: Rect)
    ensures screenWidth >= 0 && screenHeight - marginTop >= 0 ==> forall p :: Contains(r, p) <==>
      0.0 <= p.x < screenWidth as real && 0.0 <= p.y < (screenHeight - marginTop) as real
    ensures screenHeight - marginTop <= 0 ==> forall p :: !(Contains(r, p) && p.y >= 0.0)
  {
    Rect(0.0, 0.0, screenWidth as real, (screenHeight - marginTop) as real)
  }

  /**
   * The image rect always meets the available rect: both start at y = 0, and the
   * horizontal centring keeps the image's extent overlapping [0, screenWidth].
   */
  lemma ClippingRectExists(screenWidth: int, screenHeight: int, marginTop: int, scaled: Dimension)
    requires screenWidth >= 0
    ensures Intersection(ImageRect(screenWidth, scaled), AvailableRect(screenWidth, screenHeight, marginTop)).Some?
  {
    var xOffset := HalfTowardZero(screenWidth - scaled.width);
    if scaled.width >= 0 {
      assert xOffset <= screenWidth && xOffset + scaled.width >= 0;
    } else {
      assert 0 <= xOffset && xOffset + scaled.width <= screenWidth;
    }
  }

  /** `imageRect.intersection(availableRect)`, the rect the rounded path is built over. */
  function ClippingRect(screenWidth: int, screenHeight: int, marginTop: int, scaled: Dimension): (r: Rect)
    requires screenWidth >= 0
    ensures forall p :: Contains(r, p) <==>
      Contains(ImageRect(screenWidth, scaled), p) && Contains(AvailableRect(screenWidth, screenHeight, marginTop), p)
  {
    ClippingRectExists(screenWidth, screenHeight, marginTop, scaled);
    var r := Intersection(ImageRect(screenWidth, scaled), AvailableRect(screenWidth, screenHeight, marginTop)).value;
    assert forall p :: Contains(r, p) <==>
      Contains(ImageRect(screenWidth, scaled), p) && Contains(AvailableRect(screenWidth, screenHeight, marginTop), p) by {
      forall p {
        IntersectionContains(ImageRect(screenWidth, scaled), AvailableRect(screenWidth, screenHeight, marginTop), p);
      }
    }
    r
  }

  /**
   * The clip in force when the image is drawn: the rounded path over the clipping rect
   * for a positive radius, the available rect otherwise. Either way it lies within the
   * available rect.
   */
  function ClipRegion(screenWidth: int, screenHeight: int, marginTop: int, scaled: Dimension, borderRadius: Option<int>): (region: Region)
    requires screenWidth >= 0
    ensures region.PathRegion? <==> borderRadius.Some? && borderRadius.value > 0
    ensures forall p :: InRegion(region, p) ==> Contains(AvailableRect(screenWidth, screenHeight, marginTop), p)
  {
    if borderRadius.Some? && borderRadius.value > 0 then
      var rect := ClippingRect(screenWidth, screenHeight, marginTop, scaled);
      var elements := RoundedRectElements(rect, borderRadius.value as real);
      assert forall p :: InsidePath(elements, p) ==> Contains(AvailableRect(screenWidth, screenHeight, marginTop), p) by {
        forall p | InsidePath(elements, p)
          ensures Contains(AvailableRect(screenWidth, screenHeight, marginTop), p)
        {
          RoundedPathWithinRect(rect, borderRadius.value as real, p);
        }
      }
      PathRegion(elements)
    else
      RectRegion(AvailableRect(screenWidth, screenHeight, marginTop))
  }

  /** The colour of pixel (x, y) of the rendered canvas: the image where drawn, black elsewhere. */
  function CompositePixel(image: Bitmap, scaled: Dimension, screenWidth: int, screenHeight: int,
                          marginTop: int, borderRadius: Option<int>, x: int, y: int): Color
    requires Drawable(image) && screenWidth >= 0
  {
    Painted(Black, [ClipRegion(screenWidth, screenHeight, marginTop, scaled, borderRadius)],
            ImageRect(screenWidth, scaled), Picture(image), x, y)
  }

  /** The rendered canvas, screen-sized. */
  function Composite(image: Bitmap, scaled: Dimension, screenWidth: int, screenHeight: int,
                     marginTop: int, borderRadius: Option<int>): (canvas: Bitmap)
    requires Drawable(image) && screenWidth >= 0 && screenHeight >= 0
    ensures WellFormed(canvas) && canvas.width == screenWidth && canvas.height == screenHeight
    ensures forall x, y :: 0 <= x < screenWidth && 0 <= y < screenHeight ==>
      canvas.rows[y][x] == CompositePixel(image, scaled, screenWidth, screenHeight, marginTop, borderRadius, x, y)
  {
    Bitmap(screenWidth, screenHeight,
      seq(screenHeight, y requires 0 <= y < screenHeight =>
        seq(screenWidth, x requires 0 <= x < screenWidth =>
          CompositePixel(image, scaled, screenWidth, screenHeight, marginTop, borderRadius, x, y))))
  }

  /** Filling the screen-sized rect with the default clip reaches every pixel. */
  lemma CanvasRectCoversPixel(screenWidth: int, screenHeight: int, x: int, y: int)
    requires 0 <= x < screenWidth && 0 <= y < screenHeight
    ensures Contains(Rect(0.0, 0.0, screenWidth as real, screenHeight as real), PixelCentre(x, y))
    ensures InClip([], PixelCentre(x, y))
  {
  }

  /** `setFillColor(black)` and `fill(...)` of the whole screen: every pixel becomes black. */
  method FillBlack(context: Context)
    requires context.Valid() && context.clip == [] && context.path == []
    modifies context, context.pixels
    ensures context.fillColor == Black && context.clip == [] && context.path == []
    ensures forall x, y :: 0 <= x < context.width && 0 <= y < context.height ==> context.pixels[x, y] == Black
  {
    context.SetFillColor(Black);
    context.Fill(Rect(0.0, 0.0, context.width as real, context.height as real));
    forall x, y | 0 <= x < context.width && 0 <= y < context.height
      ensures context.pixels[x, y] == Black
    {
      CanvasRectCoversPixel(context.width, context.height, x, y);
    }
  }

  /** The clipping branch: a rounded path over the clipping rect, or the available rect. */
  method ApplyClip(context: Context, screenWidth: int, screenHeight: int, marginTop: int,
                   scaledSize: Dimension, borderRadius: Option<int>)
    requires context.Valid() && context.clip == [] && context.path == [] && screenWidth >= 0
    modifies context
    ensures context.clip == [ClipRegion(screenWidth, screenHeight, marginTop, scaledSize, borderRadius)]
    ensures context.path == [] && context.fillColor == old(context.fillColor)
  {
    var imageRect := ImageRect(screenWidth, scaledSize);
    var availableRect := AvailableRect(screenWidth, screenHeight, marginTop);
    if borderRadius.Some? && borderRadius.value > 0 {
      ClippingRectExists(screenWidth, screenHeight, marginTop, scaledSize);
      var clippingRect := Intersection(imageRect, availableRect).value;
      assert clippingRect == ClippingRect(screenWidth, screenHeight, marginTop, scaledSize);
      var roundedPath := CreateRoundedRectPath(clippingRect, borderRadius.value as real);
      assert context.path == [];
      context.AddPath(roundedPath.elements);
      assert context.path == RoundedRectElements(clippingRect, borderRadius.value as real);
      context.Clip();
    } else {
      context.ClipToRect(availableRect);
    }
  }

  /**
   * `renderImageWithMargin(cgImage:scaledSize:screen:marginTop:borderRadius:)`: the
   * failures of context creation and of `makeImage()` become `ImageError`s; otherwise the
   * result is the composited canvas.
   */
  method RenderImageWithMargin(cgImage: Bitmap, scaledSize: Dimension, screen: Size, marginTop: int,
                               borderRadius: Option<int>, graphics: Graphics)
    returns (result: Result<Bitmap, ImageError>)
    requires Drawable(cgImage)
    requires screen.width >= 0.0 && screen.height >= 0.0
    ensures !graphics.contextAvailable ==> result == Failure(FailedToCreateContext)
    ensures graphics.contextAvailable && !graphics.finalImageAvailable ==> result == Failure(FailedToCreateFinalImage)
    ensures graphics.contextAvailable && graphics.finalImageAvailable ==>
      result == Success(Composite(cgImage, scaledSize, Trunc(screen.width), Trunc(screen.height), marginTop, borderRadius))
  {
    var screenWidth := Trunc(screen.width);
    var screenHeight := Trunc(screen.height);

    var context := CreateContext(screenWidth, screenHeight, graphics.contextAvailable);
    if context == null {
      return Failure(FailedToCreateContext);
    }
    FillBlack(context);
    ApplyClip(context, screenWidth, screenHeight, marginTop, scaledSize, borderRadius);
    context.Draw(cgImage, ImageRect(screenWidth, scaledSize));

    var finalImage := context.MakeImage(graphics.finalImageAvailable);
    if finalImage.None? {
      return Failure(FailedToCreateFinalImage);
    }
    SnapshotIsComposite(context.Snapshot(), cgImage, scaledSize, screenWidth, screenHeight, marginTop, borderRadius);
    return Success(finalImage.value);
  }

  /** A screen-sized bitmap whose every pixel is the composite pixel is the composite. */
  lemma SnapshotIsComposite(canvas: Bitmap, image: Bitmap, scaled: Dimension, screenWidth: int, screenHeight: int,
                            marginTop: int, borderRadius: Option<int>)
    requires Drawable(image) && screenWidth >= 0 && screenHeight >= 0
    requires WellFormed(canvas) && canvas.width == screenWidth && canvas.height == screenHeight
    requires forall x, y :: 0 <= x < screenWidth && 0 <= y < screenHeight ==>
      canvas.rows[y][x] == CompositePixel(image, scaled, screenWidth, screenHeight, marginTop, borderRadius, x, y)
    ensures canvas == Composite(image, scaled, screenWidth, screenHeight, marginTop, borderRadius)
  {
    var expected := Composite(image, scaled, screenWidth, screenHeight, marginTop, borderRadius);
    forall y | 0 <= y < screenHeight
      ensures canvas.rows[y] == expected.rows[y]
    {
    }
  }

  /**
   * Every pixel of the margin band, the rows from the available height up to the top of
   * the screen, stays black whatever the image and the border radius.
   */
  lemma {:induction false} MarginBandStaysBlack(image: Bitmap, scaled: Dimension, screenWidth: int, screenHeight: int,
                                                marginTop: int, borderRadius: Option<int>, x: int, y: int)
    requires Drawable(image) && screenWidth >= 0
    requires 0 <= x < screenWidth && 0 <= y < screenHeight && y >= screenHeight - marginTop
    ensures CompositePixel(image, scaled, screenWidth, screenHeight, marginTop, borderRadius, x, y) == Black
  {
    var p := PixelCentre(x, y);
    var available := AvailableRect(screenWidth, screenHeight, marginTop);
    var region := ClipRegion(screenWidth, screenHeight, marginTop, scaled, borderRadius);
    assert !Contains(available, p);
    if borderRadius.Some? && borderRadius.value > 0 {
      var clipping := ClippingRect(screenWidth, screenHeight, marginTop, scaled);
      IntersectionContains(ImageRect(screenWidth, scaled), available, p);
      assert !Contains(clipping, p);
      if InsidePath(RoundedRectElements(clipping, borderRadius.value as real), p) {
        RoundedPathWithinRect(clipping, borderRadius.value as real, p);
      }
    }
    assert !InRegion(region, p);
    InClipSingleton(region, p);
  }

  /**
   * With a positive border radius, every pixel in a corner cut of the rounded clip stays
   * black whatever the image.
   */
  lemma {:induction false} RoundedCornersStayBlack(image: Bitmap, scaled: Dimension, screenWidth: int, screenHeight: int,
                                                   marginTop: int, radius: int, x: int, y: int)
    requires Drawable(image) && screenWidth >= 0 && radius > 0
    requires InCornerCut(RoundedContour(ClippingRect(screenWidth, screenHeight, marginTop, scaled), radius as real), PixelCentre(x, y))
    ensures CompositePixel(image, scaled, screenWidth, screenHeight, marginTop, Some(radius), x, y) == Black
  {
    var p := PixelCentre(x, y);
    var region := ClipRegion(screenWidth, screenHeight, marginTop, scaled, Some(radius));
    RoundedPathRegion(ClippingRect(screenWidth, screenHeight, marginTop, scaled), radius as real, p);
    assert !InRegion(region, p);
    InClipSingleton(region, p);
  }

  /** Without a positive border radius the clip is exactly the available rect. */
  lemma {:induction false} NoRadiusClipsToAvailableRect(image: Bitmap, scaled: Dimension, screenWidth: int, screenHeight: int,
                                                        marginTop: int, borderRadius: Option<int>, x: int, y: int)
    requires Drawable(image) && screenWidth >= 0
    requires borderRadius.None? || borderRadius.value <= 0
    ensures var p := PixelCentre(x, y);
      CompositePixel(image, scaled, screenWidth, screenHeight, marginTop, borderRadius, x, y) ==
        if Contains(AvailableRect(screenWidth, screenHeight, marginTop), p) && Contains(ImageRect(screenWidth, scaled), p)
        then Sample(image, ImageRect(screenWidth, scaled), x, y)
        else Black
  {
    InClipSingleton(ClipRegion(screenWidth, screenHeight, marginTop, scaled, borderRadius), PixelCentre(x, y));
  }

  /**
   * An image scaled by `calculateScaledDimensions` covers the whole available area: with a
   * margin inside the screen, its rect contains every pixel below the margin.
   */
  lemma {:induction false} ScaledImageCoversAvailableArea(imageSize: Size, screen: Size, marginTop: int, x: int, y: int)
    requires ValidSizes(imageSize, screen)
    requires 0 <= marginTop < Trunc(screen.height)
    requires 0 <= x < Trunc(screen.width) && 0 <= y < Trunc(screen.height) - marginTop
    ensures var scaled := CalculateScaledDimensions(imageSize, screen, marginTop);
      Contains(ImageRect(Trunc(screen.width), scaled), PixelCentre(x, y))
  {
    var scaled := CalculateScaledDimensions(imageSize, screen, marginTop);
    ScaledSizeCoversAvailableArea(imageSize, screen, marginTop);
    var screenWidth := Trunc(screen.width);
    var xOffset := HalfTowardZero(screenWidth - scaled.width);
    assert xOffset <= 0 && xOffset + scaled.width >= screenWidth;
  }

  /**
   * No background shows below the margin when the image was scaled by
   * `calculateScaledDimensions`: without a border radius every pixel there is drawn from
   * the image, and with one every pixel outside the four corner cuts is.
   */
  lemma {:induction false} AvailableAreaShowsImage(image: Bitmap, screen: Size, marginTop: int,
                                                  borderRadius: Option<int>, x: int, y: int)
    requires Drawable(image)
    requires ValidSizes(Size(image.width as real, image.height as real), screen)
    requires 0 <= marginTop < Trunc(screen.height)
    requires 0 <= x < Trunc(screen.width) && 0 <= y < Trunc(screen.height) - marginTop
    ensures var scaled := CalculateScaledDimensions(Size(image.width as real, image.height as real), screen, marginTop);
      var screenWidth, screenHeight := Trunc(screen.width), Trunc(screen.height);
      Contains(ImageRect(screenWidth, scaled), PixelCentre(x, y)) &&
      (borderRadius.Some? && borderRadius.value > 0 ==>
        InCornerCut(RoundedContour(ClippingRect(screenWidth, screenHeight, marginTop, scaled), borderRadius.value as real), PixelCentre(x, y)) ||
        CompositePixel(image, scaled, screenWidth, screenHeight, marginTop, borderRadius, x, y) ==
          Sample(image, ImageRect(screenWidth, scaled), x, y)) &&
      (borderRadius.None? || borderRadius.value <= 0 ==>
        CompositePixel(image, scaled, screenWidth, screenHeight, marginTop, borderRadius, x, y) ==
          Sample(image, ImageRect(screenWidth, scaled), x, y))
  {
    var imageSize := Size(image.width as real, image.height as real);
    var scaled := CalculateScaledDimensions(imageSize, screen, marginTop);
    var screenWidth, screenHeight := Trunc(screen.width), Trunc(screen.height);
    var p := PixelCentre(x, y);
    ScaledImageCoversAvailableArea(imageSize, screen, marginTop, x, y);
    assert Contains(AvailableRect(screenWidth, screenHeight, marginTop), p);
    var region := ClipRegion(screenWidth, screenHeight, marginTop, scaled, borderRadius);
    InClipSingleton(region, p);
    if borderRadius.Some? && borderRadius.value > 0 {
      var clipping := ClippingRect(screenWidth, screenHeight, marginTop, scaled);
      RoundedPathRegion(clipping, borderRadius.value as real, p);
    }
  }
}
