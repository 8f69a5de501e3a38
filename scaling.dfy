/**
 * `calculateScaledDimensions` (Sources/Image.swift): the size an image is scaled to so
 * that it fills the screen area below the top margin, keeping its aspect ratio.
 */
module Scaling {
  import opened Numeric
  import opened Dimensions

  /**
   * `imageAspect >= availableAspect`, evaluated on CGFloat. With a positive available
   * height this is the cross-multiplied comparison; a zero available height makes the
   * available aspect +infinity (or NaN for a zero-wide screen), so the test fails; a
   * negative one makes it negative (or -0), so the test holds.
   */
  predicate ImageIsWider(imageSize: Size, screenWidth: int, availableHeight: int)
  {
    if availableHeight > 0 then
      imageSize.width * availableHeight as real >= screenWidth as real * imageSize.height
    else
      availableHeight < 0
  }

  /** The image and screen sizes the source can hand in: a decoded image, a screen frame. */
  predicate ValidSizes(imageSize: Size, screenFrame: Size)
  {
    imageSize.width > 0.0 && imageSize.height > 0.0 &&
    screenFrame.width >= 0.0 && screenFrame.height >= 0.0
  }

  /** `screenHeight - marginTop`, with the screen height already converted by `Int(...)`. */
  function AvailableHeight(screenFrame: Size, marginTop: int): (h: int)
    ensures screenFrame.height >= 0.0 ==>
      (h + marginTop) as real <= screenFrame.height < (h + marginTop + 1) as real
  {
    Trunc(screenFrame.height) - marginTop
  }

  /** Scale to the available height; the width follows the image's aspect ratio. */
  function ScaleToHeight(imageSize: Size, availableHeight: int): (d: Dimension)
    requires imageSize.height > 0.0
    ensures d.height == availableHeight
  {
    Dimension(Trunc(imageSize.width * (availableHeight as real / imageSize.height)), availableHeight)
  }

  /** Scale to the screen width; the height follows the image's aspect ratio. */
  function ScaleToWidth(imageSize: Size, screenWidth: int): (d: Dimension)
    requires imageSize.width > 0.0
    ensures d.width == screenWidth
  {
    Dimension(screenWidth, Trunc(imageSize.height * (screenWidth as real / imageSize.width)))
  }

  /** `calculateScaledDimensions(imageSize:screen:marginTop:)`. */
  function CalculateScaledDimensions(imageSize: Size, screenFrame: Size, marginTop: int): (d: Dimension)
    requires ValidSizes(imageSize, screenFrame)
    ensures ImageIsWider(imageSize, Trunc(screenFrame.width), AvailableHeight(screenFrame, marginTop)) ==>
      d.height == AvailableHeight(screenFrame, marginTop)
    ensures !ImageIsWider(imageSize, Trunc(screenFrame.width), AvailableHeight(screenFrame, marginTop)) ==>
      d.width == Trunc(screenFrame.width)
  {
    var screenWidth := Trunc(screenFrame.width);
    var availableHeight := AvailableHeight(screenFrame, marginTop);
    if ImageIsWider(imageSize, screenWidth, availableHeight) then
      ScaleToHeight(imageSize, availableHeight)
    else
      ScaleToWidth(imageSize, screenWidth)
  }

  /** With room below the margin, the branch test is exactly the comparison of aspect ratios. */
  lemma ImageIsWiderIsAspectComparison(imageSize: Size, screenWidth: int, availableHeight: int)
    requires imageSize.width > 0.0 && imageSize.height > 0.0 && availableHeight > 0
    ensures ImageIsWider(imageSize, screenWidth, availableHeight) <==>
      imageSize.width / imageSize.height >= screenWidth as real / availableHeight as real
  {
    CrossMultiplyOrder(imageSize.width, imageSize.height, screenWidth as real, availableHeight as real);
  }

  /**
   * The branch test is the CGFloat comparison `imageAspect >= availableAspect` for every
   * available height: +infinity or NaN when it is zero, a negative aspect (or -0) when it
   * is negative.
   */
  lemma {:induction false} ImageIsWiderIsFloatComparison(imageSize: Size, screenWidth: int, availableHeight: int)
    requires imageSize.width > 0.0 && imageSize.height > 0.0 && screenWidth >= 0
    ensures ImageIsWider(imageSize, screenWidth, availableHeight) <==>
      FloatAtLeast(FloatDiv(imageSize.width, imageSize.height), FloatDiv(screenWidth as real, availableHeight as real))
  {
    var imageAspect := imageSize.width / imageSize.height;
    assert imageAspect > 0.0;
    if availableHeight > 0 {
      ImageIsWiderIsAspectComparison(imageSize, screenWidth, availableHeight);
    } else if availableHeight < 0 {
      var availableAspect := screenWidth as real / availableHeight as real;
      MulDivCancel(screenWidth as real, availableHeight as real);
      assert availableAspect <= 0.0;
    }
  }

  /** Wide branch: the height is the available height, the width the image width scaled by the same factor. */
  lemma {:induction false} WideBranchSize(imageSize: Size, screenFrame: Size, marginTop: int)
    requires ValidSizes(imageSize, screenFrame)
    requires AvailableHeight(screenFrame, marginTop) > 0
    requires imageSize.width / imageSize.height >=
      Trunc(screenFrame.width) as real / AvailableHeight(screenFrame, marginTop) as real
    ensures var ah := AvailableHeight(screenFrame, marginTop);
      CalculateScaledDimensions(imageSize, screenFrame, marginTop) ==
        Dimension(Trunc(imageSize.width * (ah as real / imageSize.height)), ah)
  {
    ImageIsWiderIsAspectComparison(imageSize, Trunc(screenFrame.width), AvailableHeight(screenFrame, marginTop));
  }

  /** Tall branch: the width is the screen width, the height the image height scaled by the same factor. */
  lemma {:induction false} TallBranchSize(imageSize: Size, screenFrame: Size, marginTop: int)
    requires ValidSizes(imageSize, screenFrame)
    requires AvailableHeight(screenFrame, marginTop) > 0
    requires imageSize.width / imageSize.height <
      Trunc(screenFrame.width) as real / AvailableHeight(screenFrame, marginTop) as real
    ensures var sw := Trunc(screenFrame.width);
      CalculateScaledDimensions(imageSize, screenFrame, marginTop) ==
        Dimension(sw, Trunc(imageSize.height * (sw as real / imageSize.width)))
  {
    ImageIsWiderIsAspectComparison(imageSize, Trunc(screenFrame.width), AvailableHeight(screenFrame, marginTop));
  }

  /**
   * When the aspect ratios are equal, the test takes the scale-to-height branch, and the
   * scale-to-width branch would have given the very same size.
   */
  lemma {:induction false} TieBranchesAgree(imageSize: Size, screenWidth: int, availableHeight: int)
    requires imageSize.width > 0.0 && imageSize.height > 0.0 && availableHeight > 0
    requires imageSize.width / imageSize.height == screenWidth as real / availableHeight as real
    ensures ImageIsWider(imageSize, screenWidth, availableHeight)
    ensures ScaleToHeight(imageSize, availableHeight) == ScaleToWidth(imageSize, screenWidth)
    ensures ScaleToHeight(imageSize, availableHeight) == Dimension(screenWidth, availableHeight)
  {
    ImageIsWiderIsAspectComparison(imageSize, screenWidth, availableHeight);
    var iw, ih, sw, ah := imageSize.width, imageSize.height, screenWidth as real, availableHeight as real;
    assert iw * ah == sw * ih by {
      assert (iw / ih) * ih == iw && (sw / ah) * ah == sw;
      assert iw * ah == (iw / ih) * ih * ah == (sw / ah) * ah * ih;
    }
    assert iw * (ah / ih) == sw by {
      assert iw * (ah / ih) * ih == iw * ah;
    }
    assert ih * (sw / iw) == ah by {
      assert ih * (sw / iw) * iw == ih * sw;
    }
    TruncOfInt(screenWidth);
    TruncOfInt(availableHeight);
  }

  /**
   * No under-fill: with room below the margin, the scaled image is at least as wide as the
   * screen and at least as tall as the available height.
   */
  lemma {:induction false} ScaledSizeCoversAvailableArea(imageSize: Size, screenFrame: Size, marginTop: int)
    requires ValidSizes(imageSize, screenFrame)
    requires AvailableHeight(screenFrame, marginTop) > 0
    ensures CalculateScaledDimensions(imageSize, screenFrame, marginTop).width >= Trunc(screenFrame.width)
    ensures CalculateScaledDimensions(imageSize, screenFrame, marginTop).height >= AvailableHeight(screenFrame, marginTop)
  {
    var iw, ih := imageSize.width, imageSize.height;
    var sw, ah := Trunc(screenFrame.width), AvailableHeight(screenFrame, marginTop);
    if ImageIsWider(imageSize, sw, ah) {
      ScaledAtLeast(iw, ah as real, ih, sw as real);
      TruncAtLeast(iw * (ah as real / ih), sw);
    } else {
      ScaledAtLeast(ih, sw as real, iw, ah as real);
      TruncAtLeast(ih * (sw as real / iw), ah);
    }
  }

  /** The larger of the two scale factors: the one that makes the image cover the area. */
  function CoverFactor(imageSize: Size, screenWidth: int, availableHeight: int): (s: real)
    requires imageSize.width > 0.0 && imageSize.height > 0.0
    ensures s >= availableHeight as real / imageSize.height && s >= screenWidth as real / imageSize.width
    ensures s == availableHeight as real / imageSize.height || s == screenWidth as real / imageSize.width
  {
    var byHeight := availableHeight as real / imageSize.height;
    var byWidth := screenWidth as real / imageSize.width;
    if byHeight >= byWidth then byHeight else byWidth
  }

  /** In the wide branch the height factor is the larger one. */
  lemma WideFactorIsLarger(imageSize: Size, screenWidth: int, availableHeight: int)
    requires imageSize.width > 0.0 && imageSize.height > 0.0 && availableHeight > 0
    requires ImageIsWider(imageSize, screenWidth, availableHeight)
    ensures CoverFactor(imageSize, screenWidth, availableHeight) == availableHeight as real / imageSize.height
  {
    var iw, ih, sw, ah := imageSize.width, imageSize.height, screenWidth as real, availableHeight as real;
    var byHeight, byWidth := ah / ih, sw / iw;
    assert byHeight * (iw * ih) == iw * ah by {
      MulDivCancel(ah, ih);
    }
    assert byWidth * (iw * ih) == sw * ih by {
      MulDivCancel(sw, iw);
    }
    assert iw * ih > 0.0;
    assert byHeight * (iw * ih) >= byWidth * (iw * ih);
  }

  /** In the tall branch the width factor is the larger one. */
  lemma TallFactorIsLarger(imageSize: Size, screenWidth: int, availableHeight: int)
    requires imageSize.width > 0.0 && imageSize.height > 0.0 && availableHeight > 0
    requires !ImageIsWider(imageSize, screenWidth, availableHeight)
    ensures CoverFactor(imageSize, screenWidth, availableHeight) == screenWidth as real / imageSize.width
  {
    var iw, ih, sw, ah := imageSize.width, imageSize.height, screenWidth as real, availableHeight as real;
    var byHeight, byWidth := ah / ih, sw / iw;
    assert byHeight * (iw * ih) == iw * ah by {
      MulDivCancel(ah, ih);
    }
    assert byWidth * (iw * ih) == sw * ih by {
      MulDivCancel(sw, iw);
    }
    assert iw * ih > 0.0;
    assert byHeight * (iw * ih) < byWidth * (iw * ih);
  }

  /**
   * Reference definition: with room below the margin, the result is the image scaled by
   * the larger of the height and width factors, each side truncated ("aspect fill").
   */
  lemma {:induction false} ScaledIsAspectFill(imageSize: Size, screenFrame: Size, marginTop: int)
    requires ValidSizes(imageSize, screenFrame)
    requires AvailableHeight(screenFrame, marginTop) > 0
    ensures var s := CoverFactor(imageSize, Trunc(screenFrame.width), AvailableHeight(screenFrame, marginTop));
      CalculateScaledDimensions(imageSize, screenFrame, marginTop) ==
        Dimension(Trunc(imageSize.width * s), Trunc(imageSize.height * s))
  {
    var iw, ih := imageSize.width, imageSize.height;
    var sw, ah := Trunc(screenFrame.width), AvailableHeight(screenFrame, marginTop);
    if ImageIsWider(imageSize, sw, ah) {
      WideFactorIsLarger(imageSize, sw, ah);
      MulDivCancel(ah as real, ih);
      TruncOfInt(ah);
    } else {
      TallFactorIsLarger(imageSize, sw, ah);
      MulDivCancel(sw as real, iw);
      TruncOfInt(sw);
    }
  }
}
