/**
 * The decisions inside `wallpaper set` (Sources/Cli/Set.swift): how the image will be
 * scaled and cropped on a screen, which screens to update, and the per-screen loop in
 * which one screen's failure does not stop the others.
 */
module SetCommand {
  import opened Wrappers
  import opened Numeric
  import opened Dimensions

  datatype Orientation = Landscape | Portrait | Square

  /** The orientation of an image with the given aspect ratio. */
  function ImageOrientation(aspect: real): (o: Orientation)
    ensures o == Landscape <==> aspect > 1.0
    ensures o == Portrait <==> aspect < 1.0
    ensures o == Square <==> aspect == 1.0
  {
    if aspect > 1.0 then Landscape
    else if aspect < 1.0 then Portrait
    else Square
  }

  /** "up", "down" or "none". */
  datatype ScaleDirection = Up | Down | Unscaled

  function Direction(factor: real): (d: ScaleDirection)
    ensures d == Up <==> factor > 1.0
    ensures d == Down <==> factor < 1.0
    ensures d == Unscaled <==> factor == 1.0
  {
    if factor > 1.0 then Up else if factor < 1.0 then Down else Unscaled
  }

  datatype CropAxis = Horizontally | Vertically

  /** What `displayScalingInfo` reports for one screen. */
  datatype ScalingInfo = ScalingInfo(
    orientation: Orientation,
    factor: real,
    scaledWidth: real,
    scaledHeight: real,
    crop: real,
    axis: CropAxis,
    direction: ScaleDirection)

  /**
   * A screen: its display identifier, its name and its frame in points. Each `NSScreen` is
   * a separate object, so two identical monitors still differ in their identifier.
   */
  datatype Screen = Screen(displayID: int, name: string, frame: Size)

  predicate PositiveSize(s: Size)
  {
    s.width > 0.0 && s.height > 0.0
  }

  predicate ScreenFrame(s: Size)
  {
    s.width >= 0.0 && s.height >= 0.0
  }

  /**
   * `imageAspect >= screenAspect` on CGFloat: a zero screen height makes the screen aspect
   * +infinity (or NaN for a zero-sized screen), so the test fails.
   */
  predicate ImageAtLeastAsWide(image: Size, screen: Size)
  {
    screen.height > 0.0 && image.width * screen.height >= screen.width * image.height
  }

  /** The arithmetic of `displayScalingInfo` for an image of the given pixel size. */
  function ComputeScalingInfo(image: Size, screen: Size): (info: ScalingInfo)
    requires PositiveSize(image) && ScreenFrame(screen)
    ensures info.orientation == ImageOrientation(image.width / image.height)
    ensures info.direction == Direction(info.factor)
    ensures info.axis == Horizontally <==> ImageAtLeastAsWide(image, screen)
  {
    var orientation := ImageOrientation(image.width / image.height);
    if ImageAtLeastAsWide(image, screen) then
      var factor := screen.height / image.height;
      var scaledWidth := image.width * factor;
      ScalingInfo(orientation, factor, scaledWidth, screen.height, scaledWidth - screen.width, Horizontally, Direction(factor))
    else
      var factor := screen.width / image.width;
      var scaledHeight := image.height * factor;
      ScalingInfo(orientation, factor, screen.width, scaledHeight, scaledHeight - screen.height, Vertically, Direction(factor))
  }

  /**
   * `displayScalingInfo(imageURL:screen:screenIndex:)`: `None` when the image's pixel size
   * cannot be read (the function then prints nothing).
   */
  function DisplayScalingInfo(imageSize: Option<Size>, screen: Size): (info: Option<ScalingInfo>)
    requires imageSize.Some? ==> PositiveSize(imageSize.value)
    requires ScreenFrame(screen)
    ensures info.Some? <==> imageSize.Some?
    ensures info.Some? ==> info.value == ComputeScalingInfo(imageSize.value, screen)
  {
    match imageSize
    case None => None
    case Some(size) => Some(ComputeScalingInfo(size, screen))
  }

  /** With a positive screen, the branch test is the comparison of aspect ratios. */
  lemma WiderIsAspectComparison(image: Size, screen: Size)
    requires PositiveSize(image) && PositiveSize(screen)
    ensures ImageAtLeastAsWide(image, screen) <==> image.width / image.height >= screen.width / screen.height
  {
    CrossMultiplyOrder(image.width, image.height, screen.width, screen.height);
  }

  /**
   * For every screen frame the branch test is the CGFloat comparison
   * `imageAspect >= screenAspect`: a zero screen height makes the screen aspect
   * +infinity (or NaN for a zero-sized screen), and the comparison fails.
   */
  lemma {:induction false} ImageAtLeastAsWideIsFloatComparison(image: Size, screen: Size)
    requires PositiveSize(image) && ScreenFrame(screen)
    ensures ImageAtLeastAsWide(image, screen) <==>
      FloatAtLeast(FloatDiv(image.width, image.height), FloatDiv(screen.width, screen.height))
  {
    if screen.height > 0.0 {
      CrossMultiplyOrder(image.width, image.height, screen.width, screen.height);
    }
  }

  /**
   * Horizontal crop: the image is scaled to the screen height by `screenHeight / imageHeight`,
   * keeps its aspect ratio, and the width beyond the screen's is cropped.
   */
  lemma {:induction false} HorizontalCrop(image: Size, screen: Size)
    requires PositiveSize(image) && PositiveSize(screen)
    requires image.width / image.height >= screen.width / screen.height
    ensures var info := ComputeScalingInfo(image, screen);
      info.axis == Horizontally &&
      info.factor * image.height == screen.height &&
      info.scaledHeight == screen.height &&
      info.scaledWidth * image.height == image.width * screen.height &&
      info.crop == info.scaledWidth - screen.width && info.crop >= 0.0
  {
    WiderIsAspectComparison(image, screen);
    assert ImageAtLeastAsWide(image, screen);
    var factor := screen.height / image.height;
    assert ComputeScalingInfo(image, screen).factor == factor;
    MulDivCancel(screen.height, image.height);
    ScaledProduct(image.width, screen.height, image.height);
    ScaledAtLeast(image.width, screen.height, image.height, screen.width);
  }

  /**
   * Vertical crop: the image is scaled to the screen width by `screenWidth / imageWidth`,
   * keeps its aspect ratio, and a strictly positive height beyond the screen's is cropped.
   */
  lemma {:induction false} VerticalCrop(image: Size, screen: Size)
    requires PositiveSize(image) && PositiveSize(screen)
    requires image.width / image.height < screen.width / screen.height
    ensures var info := ComputeScalingInfo(image, screen);
      info.axis == Vertically &&
      info.factor * image.width == screen.width &&
      info.scaledWidth == screen.width &&
      info.scaledHeight * image.width == image.height * screen.width &&
      info.crop == info.scaledHeight - screen.height && info.crop > 0.0
  {
    WiderIsAspectComparison(image, screen);
    assert !ImageAtLeastAsWide(image, screen);
    var factor := screen.width / image.width;
    assert ComputeScalingInfo(image, screen).factor == factor;
    MulDivCancel(screen.width, image.width);
    ScaledProduct(image.height, screen.width, image.width);
    ScaledAbove(image.height, screen.width, image.width, screen.height);
  }

  /** Errors `run` throws as ArgumentParser validation errors. */
  datatype ValidationError = ImageFileNotFound(path: string) | InvalidScreenIndex(index: int)

  /** Which screens to update: the indexed one, or all of them when no index is given. */
  function SelectScreens(available: seq<Screen>, index: Option<int>): (r: Result<seq<Screen>, ValidationError>)
    ensures r.Failure? <==> index.Some? && !(0 <= index.value < |available|)
    ensures r.Failure? ==> r.error == InvalidScreenIndex(index.value)
    ensures r.Success? && index.Some? ==> r.value == [available[index.value]]
    ensures r.Success? && index.None? ==> r.value == available
  {
    match index
    case None => Success(available)
    case Some(i) =>
      if 0 <= i < |available| then Success([available[i]])
      else Failure(InvalidScreenIndex(i))
  }

  /** The selection only ever picks available screens, in their order, and picks at least one. */
  lemma {:induction false} SelectionIsOrderedSubsequence(available: seq<Screen>, index: Option<int>)
    requires available != []
    ensures var r := SelectScreens(available, index);
      r.Success? ==> (
        1 <= |r.value| <= |available| &&
        exists picked: seq<nat> ::
          |picked| == |r.value| &&
          (forall k :: 0 <= k < |picked| ==> picked[k] < |available| && r.value[k] == available[picked[k]]) &&
          (forall k, l :: 0 <= k < l < |picked| ==> picked[k] < picked[l]))
  {
    var r := SelectScreens(available, index);
    if r.Success? {
      if index.None? {
        var picked := seq(|available|, k requires 0 <= k < |available| => k as nat);
        assert forall k :: 0 <= k < |picked| ==> picked[k] < |available| && r.value[k] == available[picked[k]];
      } else {
        var picked: seq<nat> := [index.value];
        assert forall k :: 0 <= k < |picked| ==> picked[k] < |available| && r.value[k] == available[picked[k]];
      }
    }
  }

  /** What happened on one screen: the scaling report and whether the wallpaper was set. */
  datatype Attempt = Attempt(screen: Screen, info: Option<ScalingInfo>, succeeded: bool)

  datatype RunOutcome =
    | Rejected(error: ValidationError)
    | NoScreensFound
    | Finished(attempts: seq<Attempt>)

  /** The report `run` produces for one screen. */
  function AttemptOn(screen: Screen, imageSize: Option<Size>, setDesktopImage: Screen -> bool): Attempt
    requires imageSize.Some? ==> PositiveSize(imageSize.value)
    requires ScreenFrame(screen.frame)
  {
    Attempt(screen, DisplayScalingInfo(imageSize, screen.frame), setDesktopImage(screen))
  }

  /**
   * `run()`. Whether the image file exists, the connected screens, the image's pixel size
   * (if readable) and whether `setDesktopImageURL` succeeds for a screen are parameters.
   */
  method Run(imagePath: string, fileExists: bool, availableScreens: seq<Screen>, screenIndex: Option<int>,
             imageSize: Option<Size>, setDesktopImage: Screen -> bool)
    returns (outcome: RunOutcome)
    requires imageSize.Some? ==> PositiveSize(imageSize.value)
    requires forall i :: 0 <= i < |availableScreens| ==> ScreenFrame(availableScreens[i].frame)
    ensures !fileExists ==> outcome == Rejected(ImageFileNotFound(imagePath))
    ensures fileExists && availableScreens == [] ==> outcome == NoScreensFound
    ensures fileExists && availableScreens != [] ==>
      match SelectScreens(availableScreens, screenIndex)
      case Failure(e) => outcome == Rejected(e)
      case Success(selected) =>
        outcome.Finished? && |outcome.attempts| == |selected| &&
        forall k :: 0 <= k < |selected| ==>
          outcome.attempts[k] == AttemptOn(selected[k], imageSize, setDesktopImage)
  {
    if !fileExists {
      return Rejected(ImageFileNotFound(imagePath));
    }
    if availableScreens == [] {
      return NoScreensFound;
    }
    var selection := SelectScreens(availableScreens, screenIndex);
    if selection.Failure? {
      return Rejected(selection.error);
    }
    var screensToUpdate := selection.value;
    assert forall k :: 0 <= k < |screensToUpdate| ==> screensToUpdate[k] in availableScreens;

    var attempts: seq<Attempt> := [];
    var i := 0;
    while i < |screensToUpdate|
      invariant 0 <= i <= |screensToUpdate|
      invariant |attempts| == i
      invariant forall k :: 0 <= k < i ==> attempts[k] == AttemptOn(screensToUpdate[k], imageSize, setDesktopImage)
    {
      var screen := screensToUpdate[i];
      var info := DisplayScalingInfo(imageSize, screen.frame);
      var succeeded := setDesktopImage(screen);
      attempts := attempts + [Attempt(screen, info, succeeded)];
      i := i + 1;
    }
    return Finished(attempts);
  }
}
