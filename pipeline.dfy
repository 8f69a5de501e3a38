/**
 * `createManipulatedImage` and `saveImage` (Sources/Image.swift): load, scale, render,
 * save, each failing step ending the run with its own `ImageError`.
 */
module Pipeline {
  import opened Wrappers
  import opened Numeric
  import opened Dimensions
  import opened Raster
  import opened ImageErrors
  import opened Scaling
  import opened Render

  /** The steps of the pipeline, recorded in the order they run. */
  datatype Stage = LoadStage | ScaleStage | RenderStage | SaveStage

  /** Outcomes of the ImageIO calls: `CGImageDestinationCreateWithURL` and `CGImageDestinationFinalize`. */
  datatype Destination = Destination(created: bool, finalized: bool)

  /** The PNG written to `url`, holding `image`. */
  datatype PngFile = PngFile(url: string, image: Bitmap)

  /** `saveImage(_:to:)`. */
  function SaveImage(image: Bitmap, url: string, destination: Destination): (r: Result<PngFile, ImageError>)
    ensures r.Success? <==> destination.created && destination.finalized
    ensures r.Success? ==> r.value.url == url && r.value.image == image
    ensures !destination.created ==> r == Failure(FailedToCreateDestination)
    ensures destination.created && !destination.finalized ==> r == Failure(FailedToSaveImage)
  {
    if !destination.created then Failure(FailedToCreateDestination)
    else if !destination.finalized then Failure(FailedToSaveImage)
    else Success(PngFile(url, image))
  }

  /** `CGSize(width: cgImage.width, height: cgImage.height)`. */
  function ImageSize(image: Bitmap): (size: Size)
    ensures size.width == image.width as real && size.height == image.height as real
    ensures FromSize(size) == Dimension(image.width, image.height)
  {
    TruncOfInt(image.width);
    TruncOfInt(image.height);
    Size(image.width as real, image.height as real)
  }

  /** The PNG a fully successful run writes. */
  function ManipulatedImage(image: Bitmap, screen: Size, marginTop: int, borderRadius: Option<int>): Bitmap
    requires Drawable(image) && screen.width >= 0.0 && screen.height >= 0.0
  {
    Composite(image, CalculateScaledDimensions(ImageSize(image), screen, marginTop),
              Trunc(screen.width), Trunc(screen.height), marginTop, borderRadius)
  }

  /**
   * `createManipulatedImage(sourceURL:screen:marginTop:borderRadius:outputURL:)`. The
   * decoded source image (`None` when ImageIO cannot read it) and the outcomes of the
   * Core Graphics and ImageIO calls are parameters; `stages` records the steps run.
   */
  method CreateManipulatedImage(source: Option<Bitmap>, screen: Size, marginTop: int, borderRadius: Option<int>,
                                outputURL: string, graphics: Graphics, destination: Destination)
    returns (result: Result<PngFile, ImageError>, stages: seq<Stage>)
    requires source.Some? ==> Drawable(source.value)
    requires screen.width >= 0.0 && screen.height >= 0.0
    ensures source.None? ==> result == Failure(FailedToLoadImage) && stages == [LoadStage]
    ensures source.Some? && !graphics.contextAvailable ==>
      result == Failure(FailedToCreateContext) && stages == [LoadStage, ScaleStage, RenderStage]
    ensures source.Some? && graphics.contextAvailable && !graphics.finalImageAvailable ==>
      result == Failure(FailedToCreateFinalImage) && stages == [LoadStage, ScaleStage, RenderStage]
    ensures source.Some? && graphics.contextAvailable && graphics.finalImageAvailable ==>
      stages == [LoadStage, ScaleStage, RenderStage, SaveStage] &&
      result == SaveImage(ManipulatedImage(source.value, screen, marginTop, borderRadius), outputURL, destination)
  {
    stages := [LoadStage];
    if source.None? {
      return Failure(FailedToLoadImage), stages;
    }
    var cgImage := source.value;

    stages := stages + [ScaleStage];
    var scaledSize := CalculateScaledDimensions(ImageSize(cgImage), screen, marginTop);

    stages := stages + [RenderStage];
    var finalImage := RenderImageWithMargin(cgImage, scaledSize, screen, marginTop, borderRadius, graphics);
    if finalImage.Failure? {
      return Failure(finalImage.error), stages;
    }

    stages := stages + [SaveStage];
    result := SaveImage(finalImage.value, outputURL, destination);
  }

  /** When every call succeeds, the PNG written to the output URL has exactly the screen's size. */
  lemma {:induction false} WrittenImageIsScreenSized(source: Option<Bitmap>, screen: Size, marginTop: int,
                                                      borderRadius: Option<int>, outputURL: string,
                                                      graphics: Graphics, destination: Destination)
    requires source.Some? && Drawable(source.value)
    requires screen.width >= 0.0 && screen.height >= 0.0
    requires graphics.contextAvailable && graphics.finalImageAvailable && destination.created && destination.finalized
    ensures var png := SaveImage(ManipulatedImage(source.value, screen, marginTop, borderRadius), outputURL, destination);
      png.Success? && png.value.url == outputURL &&
      png.value.image.width == Trunc(screen.width) && png.value.image.height == Trunc(screen.height)
  {
  }
}
