# wallpaper.swift — a Dafny model of the image pipeline and of `wallpaper set`

`wallpaper` is a macOS command-line tool that sets the desktop picture. This project models
two parts of it.

- **The image pipeline** (`Sources/Image.swift`, `Sources/Image/Dimension.swift`,
  `Sources/Image/ImageError.swift`):
  - It computes the size that makes an image fill the screen area below a top margin while
    keeping its aspect ratio (`calculateScaledDimensions`).
  - It builds the rounded-rectangle clipping path (`createRoundedRectPath`).
  - It renders the image on a black, screen-sized canvas, centred horizontally on the bottom
    edge and clipped to the available area (`renderImageWithMargin`).
  - It writes the result as a PNG (`saveImage`).
  - `createManipulatedImage` chains these steps. Each failure ends the run with its own
    `ImageError`.
- **The `set` subcommand** (`Sources/Cli/Set.swift`):
  - It reports how the image will be scaled and cropped on each screen
    (`displayScalingInfo`).
  - It selects the indexed screen, or every screen when no index is given.
  - It tries each selected screen in turn. A failure on one screen does not stop the others.

Modules, one file each:

- `Wrappers`: `Option` and `Result`.
- `Numeric`: Swift's `Int(...)` conversion (truncation toward zero) and `Int / 2`.
- `Dimensions`: `Size` (a CGSize) and `Dimension`.
- `ImageErrors`: the five errors and their messages.
- `Geometry`: CGRect and CGPoint, `contains`, `intersection`, and the region enclosed by a
  rounded rectangle.
- `Paths`: `MutablePath`, a class whose methods append elements, and the path
  `createRoundedRectPath` builds.
- `Raster`:
  - Colours and bitmaps.
  - `Context`, a class over an `array2` of pixels. It keeps a fill colour, a clip stack and a
    current path, and its methods paint in place.
- `Scaling`: `calculateScaledDimensions`.
- `Render`: `renderImageWithMargin`.
- `Pipeline`: `saveImage` and `createManipulatedImage`.
- `SetCommand`: `displayScalingInfo`, screen selection and `run`.

Modelling conventions:

- CGFloat is an exact `real`. Where a division by zero can occur, `Numeric.Float` adds the IEEE infinities and NaN.
- `Int(x)` truncates toward zero (`Numeric.Trunc`). Swift's `Int / 2` also truncates toward
  zero (`Numeric.HalfTowardZero`).
- Each `NSScreen` is an object of its own, so every modelled screen carries a display identifier. Identical monitors can therefore have different outcomes.
- As in Core Graphics, the origin is at the bottom-left and y grows upward.
- A pixel (x, y) belongs to a region when its centre (x + 0.5, y + 0.5) does.
- The outcomes of library calls that can fail are parameters:
  - decoding the source image;
  - creating the bitmap context and `makeImage()`;
  - creating and finalizing the PNG destination;
  - `setDesktopImageURL`;
  - whether the image file exists;
  - the list of connected screens.

The comparison `imageAspect >= availableAspect` is evaluated the way IEEE arithmetic
evaluates it:

- With a zero available height, the available aspect is +infinity (or NaN when the screen
  width is also zero), so the scale-to-width branch is taken.
- With a negative available height (a margin taller than the screen), the aspect is negative,
  so the scale-to-height branch is taken.
- The code therefore needs no restriction on `marginTop`, and the model imposes none.

`ImageError` is declared twice with identical cases and messages: in
`Sources/Image/ImageError.swift` and at the end of `Sources/Image.swift`. The model declares
it once (`ImageErrors.ImageError`).

## Model

| member | source | states |
|---|---|---|
| Numeric.Trunc | Sources/Image.swift:13-14 | `Int(x)` is the integer between 0 and x that is less than one away from x, for either sign |
| Numeric.FloatDiv | Sources/Image.swift:17-18 | CGFloat division: finite and exact for a non-zero divisor; +infinity, -infinity or NaN by the dividend's sign for a zero divisor |
| Numeric.HalfTowardZero | Sources/Image.swift:94 | `a / 2` on Int: twice the quotient is within one of `a`, on the side of zero, for either sign |
| Dimensions.MakeDimension | Sources/Image/Dimension.swift:14-17 | both fields are stored as given |
| Dimensions.FromSize | Sources/Image/Dimension.swift:20-23 | each component is the CGFloat truncated toward zero, with the bounds for both signs |
| Dimensions.CgSize | Sources/Image/Dimension.swift:26-28 | the CGSize has exactly the dimension's whole-number components |
| Dimensions.AspectRatio | Sources/Image/Dimension.swift:9-11 | for a non-zero height the ratio is finite and times the height gives the width; for a zero height it is +infinity, -infinity or NaN by the width's sign |
| Dimensions.CgSizeRoundTrip | Sources/Image/Dimension.swift:20-28 | converting a dimension to a CGSize and back with `init(_:)` gives the same dimension |
| Dimensions.AspectRatioOrder | Sources/Image/Dimension.swift:9-11 | for positive heights, comparing aspect ratios is the cross-multiplied comparison of widths and heights |
| ImageErrors.AllImageErrors | Sources/Image/ImageError.swift:5-9 | there are five errors, pairwise distinct |
| ImageErrors.EveryErrorListed | Sources/Image/ImageError.swift:5-9 | every error is one of the five |
| ImageErrors.ErrorDescription | Sources/Image/ImageError.swift:11-24 | every error has a non-empty message |
| ImageErrors.DescriptionsDistinct | Sources/Image/ImageError.swift:11-24 | two errors have the same message exactly when they are the same error |
| Geometry.Width | Sources/Image.swift:32 | `rect.width` is non-negative and spans minX to maxX |
| Geometry.Height | Sources/Image.swift:32 | `rect.height` is non-negative and spans minY to maxY |
| Geometry.Intersection | Sources/Image.swift:105 | the intersection is null exactly when the rects are apart on some axis; otherwise its size is non-negative |
| Geometry.IntersectionContains | Sources/Image.swift:105 | a point is in the intersection exactly when it is in both rects |
| Geometry.StraightPartsUnaffected | Sources/Image.swift:35-60 | rounding removes only the corners: points at least a radius from both vertical (or both horizontal) edges stay inside |
| Paths.MutablePath.constructor | Sources/Image.swift:31 | a new path is empty |
| Paths.MutablePath.Move | Sources/Image.swift:35 | `move(to:)` appends a move and changes nothing else |
| Paths.MutablePath.AddLine | Sources/Image.swift:36 | `addLine(to:)` appends a line and changes nothing else |
| Paths.MutablePath.AddArc | Sources/Image.swift:37-41 | `addArc(tangent1End:tangent2End:radius:)` appends an arc and changes nothing else |
| Paths.MutablePath.CloseSubpath | Sources/Image.swift:60 | `closeSubpath()` appends a close and changes nothing else |
| Paths.EffectiveRadius | Sources/Image.swift:32-33 | the radius is the requested one clamped to half the smaller side: at most both, equal to one, non-negative for a non-negative request |
| Paths.ContourElements | Sources/Image.swift:35-60 | ten elements: a move, four line/arc pairs turning at the four corners in order (each arc an exact quarter turn), a close; the last arc ends where the move started |
| Paths.RoundedContourIsSimple | Sources/Image.swift:32-60 | with a non-negative request, every straight edge has non-negative length, so opposite arcs never overlap |
| Paths.CreateRoundedRectPath | Sources/Image.swift:30-63 | the method returns a fresh path whose elements are the rounded contour of the rect with the clamped radius |
| Paths.ParseContour | Sources/Image.swift:35-60 | a contour read back from a path regenerates exactly that path |
| Paths.ParseContourRoundTrip | Sources/Image.swift:35-60 | reading a contour back from its path gives the same contour |
| Paths.RoundedPathWithinRect | Sources/Image.swift:30-63 | every point inside the rounded path is inside the rect it was built over |
| Paths.RoundedPathRegion | Sources/Image.swift:30-63 | the area the path encloses is the rect minus the four corner cuts of the clamped radius |
| Raster.SourceIndex | Sources/Image.swift:113 | stretching n pixels over an extent maps every offset inside it to a valid source index |
| Raster.Sample | Sources/Image.swift:113 | a drawn pixel takes the colour of some pixel of the image |
| Raster.InClipSingleton | Sources/Image.swift:104-111 | helper: a clip made of the single region set at lines 104-111 is that region |
| Raster.Context.constructor | Sources/Image.swift:78-88 | a new context is screen-sized and transparent, has black as fill colour, and has no clip and no path |
| Raster.Context.SetFillColor | Sources/Image.swift:90 | the fill colour changes; the clip and the path do not |
| Raster.Context.PaintRect | Sources/Image.swift:91 | exactly the pixels whose centres lie in the rect and in the clip are painted; every other pixel keeps its colour |
| Raster.Context.Fill | Sources/Image.swift:91 | `fill(_:)` paints the fill colour inside the rect and the clip, nowhere else |
| Raster.Context.Draw | Sources/Image.swift:113 | `draw(_:in:)` paints the image stretched over the rect inside the clip, nowhere else |
| Raster.Context.AddPath | Sources/Image.swift:107 | `addPath(_:)` appends to the current path; the clip is unchanged |
| Raster.Context.Clip | Sources/Image.swift:108 | `clip()` intersects the clip with the current path's area and consumes the path |
| Raster.Context.ClipToRect | Sources/Image.swift:110 | `clip(to:)` intersects the clip with the rect; the path is unchanged |
| Raster.Context.Snapshot | Sources/Image.swift:115 | the image is context-sized and holds every pixel of the bitmap |
| Raster.Context.MakeImage | Sources/Image.swift:115-117 | `makeImage()` is a copy of the bitmap, or nil when Core Graphics fails |
| Raster.CreateContext | Sources/Image.swift:78-88 | the result is nil when Core Graphics fails; otherwise a fresh screen-sized context in its initial state |
| Scaling.AvailableHeight | Sources/Image.swift:13-15 | the available height plus the margin is the screen height rounded down to whole pixels |
| Scaling.ImageIsWiderIsFloatComparison | Sources/Image.swift:17-20 | the branch test `ImageIsWider` is the CGFloat comparison `imageAspect >= availableAspect` for every available height, including the infinite and NaN aspects of a zero height |
| Scaling.ScaleToHeight | Sources/Image.swift:21-22 | the scale-to-height branch keeps the available height exactly |
| Scaling.ScaleToWidth | Sources/Image.swift:24-25 | the scale-to-width branch keeps the screen width exactly |
| Scaling.CalculateScaledDimensions | Sources/Image.swift:8-27 | when the image is at least as wide as the area, the height is the available height; otherwise the width is the truncated screen width |
| Scaling.ImageIsWiderIsAspectComparison | Sources/Image.swift:17-20 | with a positive available height, the branch test is exactly `imageAspect >= availableAspect` |
| Scaling.WideBranchSize | Sources/Image.swift:20-22 | when the image aspect is at least the available aspect, the result is (width scaled by availableHeight / imageHeight, availableHeight) |
| Scaling.TallBranchSize | Sources/Image.swift:23-25 | when the image aspect is smaller, the result is (screenWidth, height scaled by screenWidth / imageWidth) |
| Scaling.TieBranchesAgree | Sources/Image.swift:20-26 | for equal aspects, the height branch is taken, both branches give the same size, and that size is exactly the area |
| Scaling.ScaledSizeCoversAvailableArea | Sources/Image.swift:8-27 | no under-fill: even after truncation, the result is at least the screen width and at least the available height |
| Scaling.CoverFactor | Sources/Image.swift:20-26 | the cover factor is the larger of the height and width factors |
| Scaling.WideFactorIsLarger | Sources/Image.swift:20-22 | in the wide branch the height factor is the larger factor |
| Scaling.TallFactorIsLarger | Sources/Image.swift:23-25 | in the tall branch the width factor is the larger factor |
| Scaling.ScaledIsAspectFill | Sources/Image.swift:8-27 | reference definition: the result is the image scaled by the larger factor, each side truncated (aspect fill) |
| Render.ImageRect | Sources/Image.swift:94-100 | the image rect stands on the bottom edge with the scaled size; its x offset is `(screenWidth - scaled.width) / 2` truncated toward zero, so the left and right overhangs differ by at most one pixel |
| Render.AvailableRect | Sources/Image.swift:102 | with room below the margin, a point is in the available rect exactly when it is within the screen width and below the margin; with none, no point above the bottom edge is |
| Render.ClipRegion | Sources/Image.swift:104-111 | the clip is a path exactly when the radius is positive, and it never reaches outside the available rect |
| Render.ClippingRectExists | Sources/Image.swift:93-105 | the centred image rect always meets the available rect, so the intersection is never null |
| Render.ClippingRect | Sources/Image.swift:105 | a point is in the clipping rect exactly when it is in both the image rect and the available rect |
| Render.Composite | Sources/Image.swift:90-113 | the rendered canvas is screen-sized; each pixel is the image where drawn inside the clip, and black elsewhere |
| Render.CanvasRectCoversPixel | Sources/Image.swift:91 | the screen-sized fill rect, under the initial clip, reaches every pixel |
| Render.FillBlack | Sources/Image.swift:90-91 | after the black fill the fill colour is black and every pixel is black; no clip and no path have been set |
| Render.ApplyClip | Sources/Image.swift:104-111 | a positive radius clips to the rounded path over the clipping rect; otherwise the clip is the available rect; either way the path ends empty and the fill colour is unchanged |
| Render.RenderImageWithMargin | Sources/Image.swift:68-119 | a context failure gives `failedToCreateContext`; a `makeImage` failure gives `failedToCreateFinalImage`; otherwise the result is the composite |
| Render.SnapshotIsComposite | Sources/Image.swift:115-118 | a screen-sized bitmap that agrees with the composite pixel by pixel is the composite |
| Render.MarginBandStaysBlack | Sources/Image.swift:102-111 | every pixel of the top margin band stays black, whatever the image and the radius |
| Render.RoundedCornersStayBlack | Sources/Image.swift:104-108 | with a positive radius, every pixel in a corner cut stays black |
| Render.NoRadiusClipsToAvailableRect | Sources/Image.swift:109-111 | without a positive radius, a pixel shows the image exactly when it is in both the available rect and the image rect; otherwise it is black |
| Render.ScaledImageCoversAvailableArea | Sources/Image.swift:93-102 | with the margin inside the screen, an image scaled by `calculateScaledDimensions` covers every pixel below the margin |
| Render.AvailableAreaShowsImage | Sources/Image.swift:93-113 | below the margin every pixel is drawn from the image; with a rounded clip, every pixel outside the corner cuts is |
| Pipeline.SaveImage | Sources/Image.swift:122-136 | the save succeeds exactly when the destination is created and finalized; a PNG of the image is written to the URL; each failure gives its own error |
| Pipeline.ImageSize | Sources/Image.swift:153 | the CGSize holds exactly the image's pixel width and height, and converts back to exactly its pixel dimensions |
| Pipeline.CreateManipulatedImage | Sources/Image.swift:139-168 | a load failure stops at `failedToLoadImage`; render failures pass through; otherwise the composite of the scaled image is saved; the steps run in order |
| Pipeline.WrittenImageIsScreenSized | Sources/Image.swift:139-168 | when every call succeeds, the PNG goes to the output URL and has exactly the screen's pixel size |
| SetCommand.ImageOrientation | Sources/Cli/Set.swift:30-41 | landscape, portrait or square exactly when the aspect is >1, <1 or =1 |
| SetCommand.Direction | Sources/Cli/Set.swift:48 | "up", "down" or "none" exactly when the factor is >1, <1 or =1 |
| SetCommand.ComputeScalingInfo | Sources/Cli/Set.swift:26-66 | the crop is horizontal exactly when the image is at least as wide as the screen; the report carries the orientation and the direction of its factor |
| SetCommand.DisplayScalingInfo | Sources/Cli/Set.swift:14-66 | a report is produced exactly when the image's pixel size can be read, and it is the scaling computation for that size and the screen's frame |
| SetCommand.WiderIsAspectComparison | Sources/Cli/Set.swift:30-44 | for positive sizes, the branch test is exactly `imageAspect >= screenAspect` |
| SetCommand.ImageAtLeastAsWideIsFloatComparison | Sources/Cli/Set.swift:30-44 | the branch test `ImageAtLeastAsWide` is the CGFloat comparison `imageAspect >= screenAspect` for every screen frame, including the infinite and NaN aspects of a zero height |
| SetCommand.HorizontalCrop | Sources/Cli/Set.swift:43-53 | a wider image is scaled to the screen height, keeps its aspect, and has a non-negative horizontal crop |
| SetCommand.VerticalCrop | Sources/Cli/Set.swift:54-65 | a narrower image is scaled to the screen width, keeps its aspect, and has a strictly positive vertical crop |
| SetCommand.SelectScreens | Sources/Cli/Set.swift:91-102 | an index out of range is rejected with that index; a valid index selects that one screen; no index selects all screens |
| SetCommand.SelectionIsOrderedSubsequence | Sources/Cli/Set.swift:91-102 | a successful selection is a non-empty sequence of available screens, in their order |
| SetCommand.Run | Sources/Cli/Set.swift:78-127 | a missing file is rejected first; no screens ends the run; a bad index is rejected; otherwise every selected screen is attempted once, in order, whatever earlier attempts returned |

## Left out

- Decoding and encoding images with ImageIO are not modelled. The decoded image and the outcome of each ImageIO call are parameters.
- Raster.Sample: Core Graphics' interpolation when stretching an image is replaced by nearest-neighbour sampling, so only "the colour comes from the image" is stated.
- Raster.Context.Draw: alpha blending is not modelled. A drawn pixel takes the image's colour even where the image is not opaque.
- Paths.MutablePath.AddArc: the arc's curve is not rasterised. The area a path encloses is given only for the rounded-rectangle contours this program builds. Any other path encloses nothing in this model.
- Core Graphics anti-aliasing on the edges of the rounded clip is not modelled. A pixel is inside or outside according to its centre.
- Numeric.Trunc: Swift's trap on converting a NaN, infinite or out-of-range CGFloat is not modelled.
- The 64-bit overflow traps of Swift `Int` are not modelled, because screen and image sizes are far below them.
- CGFloat rounding error is not modelled; CGFloat is an exact real.
- SetCommand.Run: the printed text is not modelled. This includes the scaling report, "No screens found", the success and failure lines, and the `%.2f` formatting. The per-screen `firstIndex` lookup only feeds that text, so it is also left out.
- SetCommand.Run: the desktop image options passed to `NSWorkspace` are not modelled. Neither is the text of the `ValidationError` messages; the model keeps only their kind and the offending path or index.
- SetCommand.ComputeScalingInfo: screen frames are taken to have non-negative sizes, as `NSScreen` frames do.
- The conversion of the report's floating-point values with `Int(...)` for printing is not modelled.
- NSScreen, NSWorkspace and FileManager are not modelled. Their answers are parameters: the screens, whether `setDesktopImageURL` succeeds, and whether the file exists.
- Sources/Cli/Screens.swift, Sources/Config.swift, Sources/Main.swift, Sources/Cli/Usage.swift and Sources/Wallpaper.swift are not part of this model.
- The code that calls `createManipulatedImage` is not part of this model.
