/**
 * The Core Graphics bitmap context `renderImageWithMargin` draws into, and the images it
 * reads and produces. A pixel (x, y) covers the unit square whose bottom-left corner is
 * (x, y); it is inside a region when its centre is.
 */
module Raster {
  import opened Wrappers
  import opened Geometry
  import opened Paths

  /** An 8-bit-per-channel RGBA colour. */
  datatype Color = Color(red: int, green: int, blue: int, alpha: int)

  /** `CGColor(red: 0, green: 0, blue: 0, alpha: 1)`. */
  const Black: Color := Color(0, 0, 0, 255)

  /** The contents of a freshly allocated bitmap context. */
  const Transparent: Color := Color(0, 0, 0, 0)

  /** A CGImage: `rows[y][x]`, with row 0 at the bottom as in the context's coordinates. */
  datatype Bitmap = Bitmap(width: int, height: int, rows: seq<seq<Color>>)

  predicate WellFormed(b: Bitmap)
  {
    b.width >= 0 && b.height >= 0 && |b.rows| == b.height &&
    forall y :: 0 <= y < |b.rows| ==> |b.rows[y]| == b.width
  }

  /** A decoded image: well formed and not empty. */
  predicate Drawable(b: Bitmap)
  {
    WellFormed(b) && b.width > 0 && b.height > 0
  }

  function PixelCentre(x: int, y: int): Point
  {
    Point(x as real + 0.5, y as real + 0.5)
  }

  /** The source column (or row) that lands at `offset` when `n` pixels are stretched over `extent`. */
  function SourceIndex(offset: real, extent: real, n: int): (i: int)
    requires 0.0 <= offset < extent && n > 0
    ensures 0 <= i < n
  {
    var q := offset * n as real / extent;
    assert q * extent == offset * n as real;
    assert q < n as real;
    q.Floor
  }

  /** The colour `draw(image, in: rect)` gives the pixel (x, y): the nearest image pixel. */
  function Sample(image: Bitmap, rect: Rect, x: int, y: int): (c: Color)
    requires Drawable(image) && Contains(rect, PixelCentre(x, y))
    ensures exists sx, sy :: 0 <= sx < image.width && 0 <= sy < image.height && c == image.rows[sy][sx]
  {
    var p := PixelCentre(x, y);
    var sx := SourceIndex(p.x - MinX(rect), Width(rect), image.width);
    var sy := SourceIndex(p.y - MinY(rect), Height(rect), image.height);
    image.rows[sy][sx]
  }

  /** A clipping area: a rectangle, or the area a path encloses. */
  datatype Region = RectRegion(rect: Rect) | PathRegion(elements: seq<PathElement>)

  predicate InRegion(region: Region, p: Point)
  {
    match region
    case RectRegion(r) => Contains(r, p)
    case PathRegion(e) => InsidePath(e, p)
  }

  /** The clip is the intersection of every region clipped to so far; none means the whole canvas. */
  predicate InClip(clip: seq<Region>, p: Point)
  {
    forall i :: 0 <= i < |clip| ==> InRegion(clip[i], p)
  }

  /** A clip made of one region is that region. */
  lemma InClipSingleton(region: Region, p: Point)
    ensures InClip([region], p) <==> InRegion(region, p)
  {
    assert [region][0] == region;
  }

  /** What is painted: a solid fill colour or a stretched image. */
  datatype Paint = Solid(color: Color) | Picture(image: Bitmap)

  predicate PaintReady(paint: Paint)
  {
    paint.Picture? ==> Drawable(paint.image)
  }

  function PaintColor(paint: Paint, rect: Rect, x: int, y: int): Color
    requires PaintReady(paint) && Contains(rect, PixelCentre(x, y))
  {
    match paint
    case Solid(c) => c
    case Picture(image) => Sample(image, rect, x, y)
  }

  /** A pixel after painting into `rect`: changed only where its centre is in the rect and in the clip. */
  function Painted(before: Color, clip: seq<Region>, rect: Rect, paint: Paint, x: int, y: int): Color
    requires PaintReady(paint)
  {
    var p := PixelCentre(x, y);
    if Contains(rect, p) && InClip(clip, p) then PaintColor(paint, rect, x, y) else before
  }

  /** A CGContext over a `width` x `height` RGBA bitmap, with its fill colour, clip and current path. */
  class Context {
    const width: int
    const height: int
    const pixels: array2<Color>
    var fillColor: Color
    var clip: seq<Region>
    var path: seq<PathElement>

    ghost predicate Valid()
    {
      pixels.Length0 == width && pixels.Length1 == height
    }

    constructor (width: nat, height: nat)
      ensures Valid() && this.width == width && this.height == height && fresh(pixels)
      ensures fillColor == Black && clip == [] && path == []
      ensures forall x, y :: 0 <= x < width && 0 <= y < height ==> pixels[x, y] == Transparent
    {
      this.width := width;
      this.height := height;
      pixels := new Color[width, height]((x, y) => Transparent);
      fillColor := Black;
      clip := [];
      path := [];
    }

    /** `setFillColor(_:)`. */
    method SetFillColor(c: Color)
      modifies this
      ensures fillColor == c && clip == old(clip) && path == old(path)
    {
      fillColor := c;
    }

    /** Paints every pixel whose centre is in `rect` and in the clip. */
    method PaintRect(rect: Rect, paint: Paint)
      requires Valid() && PaintReady(paint)
      modifies pixels
      ensures forall x, y :: 0 <= x < width && 0 <= y < height ==>
        pixels[x, y] == Painted(old(pixels[x, y]), clip, rect, paint, x, y)
    {
      forall x, y | 0 <= x < width && 0 <= y < height {
        pixels[x, y] := Painted(pixels[x, y], clip, rect, paint, x, y);
      }
    }

    /** `fill(_:)`: the fill colour, inside the rect and the clip. */
    method Fill(rect: Rect)
      requires Valid()
      modifies pixels
      ensures forall x, y :: 0 <= x < width && 0 <= y < height ==>
        pixels[x, y] == Painted(old(pixels[x, y]), clip, rect, Solid(fillColor), x, y)
    {
      PaintRect(rect, Solid(fillColor));
    }

    /** `draw(_:in:)`: the image stretched over the rect, inside the clip. */
    method Draw(image: Bitmap, rect: Rect)
      requires Valid() && Drawable(image)
      modifies pixels
      ensures forall x, y :: 0 <= x < width && 0 <= y < height ==>
        pixels[x, y] == Painted(old(pixels[x, y]), clip, rect, Picture(image), x, y)
    {
      PaintRect(rect, Picture(image));
    }

    /** `addPath(_:)`: appends to the current path. */
    method AddPath(elements: seq<PathElement>)
      modifies this
      ensures path == old(path) + elements && clip == old(clip) && fillColor == old(fillColor)
    {
      path := path + elements;
    }

    /** `clip()`: intersects the clip with the area of the current path, which it consumes. */
    method Clip()
      modifies this
      ensures clip == old(clip) + [PathRegion(old(path))] && path == [] && fillColor == old(fillColor)
    {
      clip := clip + [PathRegion(path)];
      path := [];
    }

    /** `clip(to:)`: intersects the clip with a rectangle. */
    method ClipToRect(rect: Rect)
      modifies this
      ensures clip == old(clip) + [RectRegion(rect)] && path == old(path) && fillColor == old(fillColor)
    {
      clip := clip + [RectRegion(rect)];
    }

    /** The image the context's bitmap currently holds. */
    function Snapshot(): (image: Bitmap)
      reads this, pixels
      requires Valid()
      ensures WellFormed(image) && image.width == width && image.height == height
      ensures forall x, y :: 0 <= x < width && 0 <= y < height ==> image.rows[y][x] == pixels[x, y]
    {
      Bitmap(width, height,
        seq(height, y requires 0 <= y < height reads pixels =>
          seq(width, x requires 0 <= x < width reads pixels => pixels[x, y])))
    }

    /** `makeImage()`: a copy of the bitmap, or `None` when Core Graphics cannot produce one. */
    method MakeImage(produced: bool) returns (image: Option<Bitmap>)
      requires Valid()
      ensures image == if produced then Some(Snapshot()) else None
    {
      if produced {
        image := Some(Snapshot());
      } else {
        image := None;
      }
    }
  }

  /**
   * `CGContext(data: nil, width:height:...)`: a fresh context, or `null` when Core Graphics
   * cannot create one (`available` is that outcome).
   */
  method CreateContext(width: nat, height: nat, available: bool) returns (context: Context?)
    ensures !available ==> context == null
    ensures available ==> context != null && fresh(context) && fresh(context.pixels) && context.Valid()
    ensures available ==> context.width == width && context.height == height
    ensures available ==> context.fillColor == Black && context.clip == [] && context.path == []
    ensures available ==> forall x, y :: 0 <= x < width && 0 <= y < height ==> context.pixels[x, y] == Transparent
  {
    if available {
      context := new Context(width, height);
    } else {
      context := null;
    }
  }
}
