/**
 The `canvas` package as the scripts use it, with pixels left abstract: a canvas
 records the draw operations made on its 2-D context, and encoding a canvas
 yields a buffer that carries the recorded picture. The three forms of
 `drawImage` are normalised to the nine-argument form, as the HTML Living
 Standard's definition of `drawImage()` does: a missing source rectangle is
 the whole source image, a missing destination size is the source rectangle's
 size.
 */
module CanvasApi {
  import opened NodePath

  /** A decoded image as `loadImage` yields it: the file it came from and its intrinsic size. */
  datatype Image = Image(source: FilePath, width: nat, height: nat)

  /** A rectangle in canvas coordinates; JavaScript numbers, so possibly fractional or negative. */
  datatype Rect = Rect(x: real, y: real, w: real, h: real)

  /** What a draw operation takes its pixels from: a decoded image, or another canvas as it was when drawn. */
  datatype Layer = Bitmap(image: Image) | Surface(picture: Picture)

  /** `drawImage(layer, src.x, src.y, src.w, src.h, dest.x, dest.y, dest.w, dest.h)`. */
  datatype DrawOp = DrawOp(layer: Layer, src: Rect, dest: Rect)

  /** The content of a canvas: its size and the draw operations made on it, oldest first. */
  datatype Picture = Picture(width: nat, height: nat, ops: seq<DrawOp>)

  /** The MIME type given to `toBuffer`. */
  datatype Format = Png | Jpeg

  /** `canvas.toBuffer(format)`; the encoding itself is not modelled. */
  datatype Buffer = Encoded(format: Format, picture: Picture)

  /** The rectangle at the origin with the given size. */
  function Whole(width: nat, height: nat): Rect {
    Rect(0.0, 0.0, width as real, height as real)
  }

  function LayerWidth(layer: Layer): nat {
    match layer
    case Bitmap(image) => image.width
    case Surface(picture) => picture.width
  }

  function LayerHeight(layer: Layer): nat {
    match layer
    case Bitmap(image) => image.height
    case Surface(picture) => picture.height
  }

  /** A canvas from `createCanvas(width, height)` together with its 2-D context. */
  class Canvas {
    const width: nat
    const height: nat
    var ops: seq<DrawOp>

    /** `createCanvas(width, height)`: an empty canvas of that size. */
    constructor (width: nat, height: nat)
      ensures this.width == width && this.height == height
      ensures ops == []
    {
      this.width := width;
      this.height := height;
      ops := [];
    }

    /** What the canvas holds now. */
    function Snapshot(): (p: Picture)
      reads this
      ensures p.width == width && p.height == height && p.ops == ops
    {
      Picture(width, height, ops)
    }

    /** `ctx.drawImage(layer, dx, dy)`: the whole layer, unscaled, with its corner at (dx, dy). */
    method DrawImage(layer: Layer, dx: real, dy: real)
      modifies this
      ensures ops == old(ops) + [DrawOp(layer, Whole(LayerWidth(layer), LayerHeight(layer)),
                                        Rect(dx, dy, LayerWidth(layer) as real, LayerHeight(layer) as real))]
    {
      var w, h := LayerWidth(layer), LayerHeight(layer);
      ops := ops + [DrawOp(layer, Whole(w, h), Rect(dx, dy, w as real, h as real))];
    }

    /** `ctx.drawImage(layer, dx, dy, dw, dh)`: the whole layer, scaled into the given rectangle. */
    method DrawImageScaled(layer: Layer, dx: real, dy: real, dw: real, dh: real)
      modifies this
      ensures ops == old(ops) + [DrawOp(layer, Whole(LayerWidth(layer), LayerHeight(layer)), Rect(dx, dy, dw, dh))]
    {
      ops := ops + [DrawOp(layer, Whole(LayerWidth(layer), LayerHeight(layer)), Rect(dx, dy, dw, dh))];
    }

    /** `ctx.drawImage(layer, sx, sy, sw, sh, dx, dy, dw, dh)`: one region of the layer into one region of the canvas. */
    method DrawImageRegion(layer: Layer, sx: real, sy: real, sw: real, sh: real,
                           dx: real, dy: real, dw: real, dh: real)
      modifies this
      ensures ops == old(ops) + [DrawOp(layer, Rect(sx, sy, sw, sh), Rect(dx, dy, dw, dh))]
    {
      ops := ops + [DrawOp(layer, Rect(sx, sy, sw, sh), Rect(dx, dy, dw, dh))];
    }

    /** `canvas.toBuffer(format)`: the encoded current content; the canvas is unchanged. */
    method ToBuffer(format: Format) returns (buffer: Buffer)
      ensures buffer.format == format
      ensures buffer.picture == Picture(width, height, ops)
    {
      buffer := Encoded(format, Snapshot());
    }
  }
}
