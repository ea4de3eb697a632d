/**
 `cropImage` and the crop variant of `mergeImages`, which `index.js` and
 `crop.js` share (they differ only in the encoding `mergeImages` asks for).
 */
module CenterCrop {
  import opened NodePath
  import opened CanvasApi
  import opened BatchCommon

  /**
   `(extent - target) / 2` as JavaScript computes it: exact, negative when the
   image is smaller than the target, and a half when their difference is odd.
   */
  function CropOffset(extent: nat, target: nat): (offset: real)
    ensures 2.0 * offset == extent as real - target as real
  {
    (extent - target) as real / 2.0
  }

  /**
   The source rectangle is centred: the margin before it equals the margin
   after it, it lies inside the image exactly when the target fits, and the
   offset is a whole pixel exactly when the difference is even.
   */
  lemma CropOffsetCentred(extent: nat, target: nat)
    ensures CropOffset(extent, target) == extent as real - (CropOffset(extent, target) + target as real)
    ensures 0.0 <= CropOffset(extent, target) <==> target <= extent
    ensures target <= extent ==> CropOffset(extent, target) + target as real <= extent as real
    ensures CropOffset(extent, target) == CropOffset(extent, target).Floor as real
            <==> (extent - target) % 2 == 0
  {
    var d := extent - target;
    var o := CropOffset(extent, target);
    if d % 2 == 0 {
      assert d == 2 * (d / 2);
      assert o == (d / 2) as real;
    } else {
      assert d == 2 * (d / 2) + 1;
      assert o == (d / 2) as real + 0.5;
      assert o.Floor == d / 2;
    }
  }

  /** The picture `cropImage(image, width, height)` leaves on its canvas. */
  function Cropped(image: Image, width: nat, height: nat): Picture {
    Picture(width, height,
            [DrawOp(Bitmap(image),
                    Rect(CropOffset(image.width, width), CropOffset(image.height, height),
                         width as real, height as real),
                    Whole(width, height))])
  }

  /**
   `cropImage(image, width, height)`: a fresh `width` x `height` canvas with the
   centred `width` x `height` region of the image copied 1:1 to its origin.
   */
  method CropImage(image: Image, width: nat, height: nat) returns (canvas: Canvas)
    ensures fresh(canvas)
    ensures canvas.Snapshot() == Cropped(image, width, height)
  {
    canvas := new Canvas(width, height);
    var cropX := CropOffset(image.width, width);
    var cropY := CropOffset(image.height, height);
    canvas.DrawImageRegion(Bitmap(image), cropX, cropY, width as real, height as real,
                           0.0, 0.0, width as real, height as real);
  }

  /** What the crop is: one copy, same size at both ends, from the centre of the image to the whole canvas. */
  lemma CroppedIsCentredCopy(image: Image, width: nat, height: nat)
    ensures var p := Cropped(image, width, height);
      && p.width == width && p.height == height
      && |p.ops| == 1
      && p.ops[0].layer == Bitmap(image)
      && p.ops[0].dest == Whole(width, height)
      && p.ops[0].src.w == p.ops[0].dest.w && p.ops[0].src.h == p.ops[0].dest.h
      && 2.0 * p.ops[0].src.x == image.width as real - width as real
      && 2.0 * p.ops[0].src.y == image.height as real - height as real
  {
  }

  /** The picture `mergeImages(stock, template)` encodes in the crop pipelines. */
  function Merged(stock: Image, template: Image): Picture {
    var cropped := Cropped(stock, template.width, template.height);
    Picture(template.width, template.height,
            [DrawOp(Surface(cropped), Whole(template.width, template.height),
                    Whole(template.width, template.height)),
             DrawOp(Bitmap(template), Whole(template.width, template.height),
                    Whole(template.width, template.height))])
  }

  /**
   `mergeImages(stockImage, templateImage)` of `index.js` (JPEG) and `crop.js`
   (PNG): a template-sized canvas, the stock cropped to the template's size
   drawn first, the template drawn over it.
   */
  method MergeImages(stock: Image, template: Image, format: Format) returns (buffer: Buffer)
    ensures buffer == Encoded(format, Merged(stock, template))
  {
    var canvas := new Canvas(template.width, template.height);
    var croppedStock := CropImage(stock, template.width, template.height);
    canvas.DrawImage(Surface(croppedStock.Snapshot()), 0.0, 0.0);
    canvas.DrawImage(Bitmap(template), 0.0, 0.0);
    buffer := canvas.ToBuffer(format);
  }

  /**
   The crop composite has the template's size and the template on top, and
   what lies beneath is the stock cropped to exactly the template's size and
   drawn unscaled.
   */
  lemma MergedOverlaysTemplate(stock: Image, template: Image)
    ensures OverlaysTemplate(Merged(stock, template), template)
    ensures Merged(stock, template).ops[0].layer == Surface(Cropped(stock, template.width, template.height))
    ensures Merged(stock, template).ops[0].src == Merged(stock, template).ops[0].dest
  {
  }
}
