/**
 `resize.js`: every stock image that passes `isImage`, stretched to the size of
 every `.png` template and composited with it, written as PNG.
 */
module ResizeScript {
  import opened JsRuntime
  import opened NodePath
  import opened CanvasApi
  import opened BatchCommon
  import opened Pairing

  /** The picture `mergeImages(stock, template)` encodes: the whole stock scaled onto the whole canvas, the template over it. */
  function Stretched(stock: Image, template: Image): Picture {
    Picture(template.width, template.height,
            [DrawOp(Bitmap(stock), Whole(stock.width, stock.height), Whole(template.width, template.height)),
             DrawOp(Bitmap(template), Whole(template.width, template.height),
                    Whole(template.width, template.height))])
  }

  /**
   `mergeImages(stockImage, templateImage)`: a template-sized canvas, the stock
   drawn into the whole of it, the template drawn unscaled over it, encoded as PNG.
   */
  method MergeImages(stock: Image, template: Image) returns (buffer: Buffer)
    ensures buffer == Encoded(Png, Stretched(stock, template))
  {
    var canvas := new Canvas(template.width, template.height);
    canvas.DrawImageScaled(Bitmap(stock), 0.0, 0.0, template.width as real, template.height as real);
    canvas.DrawImage(Bitmap(template), 0.0, 0.0);
    buffer := canvas.ToBuffer(Png);
  }

  /**
   The stretch composite has the template's size and the template on top;
   beneath it lies the whole stock image, uncropped, scaled into the whole
   canvas whatever its own size, so it is scaled by the ratio of the sizes.
   */
  lemma StretchedOverlaysTemplate(stock: Image, template: Image)
    ensures OverlaysTemplate(Stretched(stock, template), template)
    ensures Stretched(stock, template).ops[0].layer == Bitmap(stock)
    ensures Stretched(stock, template).ops[0].src == Whole(stock.width, stock.height)
    ensures Stretched(stock, template).ops[0].dest == Whole(template.width, template.height)
  {
  }

  /** `resize_${stem(stockFile)}_${stem(templateFile)}.png`. */
  function OutputName(stockFile: string, templateFile: string): string {
    "resize_" + Stem(stockFile) + "_" + Stem(templateFile) + ".png"
  }

  /** The file written for one (stock, template) pair. */
  function Output(decode: FilePath -> Size, stockFile: string, templateFile: string): Written {
    var stock := LoadImage(decode, Join(StockFolder, stockFile));
    var template := LoadImage(decode, Join(TemplateFolder, templateFile));
    Written(Join(HasilFolder, OutputName(stockFile, templateFile)), Encoded(Png, Stretched(stock, template)))
  }

  /** The files the run writes for the filtered listings, in writing order: one per visited pair. */
  function Batch(stockFiles: seq<string>, templateFiles: seq<string>, decode: FilePath -> Size): seq<Written> {
    MapPairs(decode, Output, AllPairs(stockFiles, templateFiles))
  }

  /**
   `processBatchImages()`: the directory listings, the `image-size` probe and
   the decoder are parameters; the result is the sequence of files written,
   in writing order. There is no early exit: with no template nothing is
   written, silently.
   */
  method ProcessBatchImages(stockListing: seq<string>, templateListing: seq<string>,
                            sizeOf: FilePath -> SizeOf, decode: FilePath -> Size)
    returns (written: seq<Written>)
    ensures written == Batch(StockFiles(stockListing, sizeOf), TemplateFiles(templateListing), decode)
  {
    var stockFiles := StockFiles(stockListing, sizeOf);
    var templateFiles := TemplateFiles(templateListing);
    written := [];
    for i := 0 to |stockFiles|
      invariant written == MapPairs(decode, Output, AllPairs(stockFiles[..i], templateFiles))
    {
      var row := ProcessStockImage(stockFiles[i], templateFiles, decode);
      MapAllPairsNextRow(decode, Output, stockFiles, templateFiles, i);
      written := written + row;
    }
    assert stockFiles[..|stockFiles|] == stockFiles;
  }

  /** One pass of the outer loop: stock file `stockFile` with every template, in listing order. */
  method ProcessStockImage(stockFile: string, templateFiles: seq<string>, decode: FilePath -> Size)
    returns (written: seq<Written>)
    ensures written == MapPairs(decode, Output, Row(stockFile, templateFiles))
  {
    var stockImage := LoadImage(decode, Join(StockFolder, stockFile));
    written := [];
    assert templateFiles[..0] == [];
    for j := 0 to |templateFiles|
      invariant written == MapPairs(decode, Output, Row(stockFile, templateFiles[..j]))
    {
      var templateFile := templateFiles[j];
      var templateImage := LoadImage(decode, Join(TemplateFolder, templateFile));
      var outputBuffer := MergeImages(stockImage, templateImage);
      var outputFileName := OutputName(stockFile, templateFile);
      var file := Written(Join(HasilFolder, outputFileName), outputBuffer);
      assert file == Output(decode, stockFile, templateFile);
      MapRowStep(decode, Output, stockFile, templateFiles, j);
      written := written + [file];
    }
    assert templateFiles[..|templateFiles|] == templateFiles;
  }

  /** N stock images and M templates give N * M files; none when either filtered listing is empty. */
  lemma BatchCount(stockFiles: seq<string>, templateFiles: seq<string>, decode: FilePath -> Size)
    ensures |Batch(stockFiles, templateFiles, decode)| == |stockFiles| * |templateFiles|
    ensures Batch(stockFiles, templateFiles, decode) == [] <==> stockFiles == [] || templateFiles == []
  {
    MapAllPairsCount(decode, Output, stockFiles, templateFiles);
  }

  /**
   File number i * M + j combines stock image i with template j: it is
   `./hasil/resize_<stock stem>_<template stem>.png` and holds, as PNG, the
   stock stretched to the template's size under the template.
   */
  lemma BatchOrder(stockFiles: seq<string>, templateFiles: seq<string>, decode: FilePath -> Size, i: nat, j: nat)
    requires i < |stockFiles| && j < |templateFiles|
    ensures 0 <= i * |templateFiles| + j < |Batch(stockFiles, templateFiles, decode)|
    ensures var file := Batch(stockFiles, templateFiles, decode)[i * |templateFiles| + j];
      && file.path == Join(HasilFolder, "resize_" + Stem(stockFiles[i]) + "_" + Stem(templateFiles[j]) + ".png")
      && file.buffer == Encoded(Png, Stretched(LoadImage(decode, Join(StockFolder, stockFiles[i])),
                                               LoadImage(decode, Join(TemplateFolder, templateFiles[j]))))
  {
    MapAllPairsAt(decode, Output, stockFiles, templateFiles, i, j);
  }

  /** The name of a stock file without '_' in its stem reads back as the two stems. */
  lemma OutputNameSplits(stockFile: string, templateFile: string)
    requires '_' !in Stem(stockFile)
    ensures SplitOutputName("resize_", ".png", OutputName(stockFile, templateFile))
            == Some((Stem(stockFile), Stem(templateFile)))
  {
    SplitJoinedName("resize_", Stem(stockFile), Stem(templateFile), ".png");
  }

  /**
   Different pairs can share an output name, and the later write then replaces
   the earlier file: a '_' inside a stem, or two stock files that differ only
   in their extension.
   */
  lemma OutputNamesCollide()
    ensures OutputName("a_b.jpg", "c.png") == OutputName("a.jpg", "b_c.png") == "resize_a_b_c.png"
    ensures OutputName("photo.jpg", "frame.png") == OutputName("photo.png", "frame.png")
  {
    StemExamples();
  }

  /**
   The example run: stock folder `a.jpg` (an 800 x 600 image) and `notes.txt`
   (no image), which the classifier reduces to `a.jpg` (`ExampleStockListing`),
   and template folder `t1.png` (400 x 300) and `t2.png` (500 x 500), both kept
   (`ExampleTemplateListing`). Two files are written, `resize_a_t1.png` and
   `resize_a_t2.png`, each of its template's size.
   */
  lemma ExampleBatch(decode: FilePath -> Size)
    requires decode(Join(TemplateFolder, "t1.png")) == Size(400, 300)
    requires decode(Join(TemplateFolder, "t2.png")) == Size(500, 500)
    ensures var written := Batch(["a.jpg"], ["t1.png", "t2.png"], decode);
      && |written| == 2
      && written[0].path == Join(HasilFolder, "resize_a_t1.png")
      && written[1].path == Join(HasilFolder, "resize_a_t2.png")
      && written[0].buffer.picture.width == 400 && written[0].buffer.picture.height == 300
      && written[1].buffer.picture.width == 500 && written[1].buffer.picture.height == 500
      && written[0].buffer.picture.ops[0].dest == Whole(400, 300)
      && written[1].buffer.picture.ops[0].dest == Whole(500, 500)
  {
    ExampleStems();
    ExampleNames();
    var stocks, templates := ["a.jpg"], ["t1.png", "t2.png"];
    BatchCount(stocks, templates, decode);
    BatchOrder(stocks, templates, decode, 0, 0);
    BatchOrder(stocks, templates, decode, 0, 1);
  }
}
