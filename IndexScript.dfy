/**
 `index.js`: every stock image that passes `isImage`, centre-cropped and
 composited with one randomly chosen `.png` template, written as JPEG; no file
 at all when there is no template.
 */
module IndexScript {
  import opened JsRuntime
  import opened NodePath
  import opened CanvasApi
  import opened BatchCommon
  import opened Pairing
  import CenterCrop

  /**
   `Math.floor(random * length)` over exact reals. For a draw in [0, 1) it is
   an index into a non-empty list of that length, and 0 for an empty one.
   */
  function RandomIndex(random: real, length: nat): (index: int)
    ensures 0.0 <= random < 1.0 ==> 0 <= index && (length > 0 ==> index < length) && (length == 0 ==> index == 0)
  {
    ScaledDrawInRange(random, length);
    (random * length as real).Floor
  }

  /** A draw in [0, 1) scaled by a length lies in [0, length), and is 0 for length 0. */
  lemma ScaledDrawInRange(random: real, length: nat)
    ensures 0.0 <= random < 1.0 ==> 0.0 <= random * length as real
    ensures 0.0 <= random < 1.0 && length > 0 ==> random * length as real < length as real
  {
    var n := length as real;
    assert length as real - random * n == (1.0 - random) * n;
    if 0.0 <= random < 1.0 && length > 0 {
      assert (1.0 - random) * n > 0.0;
    }
  }

  /**
   `getRandomTemplate(templateFiles)`: the entry at the random index, or
   `undefined` (None) where there is none, which for a draw in [0, 1) is
   exactly when the list is empty.
   */
  function GetRandomTemplate(templateFiles: seq<string>, random: real): (template: Option<string>)
    ensures 0.0 <= random < 1.0 ==> (template.Some? <==> templateFiles != [])
    ensures template.Some? ==> template.value in templateFiles
  {
    var index := RandomIndex(random, |templateFiles|);
    if 0 <= index < |templateFiles| then Some(templateFiles[index]) else None
  }

  /** Every template can be chosen: the draw k / n picks template k of n. */
  lemma EveryTemplateReachable(templateFiles: seq<string>, k: nat)
    requires k < |templateFiles|
    ensures var random := k as real / |templateFiles| as real;
      0.0 <= random < 1.0 && GetRandomTemplate(templateFiles, random) == Some(templateFiles[k])
  {
    var n := |templateFiles| as real;
    var random := k as real / n;
    assert random * n == k as real;
    assert RandomIndex(random, |templateFiles|) == k;
  }

  /** `${stem(stockFile)}_${stem(randomTemplateFile)}.jpg`. */
  function OutputName(stockFile: string, templateFile: string): string {
    Stem(stockFile) + "_" + Stem(templateFile) + ".jpg"
  }

  /** The file written for one stock file and the template drawn for it. */
  function Output(decode: FilePath -> Size, stockFile: string, templateFile: string): Written {
    var stock := LoadImage(decode, Join(StockFolder, stockFile));
    var template := LoadImage(decode, Join(TemplateFolder, templateFile));
    Written(Join(HasilFolder, OutputName(stockFile, templateFile)),
            Encoded(Jpeg, CenterCrop.Merged(stock, template)))
  }

  /** What `Math.random()` promises: every draw lies in [0, 1). */
  ghost predicate Draws(random: nat -> real) {
    forall n: nat :: 0.0 <= random(n) < 1.0
  }

  /**
   The (stock file, template file) pairs the loop visits, in visiting order:
   stock file i with the template chosen by draw number i.
   */
  function Chosen(stockFiles: seq<string>, templateFiles: seq<string>, random: nat -> real): (pairs: seq<(string, string)>)
    requires templateFiles != [] && Draws(random)
    ensures |pairs| == |stockFiles|
  {
    if stockFiles == [] then []
    else
      var i := |stockFiles| - 1;
      Chosen(stockFiles[..i], templateFiles, random) + [(stockFiles[i], GetRandomTemplate(templateFiles, random(i)).value)]
  }

  /** Pair number i is stock file i with a template of the list, the one draw number i chose. */
  lemma {:induction false} ChosenAt(stockFiles: seq<string>, templateFiles: seq<string>, random: nat -> real, i: nat)
    requires templateFiles != [] && Draws(random)
    requires i < |stockFiles|
    ensures Chosen(stockFiles, templateFiles, random)[i]
            == (stockFiles[i], GetRandomTemplate(templateFiles, random(i)).value)
  {
    var n := |stockFiles| - 1;
    if i < n {
      ChosenAt(stockFiles[..n], templateFiles, random, i);
    }
  }

  /** One more pass of the loop visits one more pair. */
  lemma ChosenSnoc(stockFiles: seq<string>, templateFiles: seq<string>, random: nat -> real, i: nat)
    requires templateFiles != [] && Draws(random)
    requires i < |stockFiles|
    ensures Chosen(stockFiles[..i + 1], templateFiles, random)
            == Chosen(stockFiles[..i], templateFiles, random) + [(stockFiles[i], GetRandomTemplate(templateFiles, random(i)).value)]
  {
    assert stockFiles[..i + 1][..i] == stockFiles[..i];
  }

  /** The files the loop writes for the filtered listings, in writing order: one per stock file. */
  function Outputs(stockFiles: seq<string>, templateFiles: seq<string>, decode: FilePath -> Size,
                   random: nat -> real): (written: seq<Written>)
    requires templateFiles != [] && Draws(random)
    ensures |written| == |stockFiles|
  {
    MapPairs(decode, Output, Chosen(stockFiles, templateFiles, random))
  }

  /**
   File number i belongs to stock file i: it is
   `./hasil/<stock stem>_<template stem>.jpg` for a template of the filtered
   list, the one draw number i chose, and holds, as JPEG, the stock cropped
   to that template's size under the template.
   */
  lemma OutputsAt(stockFiles: seq<string>, templateFiles: seq<string>, decode: FilePath -> Size,
                  random: nat -> real, i: nat)
    requires templateFiles != [] && Draws(random)
    requires i < |stockFiles|
    ensures var chosen := GetRandomTemplate(templateFiles, random(i));
      && chosen.Some? && chosen.value in templateFiles
      && Outputs(stockFiles, templateFiles, decode, random)[i].path
         == Join(HasilFolder, Stem(stockFiles[i]) + "_" + Stem(chosen.value) + ".jpg")
      && Outputs(stockFiles, templateFiles, decode, random)[i].buffer
         == Encoded(Jpeg, CenterCrop.Merged(LoadImage(decode, Join(StockFolder, stockFiles[i])),
                                            LoadImage(decode, Join(TemplateFolder, chosen.value))))
  {
    ChosenAt(stockFiles, templateFiles, random, i);
    MapPairsAt(decode, Output, Chosen(stockFiles, templateFiles, random), i);
  }

  /**
   `processBatchImages()`: the directory listings, the `image-size` probe, the
   decoder and the stream of `Math.random()` draws are parameters. With no
   template it reports the fact and returns before loading anything;
   otherwise it writes one file per stock image, in listing order.
   */
  method ProcessBatchImages(stockListing: seq<string>, templateListing: seq<string>,
                            sizeOf: FilePath -> SizeOf, decode: FilePath -> Size, random: nat -> real)
    returns (written: seq<Written>, noTemplates: bool)
    requires Draws(random)
    ensures noTemplates <==> TemplateFiles(templateListing) == []
    ensures noTemplates ==> written == []
    ensures !noTemplates ==> written == Outputs(StockFiles(stockListing, sizeOf), TemplateFiles(templateListing), decode, random)
  {
    var stockFiles := StockFiles(stockListing, sizeOf);
    var templateFiles := TemplateFiles(templateListing);
    if |templateFiles| == 0 {
      return [], true;
    }
    written, noTemplates := [], false;
    for i := 0 to |stockFiles|
      invariant written == MapPairs(decode, Output, Chosen(stockFiles[..i], templateFiles, random))
    {
      var stockFile := stockFiles[i];
      var stockImage := LoadImage(decode, Join(StockFolder, stockFile));
      var randomTemplateFile := GetRandomTemplate(templateFiles, random(i));
      var templateImage := LoadImage(decode, Join(TemplateFolder, randomTemplateFile.value));
      var outputBuffer := CenterCrop.MergeImages(stockImage, templateImage, Jpeg);
      var outputFileName := OutputName(stockFile, randomTemplateFile.value);
      var file := Written(Join(HasilFolder, outputFileName), outputBuffer);
      assert file == Output(decode, stockFile, randomTemplateFile.value);
      ChosenSnoc(stockFiles, templateFiles, random, i);
      MapPairsSnoc(decode, Output, Chosen(stockFiles[..i], templateFiles, random), stockFile, randomTemplateFile.value);
      written := written + [file];
    }
    assert stockFiles[..|stockFiles|] == stockFiles;
  }

  /** The name of a stock file without '_' in its stem reads back as the two stems. */
  lemma OutputNameSplits(stockFile: string, templateFile: string)
    requires '_' !in Stem(stockFile)
    ensures SplitOutputName("", ".jpg", OutputName(stockFile, templateFile))
            == Some((Stem(stockFile), Stem(templateFile)))
  {
    assert OutputName(stockFile, templateFile) == "" + Stem(stockFile) + "_" + Stem(templateFile) + ".jpg";
    SplitJoinedName("", Stem(stockFile), Stem(templateFile), ".jpg");
  }

  /**
   Two stock files that differ only in their extension get the same name when
   they draw the same template, and the later write replaces the earlier file.
   */
  lemma OutputNamesCollide()
    ensures OutputName("photo.jpg", "frame.png") == OutputName("photo.png", "frame.png") == "photo_frame.jpg"
  {
    StemExamples();
  }

  /**
   The example run: stock folder `a.jpg` (an image) and `notes.txt` (no
   image), template folder `t1.png` and `t2.png`. One JPEG file is written,
   `a_t1.jpg` or `a_t2.jpg` as the draw decides.
   */
  lemma ExampleRun(sizeOf: FilePath -> SizeOf, decode: FilePath -> Size, random: nat -> real)
    requires sizeOf(Join(StockFolder, "a.jpg")) == Returned(Object(Number(800), Number(600)))
    requires sizeOf(Join(StockFolder, "notes.txt")) == Threw
    requires Draws(random)
    ensures TemplateFiles(["t1.png", "t2.png"]) != []
    ensures var written := Outputs(StockFiles(["a.jpg", "notes.txt"], sizeOf), TemplateFiles(["t1.png", "t2.png"]), decode, random);
      && |written| == 1
      && (written[0].path == Join(HasilFolder, "a_t1.jpg") || written[0].path == Join(HasilFolder, "a_t2.jpg"))
      && written[0].buffer.format == Jpeg
  {
    ExampleStockListing(sizeOf);
    ExampleTemplateListing();
    ExampleStems();
    ExampleNames();
    var stocks, templates := ["a.jpg"], ["t1.png", "t2.png"];
    OutputsAt(stocks, templates, decode, random, 0);
  }
}
