/**
 What the three batch scripts share word for word: the fixed folders, the image
 classifier `isImage`, the two listing filters, the way an output file is named
 and written, and the shape every composite has (the template's size, the
 transformed stock below, the template on top).
 */
module BatchCommon {
  import opened JsRuntime
  import opened NodePath
  import opened CanvasApi

  const StockFolder: string := "./stock"
  const TemplateFolder: string := "./template"
  const HasilFolder: string := "./hasil"

  /** What `sizeOf(path)` from `image-size` does: throw, or return a value. */
  datatype SizeOf = Threw | Returned(dimensions: Value)

  /** The classifier's specification: the header was read and reports a non-zero width and height. */
  predicate HasDimensions(outcome: SizeOf) {
    && outcome.Returned?
    && outcome.dimensions.Object?
    && Truthy(outcome.dimensions.width)
    && Truthy(outcome.dimensions.height)
  }

  /**
   `isImage(path)`: `dimensions && dimensions.width && dimensions.height`, or
   `false` when `sizeOf` throws. The result is a JavaScript value that the
   filter reads for its truthiness.
   */
  function IsImage(sizeOf: FilePath -> SizeOf, path: FilePath): (r: Value)
    ensures Truthy(r) <==> HasDimensions(sizeOf(path))
    ensures sizeOf(path).Threw? ==> r == Boolean(false)
    ensures Truthy(r) ==> r == sizeOf(path).dimensions.height
  {
    match sizeOf(path)
    case Threw => Boolean(false)
    case Returned(dimensions) => And(And(dimensions, Width(dimensions)), Height(dimensions))
  }

  /** For the numeric dimensions `image-size` reports, a file is an image exactly when neither is zero. */
  lemma IsImageOnNumbers(sizeOf: FilePath -> SizeOf, path: FilePath, width: int, height: int)
    requires sizeOf(path) == Returned(Object(Number(width), Number(height)))
    ensures Truthy(IsImage(sizeOf, path)) <==> width != 0 && height != 0
  {
  }

  /** `readdirSync(stockFolder).filter(file => isImage(path.join(stockFolder, file)))`. */
  function StockFiles(listing: seq<string>, sizeOf: FilePath -> SizeOf): (stocks: seq<string>)
    ensures |stocks| <= |listing|
    ensures forall f :: f in stocks <==> f in listing && HasDimensions(sizeOf(Join(StockFolder, f)))
    ensures NoDuplicates(listing) ==> NoDuplicates(stocks)
  {
    var keep := entry => Truthy(IsImage(sizeOf, Join(StockFolder, entry)));
    FilterNoDuplicates(listing, keep);
    Filter(listing, keep)
  }

  /** `readdirSync(templateFolder).filter(file => file.endsWith('.png'))`: no decoding. */
  function TemplateFiles(listing: seq<string>): (templates: seq<string>)
    ensures |templates| <= |listing|
    ensures forall f :: f in templates <==> f in listing && EndsWith(f, ".png")
    ensures NoDuplicates(listing) ==> NoDuplicates(templates)
  {
    var keep := entry => EndsWith(entry, ".png");
    FilterNoDuplicates(listing, keep);
    Filter(listing, keep)
  }

  /** A kept template's stem is its name without ".png", except for the dotfile ".png" itself. */
  lemma TemplateStem(template: string)
    requires EndsWith(template, ".png")
    ensures template == ".png" ==> Stem(template) == template
    ensures template != ".png" ==> Stem(template) == template[..|template| - 4]
  {
    var base := template[..|template| - 4];
    assert template == base + template[|template| - 4..];
    assert template == base + "." + "png";
    if base == [] {
      assert template[0] == '.';
      forall j | 0 < j < |template| ensures template[j] != '.' {
        assert template[j] == "png"[j - 1];
      }
      NoExtensionStem(template);
    } else {
      StemDropsExtension(base, "png");
    }
  }

  /** The intrinsic size `loadImage` finds when it decodes a file. */
  datatype Size = Size(width: nat, height: nat)

  /** `await loadImage(path)`, with the decoder's findings given as `decode`. */
  function LoadImage(decode: FilePath -> Size, path: FilePath): Image {
    Image(path, decode(path).width, decode(path).height)
  }

  /** One `fs.writeFileSync(path.join(hasilFolder, name), buffer)`. */
  datatype Written = Written(path: FilePath, buffer: Buffer)

  /**
   The shape every composite has: a canvas of the template's size whose first
   operation fills the whole canvas with the transformed stock and whose second
   and last draws the template unscaled at the origin.
   */
  predicate OverlaysTemplate(p: Picture, template: Image) {
    && p.width == template.width
    && p.height == template.height
    && |p.ops| == 2
    && p.ops[0].dest == Whole(template.width, template.height)
    && p.ops[1] == DrawOp(Bitmap(template), Whole(template.width, template.height),
                          Whole(template.width, template.height))
  }

  /** The index of the first '_' in `s`, or -1 when there is none. */
  function FirstUnderscore(s: string): (k: int)
    ensures -1 <= k < |s|
    ensures k >= 0 ==> s[k] == '_'
    ensures forall j :: 0 <= j < |s| && (k < 0 || j < k) ==> s[j] != '_'
  {
    if s == [] then -1
    else if s[0] == '_' then 0
    else
      var k := FirstUnderscore(s[1..]);
      if k < 0 then -1 else k + 1
  }

  /**
   Reads `prefix + stockStem + "_" + templateStem + ext` back into its two stems,
   splitting at the first '_' after the prefix.
   */
  function SplitOutputName(prefix: string, ext: string, name: string): Option<(string, string)> {
    if |prefix| + |ext| <= |name| && name[..|prefix|] == prefix && EndsWith(name, ext) then
      var middle := name[|prefix|..|name| - |ext|];
      var k := FirstUnderscore(middle);
      if k < 0 then None else Some((middle[..k], middle[k + 1..]))
    else None
  }

  /** Output names round-trip when the stock stem contains no '_'. */
  lemma SplitJoinedName(prefix: string, stockStem: string, templateStem: string, ext: string)
    requires '_' !in stockStem
    ensures SplitOutputName(prefix, ext, prefix + stockStem + "_" + templateStem + ext)
            == Some((stockStem, templateStem))
  {
    var name := prefix + stockStem + "_" + templateStem + ext;
    var middle := stockStem + "_" + templateStem;
    assert name[..|prefix|] == prefix;
    assert name[|name| - |ext|..] == ext;
    assert name[|prefix|..|name| - |ext|] == middle;
    assert middle[|stockStem|] == '_';
    forall j | 0 <= j < |stockStem| ensures middle[j] != '_' {
      assert middle[j] == stockStem[j];
    }
    var k := FirstUnderscore(middle);
    assert k == |stockStem|;
    assert middle[..k] == stockStem;
    assert middle[k + 1..] == templateStem;
  }

  /** Distinct stem pairs give distinct output names, provided stock stems contain no '_'. */
  lemma JoinedNamesDistinct(prefix: string, ext: string, s1: string, t1: string, s2: string, t2: string)
    requires '_' !in s1 && '_' !in s2
    requires (s1, t1) != (s2, t2)
    ensures prefix + s1 + "_" + t1 + ext != prefix + s2 + "_" + t2 + ext
  {
    SplitJoinedName(prefix, s1, t1, ext);
    SplitJoinedName(prefix, s2, t2, ext);
  }

  /** Stems of a few ordinary file names. */
  lemma StemExamples()
    ensures Stem("a_b.jpg") == "a_b" && Stem("a.jpg") == "a" && Stem("b_c.png") == "b_c" && Stem("c.png") == "c"
    ensures Stem("photo.jpg") == "photo" && Stem("photo.png") == "photo" && Stem("frame.png") == "frame"
  {
    assert "a_b.jpg" == "a_b" + "." + "jpg";
    StemDropsExtension("a_b", "jpg");
    assert "a.jpg" == "a" + "." + "jpg";
    StemDropsExtension("a", "jpg");
    assert "b_c.png" == "b_c" + "." + "png";
    StemDropsExtension("b_c", "png");
    assert "c.png" == "c" + "." + "png";
    StemDropsExtension("c", "png");
    assert "photo.jpg" == "photo" + "." + "jpg";
    StemDropsExtension("photo", "jpg");
    assert "photo.png" == "photo" + "." + "png";
    StemDropsExtension("photo", "png");
    assert "frame.png" == "frame" + "." + "png";
    StemDropsExtension("frame", "png");
  }

  /** Stems of the file names of the example run. */
  lemma ExampleStems()
    ensures Stem("a.jpg") == "a" && Stem("t1.png") == "t1" && Stem("t2.png") == "t2"
  {
    assert "a.jpg" == "a" + "." + "jpg";
    StemDropsExtension("a", "jpg");
    assert "t1.png" == "t1" + "." + "png";
    StemDropsExtension("t1", "png");
    assert "t2.png" == "t2" + "." + "png";
    StemDropsExtension("t2", "png");
  }

  /**
   The example run's stock folder holds the image `a.jpg` and the text file
   `notes.txt`; only `a.jpg` passes the classifier.
   */
  lemma ExampleStockListing(sizeOf: FilePath -> SizeOf)
    requires sizeOf(Join(StockFolder, "a.jpg")) == Returned(Object(Number(800), Number(600)))
    requires sizeOf(Join(StockFolder, "notes.txt")) == Threw
    ensures StockFiles(["a.jpg", "notes.txt"], sizeOf) == ["a.jpg"]
  {
    var keep := entry => Truthy(IsImage(sizeOf, Join(StockFolder, entry)));
    assert ["a.jpg", "notes.txt"][1..] == ["notes.txt"];
    assert ["notes.txt"][1..] == [];
    assert Filter(["a.jpg", "notes.txt"], keep) == ["a.jpg"];
  }

  /** The example run's template folder holds `t1.png` and `t2.png`; both pass the suffix filter. */
  lemma ExampleTemplateListing()
    ensures TemplateFiles(["t1.png", "t2.png"]) == ["t1.png", "t2.png"]
  {
    var png := entry => EndsWith(entry, ".png");
    assert ["t1.png", "t2.png"][1..] == ["t2.png"];
    assert ["t2.png"][1..] == [];
    assert EndsWith("t1.png", ".png") && EndsWith("t2.png", ".png");
    assert Filter(["t1.png", "t2.png"], png) == ["t1.png", "t2.png"];
  }

  /** The output names of the example run, spelt out. */
  lemma ExampleNames()
    ensures "crop_" + "a" + "_" + "t1" + ".png" == "crop_a_t1.png"
    ensures "crop_" + "a" + "_" + "t2" + ".png" == "crop_a_t2.png"
    ensures "resize_" + "a" + "_" + "t1" + ".png" == "resize_a_t1.png"
    ensures "resize_" + "a" + "_" + "t2" + ".png" == "resize_a_t2.png"
    ensures "a" + "_" + "t1" + ".jpg" == "a_t1.jpg"
    ensures "a" + "_" + "t2" + ".jpg" == "a_t2.jpg"
  {
  }
}
