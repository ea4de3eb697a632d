# template-combiner in Dafny

template-combiner is three Node.js batch scripts. Each one reads the images in
`./stock` and the `.png` templates in `./template`, composites stock images
with templates on a `canvas`, and writes the results to `./hasil`:

- `index.js` centre-crops every stock image to the size of one randomly
  chosen template. It draws the template over the crop and writes
  `<stock>_<template>.jpg`. When there is no template at all it stops before
  writing anything.
- `crop.js` does the same centre crop for every (stock, template) pair, in
  stock-major order, and writes `crop_<stock>_<template>.png`.
- `resize.js` stretches the whole stock image to the template's size instead
  of cropping. It writes `resize_<stock>_<template>.png` for every pair.

This project models the logic of these scripts:

- the image classifier `isImage`, including JavaScript truthiness and the
  value of `&&`;
- the listing filters;
- the crop geometry and the stretch geometry;
- the draw operations each `mergeImages` makes on its canvas, and their order;
- the pairing policies: all pairs for crop and resize, one random template
  per stock for index;
- the output names, built from the `path.parse(..).name` stems;
- the sequence of files each `processBatchImages` writes.

Pixels stay abstract. A `Canvas` (a class) records the `drawImage` calls made
on its context. A buffer from `toBuffer` carries the recorded picture and the
format.

Modules follow the source:

- `JsRuntime` holds the JavaScript semantics the scripts rely on.
- `NodePath` holds `path.join` and `path.parse(..).name`.
- `CanvasApi` holds the canvas and its three `drawImage` forms, normalised to
  the nine-argument form as the HTML Living Standard defines `drawImage()`.
- `BatchCommon` holds what all three scripts share: the folders, `isImage`,
  the filters, loading, writing, the shape of a composite and output-name
  parsing.
- `CenterCrop` holds `cropImage` and the crop `mergeImages`.
- `Pairing` holds the visiting order of two nested `for...of` loops.
- `PairedBatch` holds the all-pairs policy applied to the filtered listings.
- `CropScript`, `ResizeScript` and `IndexScript` hold one script each.

Shared code is modelled once:

- `isImage` is word for word the same in `index.js:16-23`, `crop.js:16-23` and
  `resize.js:16-23`.
- `cropImage` is the same in `index.js:26-38` and `crop.js:26-38`.
- The crop `mergeImages` of `index.js:47-62` and `crop.js:41-56` differ only
  in the MIME type.

The table cites the `index.js` copy of each of these. The inner `for...of`
loop of `crop.js` and `resize.js` is the method `ProcessStockImage`. The
outer loop calls it once per stock file and appends what it writes.

Each `processBatchImages` is a method whose result is the sequence of
`writeFileSync` calls it makes, in order. It is proved equal to a
specification function (`Batch`, `Outputs`). Lemmas then state what that
function contains: how many files, which file sits at which position, its
name, its picture, and that each pair is visited once.

Three behaviours of the scripts are easy to misread; the model follows the
code:

- `isImage` accepts any truthy width and height. Negative numbers would pass;
  a width or height of 0 fails.
- The crop offsets `(extent - target) / 2` are not truncated. They are
  negative when the stock is smaller than the template, and end in .5 when
  the difference is odd (`CropOffsetCentred`).
- Output names are not always unique. A '_' inside a stock stem, or two stock
  files that differ only in their extension, give two pairs the same name
  (`OutputNamesCollide`). A later write then replaces the earlier file.
  Names do round-trip when the stock stem has no '_' (`OutputNameSplits`,
  `JoinedNamesDistinct`).

Inputs the scripts get from the environment are parameters:

- the directory listings (`stockListing`, `templateListing`);
- the `image-size` probe (`sizeOf`, which returns a value or throws);
- the decoder behind `loadImage` (`decode`, which gives each file's size);
- the `Math.random()` draws (`random`, draw number i for stock file i).

## Model

| member | source | states |
|---|---|---|
| JsRuntime.And | index.js:19 | `a && b` is truthy exactly when both operands are; it is the left operand when that is falsy, otherwise the right one |
| JsRuntime.Filter | index.js:66 | `Array.prototype.filter` keeps exactly the elements the callback accepts and is never longer than its input |
| JsRuntime.FilterAppend | index.js:66 | filtering is order preserving: the filter of a concatenation is the concatenation of the filters |
| JsRuntime.FilterNoDuplicates | index.js:66 | filtering a listing without repetitions leaves a list without repetitions |
| JsRuntime.NoDuplicatesConcat | crop.js:63-78 | proof helper for Pairing.AllPairsExactlyOnce: two repetition-free lists with no shared element concatenate to a repetition-free list |
| NodePath.LastDot | index.js:85 | the index of the last '.' in a name, with no '.' after it, or -1 when there is none |
| NodePath.Stem | index.js:85 | `path.parse(name).name` is a prefix of the name |
| NodePath.NoExtensionStem | index.js:85 | a name with no '.' after its first character is its own stem, so dotfiles such as ".png" keep their name |
| NodePath.ParentStem | index.js:85 | ".." is its own stem, the one separator-free name the two lemmas around it leave out |
| NodePath.StemDropsExtension | index.js:85 | the stem of `base.ext` is `base` for a non-empty base and an extension without '.', except for ".." |
| CanvasApi.Canvas.constructor | index.js:27 | `createCanvas(width, height)` gives an empty canvas of that size |
| CanvasApi.Canvas.Snapshot | index.js:56 | a canvas used as a drawing source shows its size and the operations drawn on it so far |
| CanvasApi.Canvas.DrawImage | index.js:56 | the three-argument `drawImage` appends a draw of the whole layer, unscaled, with its corner at (dx, dy); nothing else changes |
| CanvasApi.Canvas.DrawImageScaled | resize.js:32 | the five-argument `drawImage` appends a draw of the whole layer scaled into the given rectangle; nothing else changes |
| CanvasApi.Canvas.DrawImageRegion | index.js:35 | the nine-argument `drawImage` appends a draw of the given source region into the given destination region; nothing else changes |
| CanvasApi.Canvas.ToBuffer | index.js:61 | `toBuffer(mime)` encodes the current content in the requested format and leaves the canvas unchanged |
| BatchCommon.IsImage | index.js:16-23 | the classifier's result is truthy exactly when the probe returns an object with truthy width and height; a throwing probe gives `false`; a truthy result is the height |
| BatchCommon.IsImageOnNumbers | index.js:16-23 | for numeric dimensions, a file is an image exactly when both width and height are non-zero |
| BatchCommon.StockFiles | index.js:66 | a stock entry takes part exactly when the file passes `isImage`; the filtered list is no longer than the listing and repeats nothing if the listing repeats nothing |
| BatchCommon.TemplateFiles | index.js:67 | a template entry takes part exactly when its name ends in ".png" (no decoding); same bound and no-repetition property |
| BatchCommon.TemplateStem | index.js:85 | a kept template's stem is its name without ".png", and the dotfile ".png" keeps its whole name |
| BatchCommon.FirstUnderscore | crop.js:72 | proof helper for reading names back (SplitOutputName, which the scripts themselves never do): the index of the first '_' in a string, with no '_' before it, or -1 when there is none |
| BatchCommon.SplitJoinedName | crop.js:72 | a name joined as prefix, stock stem, '_', template stem and extension splits back into the two stems when the stock stem has no '_' |
| BatchCommon.JoinedNamesDistinct | crop.js:72 | distinct stem pairs whose stock stems have no '_' get distinct output names |
| BatchCommon.StemExamples | crop.js:72 | the stems of a_b.jpg, a.jpg, b_c.png, c.png, photo.jpg, photo.png and frame.png drop their extensions |
| BatchCommon.ExampleStems | index.js:85 | the stems of a.jpg, t1.png and t2.png are a, t1 and t2 |
| BatchCommon.ExampleStockListing | index.js:66 | of a stock folder holding an 800 x 600 `a.jpg` and an unreadable `notes.txt`, only `a.jpg` is kept |
| BatchCommon.ExampleTemplateListing | index.js:67 | both `t1.png` and `t2.png` pass the template filter, in listing order |
| BatchCommon.ExampleNames | crop.js:72 | the output names of the example runs, spelt out |
| CenterCrop.CropOffset | index.js:31-32 | the crop offset is exactly half the difference of the extents |
| CenterCrop.CropOffsetCentred | index.js:31-32 | the margin before the crop equals the margin after it; the offset is non-negative exactly when the target fits and is then inside the image; it is a whole pixel exactly when the difference is even |
| CenterCrop.CropImage | index.js:26-38 | `cropImage` returns a fresh canvas holding exactly the centred crop picture |
| CenterCrop.CroppedIsCentredCopy | index.js:27-35 | the crop canvas is `width` x `height` and holds one 1:1 copy, from a centred source rectangle of the target size to the whole canvas at the origin |
| CenterCrop.MergeImages | index.js:47-62 | the crop `mergeImages` encodes, in the requested format, the crop composite |
| CenterCrop.MergedOverlaysTemplate | index.js:49-59 | the crop composite has the template's size; first the stock cropped to exactly the template's size fills the canvas unscaled, then the template is drawn unscaled at the origin, and nothing else is drawn |
| Pairing.Row | crop.js:67-77 | one pass of the inner loop visits (x, ys[j]) at position j, one per template |
| Pairing.MapPairs | crop.js:63-78 | the loop body runs once per visited pair |
| Pairing.MapPairsAt | crop.js:63-78 | result number k is the body's result for pair number k |
| Pairing.MapPairsSnoc | index.js:74-90 | visiting one more pair appends that pair's result |
| Pairing.RowSnoc | crop.js:67-77 | one more inner step appends (x, ys[j]) to the row |
| Pairing.MapPairsAppend | crop.js:63-78 | the results for two stretches of pairs are the results of each in turn |
| Pairing.MapRowStep | crop.js:67-77 | one more inner step appends the body's result for (x, ys[j]) |
| Pairing.AllPairsNextRow | crop.js:63-78 | after row i is complete, the pairs of the first i + 1 stock files have been visited |
| Pairing.MapAllPairsNextRow | crop.js:63-78 | the results so far, followed by row i's results, are the results for the first i + 1 stock files |
| Pairing.MulStep | crop.js:63-78 | proof helper for Pairing.AllPairsLength: (n + 1) * m == n * m + m, the count step for one more row |
| Pairing.AllPairsSnoc | crop.js:63-78 | one more stock file appends one row |
| Pairing.AllPairsAppend | crop.js:63-78 | visiting the stock list in two halves visits the pairs of each half in turn |
| Pairing.AllPairsLength | crop.js:63-78 | the nested loops visit |xs| * |ys| pairs |
| Pairing.AllPairsSplit | crop.js:63-78 | the visiting order is the rows before stock file i, its row, then the rows after it |
| Pairing.AllPairsEntry | crop.js:63-78 | template j of stock file i comes right after the pairs of the stock files before it |
| Pairing.AllPairsAt | crop.js:63-78 | in stock-major order, pair number i * M + j is (stock i, template j) |
| Pairing.AllPairsMembers | crop.js:63-78 | every visited pair is a listed stock file with a listed template, and every such pair is visited |
| Pairing.RowNoDuplicates | crop.js:67-77 | a row repeats no pair when the template list repeats nothing |
| Pairing.AllPairsExactlyOnce | crop.js:63-78 | when neither list repeats an entry, no pair is visited twice |
| Pairing.MapAllPairsAt | crop.js:63-78 | result number i * M + j is the body's result for (stock i, template j) |
| Pairing.MapAllPairsCount | crop.js:63-78 | the body runs N * M times, and not at all exactly when either list is empty |
| PairedBatch.EachPairOnce | crop.js:60-67 | for repetition-free listings, the visited pairs are exactly an image stock file with a ".png" template, each pair exactly once |
| CropScript.ProcessBatchImages | crop.js:59-79 | the run writes exactly `Batch` over the filtered listings: one file per (stock, template) pair, in stock-major order, with no early exit |
| CropScript.ProcessStockImage | crop.js:67-77 | one pass of the outer loop writes the crop composite of its stock file with each template in listing order |
| CropScript.BatchCount | crop.js:63-78 | N stock images and M templates give N * M files, and none exactly when either filtered list is empty, so an empty template list writes nothing |
| CropScript.BatchOrder | crop.js:63-75 | file number i * M + j is `./hasil/crop_<stem of stock i>_<stem of template j>.png` and holds, as PNG, stock i centre-cropped under template j |
| CropScript.OutputNameSplits | crop.js:72 | a `crop_` name reads back as its two stems when the stock stem has no '_' |
| CropScript.OutputNamesCollide | crop.js:72 | `a_b.jpg` with `c.png` and `a.jpg` with `b_c.png` both give `crop_a_b_c.png`; `photo.jpg` and `photo.png` with the same template share a name |
| CropScript.ExampleBatch | crop.js:63-78 | stock `a.jpg` with templates `t1.png` (400 x 300) and `t2.png` (500 x 500) gives exactly `crop_a_t1.png` then `crop_a_t2.png`, each the size of its template |
| ResizeScript.MergeImages | resize.js:26-38 | the resize `mergeImages` encodes as PNG the stretch composite |
| ResizeScript.StretchedOverlaysTemplate | resize.js:28-35 | the stretch composite has the template's size; first the whole stock, uncropped, is drawn into the whole canvas whatever its own size, then the template unscaled at the origin |
| ResizeScript.ProcessBatchImages | resize.js:41-61 | the run writes exactly `Batch` over the filtered listings: one file per (stock, template) pair, in stock-major order |
| ResizeScript.ProcessStockImage | resize.js:49-59 | one pass of the outer loop writes the stretch composite of its stock file with each template in listing order |
| ResizeScript.BatchCount | resize.js:45-60 | N stock images and M templates give N * M files, and none exactly when either filtered list is empty |
| ResizeScript.BatchOrder | resize.js:45-57 | file number i * M + j is `./hasil/resize_<stem of stock i>_<stem of template j>.png` and holds, as PNG, stock i stretched under template j |
| ResizeScript.OutputNameSplits | resize.js:54 | a `resize_` name reads back as its two stems when the stock stem has no '_' |
| ResizeScript.OutputNamesCollide | resize.js:54 | `a_b.jpg` with `c.png` and `a.jpg` with `b_c.png` share a name, and so do `photo.jpg` and `photo.png` with the same template |
| ResizeScript.ExampleBatch | resize.js:45-60 | stock `a.jpg` with templates `t1.png` and `t2.png` gives exactly `resize_a_t1.png` then `resize_a_t2.png`, the stock stretched to 400 x 300 and to 500 x 500 |
| IndexScript.RandomIndex | index.js:42 | for a draw in [0, 1), `Math.floor(random * length)` is an index into a non-empty list, and 0 for an empty one |
| IndexScript.ScaledDrawInRange | index.js:42 | a draw in [0, 1) scaled by a length lies in [0, length) |
| IndexScript.GetRandomTemplate | index.js:41-44 | for a draw in [0, 1) a template is returned exactly when the list is non-empty (otherwise `undefined`), and a returned template belongs to the list |
| IndexScript.EveryTemplateReachable | index.js:41-44 | every template can be chosen: the draw k / n picks template k of n |
| IndexScript.Chosen | index.js:74-81 | the loop visits one (stock, template) pair per stock file |
| IndexScript.ChosenAt | index.js:74-81 | pair number i is stock file i with the template that draw number i picked |
| IndexScript.ChosenSnoc | index.js:74-81 | one more pass visits one more pair |
| IndexScript.Outputs | index.js:74-90 | the run writes one file per stock file |
| IndexScript.OutputsAt | index.js:74-90 | file number i is `./hasil/<stem of stock i>_<stem of the chosen template>.jpg` for a template in the filtered list, and holds, as JPEG, stock i centre-cropped under that template |
| IndexScript.ProcessBatchImages | index.js:65-91 | the run stops before writing anything exactly when no template ends in ".png"; otherwise it writes exactly `Outputs`: one file per image in the stock listing, in listing order |
| IndexScript.OutputNameSplits | index.js:85 | a `.jpg` output name reads back as its two stems when the stock stem has no '_' |
| IndexScript.OutputNamesCollide | index.js:85 | `photo.jpg` and `photo.png` that draw `frame.png` both give `photo_frame.jpg` |
| IndexScript.ExampleRun | index.js:65-91 | a stock folder with `a.jpg` and `notes.txt` and templates `t1.png` and `t2.png` give exactly one JPEG file, `a_t1.jpg` or `a_t2.jpg` |

## Left out

- Pixels are not modelled. Rasterisation, sampling outside the image, alpha blending, scaling quality and PNG/JPEG encoding belong to the `canvas` package; a picture is the record of its draw operations.
- How `image-size` reads headers is not modelled. It is the parameter `sizeOf`, which returns a value or throws.
- Filesystem effects are not modelled: creating `./hasil` (`existsSync`/`mkdirSync`), `readdirSync` and `writeFileSync`. The listings are input sequences, and the writes are the returned sequence of `Written` records.
- A failing `loadImage`, `toBuffer` or `writeFileSync` is not modelled; in the scripts it rejects the promise and aborts the run. `decode` is total, so every load succeeds.
- `async`/`await` and the final promise chain are not modelled. Execution is strictly sequential, so the order of the writes is all that remains.
- The distribution of `Math.random()` and floating-point rounding are not modelled. The draws are exact reals in [0, 1), and `Math.floor(random * length)` is computed over them.
- Console output is not modelled: progress lines, the completion message and the error handler. In `index.js` the missing-template diagnostic is the `noTemplates` result.
- A JavaScript `Value` has whole numbers only. NaN, fractional dimensions and strings are not represented.
- NodePath.Stem: covers names without a path separator only, which is all a directory listing yields.
- CropScript.ProcessBatchImages, ResizeScript.ProcessBatchImages and IndexScript.ProcessBatchImages: the written sequence keeps every write. When two pairs share a name, the file system only keeps the last one; that overwrite is not modelled.
- IndexScript.ProcessBatchImages: draw number i is used for stock file i. The order of draws is the script's, but their values are free parameters beyond lying in [0, 1).
