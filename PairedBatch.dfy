/**
 The pairing policy `crop.js` and `resize.js` share: every stock file that
 passes `isImage` with every template that ends in ".png", in the order of two
 nested `for...of` loops over the filtered listings.
 */
module PairedBatch {
  import opened JsRuntime
  import opened NodePath
  import opened BatchCommon
  import opened Pairing

  /**
   A directory listing names each entry once; then the nested loops visit
   exactly the pairs of an image stock file and a ".png" template, each pair
   exactly once.
   */
  lemma EachPairOnce(stockListing: seq<string>, templateListing: seq<string>, sizeOf: FilePath -> SizeOf)
    requires NoDuplicates(stockListing) && NoDuplicates(templateListing)
    ensures NoDuplicates(AllPairs(StockFiles(stockListing, sizeOf), TemplateFiles(templateListing)))
    ensures forall s, t :: (s, t) in AllPairs(StockFiles(stockListing, sizeOf), TemplateFiles(templateListing))
              <==> && s in stockListing && HasDimensions(sizeOf(Join(StockFolder, s)))
                   && t in templateListing && EndsWith(t, ".png")
  {
    var stocks, templates := StockFiles(stockListing, sizeOf), TemplateFiles(templateListing);
    AllPairsExactlyOnce(stocks, templates);
    AllPairsMembers(stocks, templates);
  }
}
