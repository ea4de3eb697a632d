/**
 The parts of Node's `path` module the scripts use: `path.join(folder, entry)`
 as a pair of folder and entry, and `path.parse(entry).name`, the entry without
 its extension.
 */
module NodePath {

  /** `path.join(folder, entry)` for an entry of a directory listing. */
  datatype FilePath = Join(folder: string, entry: string)

  /** The index of the last '.' in `name`, or -1 when there is none. */
  function LastDot(name: string): (k: int)
    ensures -1 <= k < |name|
    ensures k >= 0 ==> name[k] == '.'
    ensures forall j :: k < j < |name| ==> name[j] != '.'
  {
    if name == [] then -1
    else if name[|name| - 1] == '.' then |name| - 1
    else LastDot(name[..|name| - 1])
  }

  /**
   `path.parse(name).name` for a name without a path separator (every entry of a
   directory listing): the extension runs from the last '.' to the end, except
   that a '.' in first position does not start one (".png" has no extension)
   and ".." has none.
   */
  function Stem(name: string): (stem: string)
    ensures stem <= name
  {
    if name == ".." then name
    else
      var k := LastDot(name);
      if k <= 0 then name else name[..k]
  }

  /** ".." is its own stem: neither of its dots starts an extension. */
  lemma ParentStem()
    ensures Stem("..") == ".."
  {
  }

  /** A name with no '.' after its first character is its own stem. */
  lemma NoExtensionStem(name: string)
    requires forall j :: 0 < j < |name| ==> name[j] != '.'
    ensures Stem(name) == name
  {
  }

  /**
   The stem of `base.ext`, for a non-empty base and an extension without '.', is
   the base; the one exception is "..", which `path.parse` treats as having no
   extension.
   */
  lemma StemDropsExtension(base: string, ext: string)
    requires base != []
    requires '.' !in ext
    requires base + "." + ext != ".."
    ensures Stem(base + "." + ext) == base
  {
    var name := base + "." + ext;
    assert name[|base|] == '.';
    forall j | |base| < j < |name| ensures name[j] != '.' {
      assert name[j] == ext[j - |base| - 1];
    }
    var k := LastDot(name);
    assert k == |base|;
    assert name[..k] == base;
  }
}
