/** Engine path helpers: joining path segments with the engine separator '/'
  * and rewriting that separator to the platform's own. */
module StringExtensions {
  import opened Wrappers
  import opened Models

  /** path.AddPath(value): a null path reads as empty; a separator goes in only
    * after a non-empty path; a null value appends nothing. */
  function AddPath(path: NullableString, value: NullableString): (r: string)
    ensures IsNullOrEmpty(path) ==> r == OrEmpty(value)
    ensures |r| == |OrEmpty(path)| + (if IsNullOrEmpty(path) then 0 else 1) + |OrEmpty(value)|
    ensures !IsNullOrEmpty(path) ==> r[..|path.value|] == path.value && r[|path.value|] == EngineDirectorySeparator
    ensures r[|r| - |OrEmpty(value)|..] == OrEmpty(value)
  {
    var result := OrEmpty(path);
    if result != "" then result + [EngineDirectorySeparator] + OrEmpty(value) else OrEmpty(value)
  }

  /** path.NormalizeDirectorySeparators(): every engine separator becomes the
    * platform separator `native` (Path.DirectorySeparatorChar), and nothing else changes. */
  function NormalizeDirectorySeparators(path: string, native: char): (r: string)
    ensures |r| == |path|
    ensures forall i :: 0 <= i < |path| ==>
      r[i] == (if path[i] == EngineDirectorySeparator then native else path[i])
  {
    if path == [] then []
    else [if path[0] == EngineDirectorySeparator then native else path[0]]
         + NormalizeDirectorySeparators(path[1..], native)
  }

  /** Normalizing is done character by character, so it distributes over concatenation. */
  lemma {:induction false} NormalizeConcat(a: string, b: string, native: char)
    ensures NormalizeDirectorySeparators(a + b, native)
         == NormalizeDirectorySeparators(a, native) + NormalizeDirectorySeparators(b, native)
  {
    if a != [] {
      assert (a + b)[1..] == a[1..] + b;
      NormalizeConcat(a[1..], b, native);
    }
  }

  /** Normalizing twice is normalizing once. */
  lemma NormalizeIdempotent(path: string, native: char)
    ensures NormalizeDirectorySeparators(NormalizeDirectorySeparators(path, native), native)
         == NormalizeDirectorySeparators(path, native)
  {
  }

  /** Two AddPath steps from a non-empty root put one separator between each pair of segments. */
  lemma AddPathTwice(root: string, a: string, b: string)
    requires root != ""
    ensures AddPath(Some(AddPath(Some(root), Some(a))), Some(b)) == root + "/" + a + "/" + b
  {
  }

  /** The examples of StringExtensionsTests: an empty root adds no separator; a
    * non-empty root adds exactly one; normalizing rewrites each separator. */
  lemma AddPathExamples()
    ensures AddPath(Some(""), Some("path")) == "path"
    ensures AddPath(Some("root"), Some("path")) == "root/path"
  {
  }

  lemma NormalizeExample(p: string, native: char)
    requires p == "root/dir1/dir2" && native == '\\'
    ensures NormalizeDirectorySeparators(p, native) == "root\\dir1\\dir2"
  {
    var n := NormalizeDirectorySeparators(p, native);
    assert forall i | 0 <= i < |p| :: n[i] == "root\\dir1\\dir2"[i];
  }
}
