/**
 * The helper functions createStaticIndex hands to the page template
 * (main.go:184-190): `ext` and `base`. Paths use '/' as separator, as
 * filepath does on the systems the server runs on.
 */
module Templates {
  import opened GoStrings

  /**
   * filepath.Ext's backward scan over path[..n]: it stops at the first '/'
   * and answers with the first '.' it meets, or -1.
   */
  function ExtDot(path: string, n: nat): (i: int)
    requires n <= |path|
    ensures -1 <= i < n
    ensures 0 <= i ==> path[i] == '.'
    ensures forall k :: i < k < n && 0 <= i ==> path[k] != '.' && path[k] != '/'
    decreases n
  {
    if n == 0 || path[n - 1] == '/' then -1
    else if path[n - 1] == '.' then n - 1
    else ExtDot(path, n - 1)
  }

  /** filepath.Ext: the suffix from the final '.' of the last path element, or "". */
  function FilepathExt(path: string): string
  {
    var i := ExtDot(path, |path|);
    if i < 0 then "" else path[i..]
  }

  /** The `ext` template helper: filepath.Ext without its leading dot. */
  function Ext(name: string): (r: string)
    ensures '.' !in r && '/' !in r
    ensures HasSuffix(name, r)
  {
    TrimPrefix(FilepathExt(name), ".")
  }

  /**
   * The `base` template helper: the last element of strings.Split(name, "/"),
   * which is everything after the last '/', or the whole name.
   */
  function Base(name: string): (r: string)
    ensures '/' !in r
    ensures r == name[LastIndex(name, '/') + 1..]
  {
    var parts := Split(name, '/');
    SplitPieceFree(name, '/', |parts| - 1);
    parts[|parts| - 1]
  }

  /** The scan stops at the last '.' exactly when that dot lies after the last '/'. */
  lemma {:induction false} ExtDotIsLastDot(path: string, n: nat)
    requires n <= |path|
    ensures var d, sl := LastIndex(path[..n], '.'), LastIndex(path[..n], '/');
            ExtDot(path, n) == if d > sl then d else -1
    decreases n
  {
    if n > 0 && path[n - 1] != '/' && path[n - 1] != '.' {
      ExtDotIsLastDot(path, n - 1);
      assert path[..n][..n - 1] == path[..n - 1];
    }
  }

  /**
   * Reference definition of `ext`: the text after the last '.' of the name when
   * that dot comes after the last '/', and "" when the last element has no dot.
   */
  lemma ExtAfterLastDot(name: string)
    ensures var d, sl := LastIndex(name, '.'), LastIndex(name, '/');
            Ext(name) == if d > sl then name[d + 1..] else ""
  {
    ExtDotIsLastDot(name, |name|);
    assert name[..|name|] == name;
  }

  /** `base` is a suffix of the name, and the name is a directory part followed by it. */
  lemma BaseIsLastElement(name: string)
    ensures HasSuffix(name, Base(name))
    ensures var dir := name[..|name| - |Base(name)|]; dir == [] || dir[|dir| - 1] == '/'
  {
    var sl, b := LastIndex(name, '/'), Base(name);
    assert b == name[sl + 1..] && |name| - |b| == sl + 1;
    assert name[|name| - |b|..] == b;
    if 0 <= sl {
      assert name[..sl + 1][sl] == '/';
    }
  }

  /** The helpers on the example entries of a listing. */
  lemma TxtExample()
    ensures Ext("docs/a.txt") == "txt" && Base("docs/a.txt") == "a.txt"
  {
    var name := "docs/a.txt";
    assert name[9] == 't' && name[8] == 'x' && name[7] == 't' && name[6] == '.';
    assert ExtDot(name, 7) == 6;
    assert ExtDot(name, 10) == 6;
    assert FilepathExt(name) == ".txt";
    assert name[4] == '/' && name[5] != '/' && name[6] != '/' && name[7] != '/' && name[8] != '/' && name[9] != '/';
    assert LastIndex(name, '/') == 4;
  }
}
