/** File paths as lists of segments, Node's `path.extname`/`path.basename`
    rule for splitting a file name into stem and extension, `path.relative`
    between two paths, and a directory tree as `readdir` sees it. */
module Paths {

  /** A path as its list of segments; the separator character is not part of the model. */
  type Path = seq<string>

  /** One directory entry as `readdir(dir, { withFileTypes: true })` yields it:
      a directory with its own entries, or anything else (`regular` is
      `isFile()`: false for links, sockets and the like). */
  datatype Entry<T> =
    | Dir(name: string, children: seq<Entry<T>>)
    | File(name: string, regular: bool, info: T)

  /** The last segment (`path.basename`), or "" for the empty path. */
  function BaseName(p: Path): string
  {
    if |p| == 0 then "" else p[|p| - 1]
  }

  /** Index of the last `c` in `s`, or -1. */
  function LastIndexOf(s: string, c: char): (r: int)
    ensures -1 <= r < |s|
    ensures r >= 0 ==> s[r] == c
    ensures forall j :: r < j < |s| ==> s[j] != c
  {
    if |s| == 0 then -1
    else if s[|s| - 1] == c then |s| - 1
    else LastIndexOf(s[..|s| - 1], c)
  }

  /** `path.extname(name)` for a name without separators: from the last dot
      to the end, except that a dot in front ("`.env`", "`..`") or no dot
      at all gives "". */
  function Ext(name: string): string
  {
    var d := LastIndexOf(name, '.');
    if d <= 0 || name == ".." then "" else name[d..]
  }

  /** `path.basename(name, path.extname(name))`: the name without its extension. */
  function Stem(name: string): string
  {
    name[..|name| - |Ext(name)|]
  }

  /** The extension is empty or a dot followed by dot-free text, the stem is
      never empty when there is an extension, and the two make up the name. */
  lemma StemExt(name: string)
    ensures Stem(name) + Ext(name) == name
    ensures Ext(name) == "" || (Ext(name)[0] == '.' && '.' !in Ext(name)[1..] && |Stem(name)| >= 1)
  {
    var d := LastIndexOf(name, '.');
    if d > 0 && name != ".." {
      assert Ext(name) == name[d..];
      forall j | 0 <= j < |name[d..]| - 1 ensures name[d..][1..][j] != '.' {
        assert name[d..][1..][j] == name[d + 1 + j];
      }
    }
  }

  /** Length of the longest common prefix of two paths. */
  function CommonPrefix(a: Path, b: Path): (k: nat)
    ensures k <= |a| && k <= |b| && a[..k] == b[..k]
    ensures k < |a| && k < |b| ==> a[k] != b[k]
  {
    if |a| == 0 || |b| == 0 || a[0] != b[0] then 0
    else
      var k := CommonPrefix(a[1..], b[1..]);
      assert a[..k + 1] == [a[0]] + a[1..][..k];
      assert b[..k + 1] == [b[0]] + b[1..][..k];
      k + 1
  }

  /** `path.relative(from, to)`: one ".." for every segment of `from` past
      the common prefix, then the rest of `to`. */
  function Relative(from: Path, to: Path): Path
  {
    var k := CommonPrefix(from, to);
    seq(|from| - k, _ => "..") + to[k..]
  }

  /** Relative to an ancestor, a path is its list of remaining segments. */
  lemma RelativeToAncestor(root: Path, rest: Path)
    ensures Relative(root, root + rest) == rest
  {
    assert (root + rest)[|root|..] == rest;
  }
}
