/** The flat-name copier (`copy-images.mjs`): walks a source tree, and copies
    every image into one destination folder under a name made from its path
    relative to the root, made safe for Windows and numbered when the name is
    already taken. */
module CopyImages {
  import opened Strings
  import opened Paths

  /** Characters Windows refuses in a file name: `< > : " / \ | ? *` and the
      control characters U+0000 to U+001F. */
  predicate Unsafe(c: char)
  {
    c in {'<', '>', ':', '"', '/', '\\', '|', '?', '*'} || c as int < 0x20
  }

  /** `sanitizeForWin`: every unsafe character becomes `_`, every other
      character stays where it was. */
  function SanitizeForWin(name: string): (r: string)
    ensures |r| == |name|
    ensures forall i :: 0 <= i < |name| ==> r[i] == (if Unsafe(name[i]) then '_' else name[i])
  {
    if |name| == 0 then ""
    else [if Unsafe(name[0]) then '_' else name[0]] + SanitizeForWin(name[1..])
  }

  /** A sanitized name holds no unsafe character. */
  lemma SanitizedIsSafe(name: string)
    ensures forall c :: c in SanitizeForWin(name) ==> !Unsafe(c)
  {
    var r := SanitizeForWin(name);
    forall c | c in r ensures !Unsafe(c) {
      var i :| 0 <= i < |r| && r[i] == c;
    }
  }

  /** Sanitizing twice is sanitizing once. */
  lemma SanitizeIdempotent(name: string)
    ensures SanitizeForWin(SanitizeForWin(name)) == SanitizeForWin(name)
  {
    var r := SanitizeForWin(name);
    assert forall i :: 0 <= i < |r| ==> !Unsafe(r[i]);
  }

  /** A name is left unchanged exactly when it holds no unsafe character. */
  lemma SanitizeFixedPoints(name: string)
    ensures SanitizeForWin(name) == name <==> forall i :: 0 <= i < |name| ==> !Unsafe(name[i])
  {
    if SanitizeForWin(name) == name {
      forall i | 0 <= i < |name| ensures !Unsafe(name[i]) {
        assert SanitizeForWin(name)[i] == name[i];
      }
    }
  }

  /** The extensions the copier picks up, compared in lower case. */
  const ImageExts: set<string> := {".jpg", ".jpeg", ".png", ".gif", ".bmp", ".webp", ".heic"}

  /** `isImage`: the lower-cased extension of the file name is one of `ImageExts`. */
  predicate IsImage(file: Path)
  {
    Lower(Ext(BaseName(file))) in ImageExts
  }

  lemma LowerLastDot(s: string)
    ensures LastIndexOf(Lower(s), '.') == LastIndexOf(s, '.')
  {
    if |s| > 0 {
      assert Lower(s)[..|s| - 1] == Lower(s[..|s| - 1]);
      LowerLastDot(s[..|s| - 1]);
    }
  }

  /** Lower-casing a name lower-cases its extension. */
  lemma ExtOfLower(name: string)
    ensures Ext(Lower(name)) == Lower(Ext(name))
  {
    LowerLastDot(name);
    var d := LastIndexOf(name, '.');
    if Lower(name) == ".." {
      assert LowerChar(name[0]) == Lower(name)[0] == '.';
      assert LowerChar(name[1]) == Lower(name)[1] == '.';
      assert name == "..";
    }
    if d > 0 && name != ".." {
      assert Lower(name)[d..] == Lower(name[d..]);
    }
  }

  /** `isImage` does not depend on the case of the file name. */
  lemma IsImageIgnoresCase(dir: Path, name: string)
    ensures IsImage(dir + [name]) <==> IsImage(dir + [Lower(name)])
  {
    SameImageExt(dir, name);
  }

  lemma SameImageExt(dir: Path, name: string)
    ensures Lower(Ext(BaseName(dir + [name]))) == Lower(Ext(BaseName(dir + [Lower(name)])))
  {
    assert BaseName(dir + [name]) == name;
    assert BaseName(dir + [Lower(name)]) == Lower(name);
    ExtOfLower(name);
    LowerTwice(Ext(name));
  }

  lemma LowerTwice(s: string)
    ensures Lower(Lower(s)) == Lower(s)
  {
  }

  /** `makeFlatNameFromRoot`: the path relative to the root, its segments
      joined with `_`, then sanitized. */
  function MakeFlatNameFromRoot(root: Path, file: Path): string
  {
    SanitizeForWin(Join(Relative(root, file), "_"))
  }

  /** Below the root, the flat name is the remaining segments joined by `_`:
      a single safe file name with no separator left in it. */
  lemma FlatNameBelowRoot(root: Path, rest: Path)
    ensures MakeFlatNameFromRoot(root, root + rest) == SanitizeForWin(Join(rest, "_"))
    ensures '/' !in MakeFlatNameFromRoot(root, root + rest)
    ensures '\\' !in MakeFlatNameFromRoot(root, root + rest)
  {
    RelativeToAncestor(root, rest);
    SanitizedIsSafe(Join(rest, "_"));
  }

  // -----------------------------------------------------------------------
  // uniquePath

  /** The `i`-th alternative name `<name>_<i><ext>`. */
  function Numbered(name: string, i: nat, ext: string): string
  {
    name + "_" + NatToString(i) + ext
  }

  lemma NumberedInjective(name: string, a: nat, b: nat, ext: string)
    requires Numbered(name, a, ext) == Numbered(name, b, ext)
    ensures a == b
  {
    var sa, sb := Numbered(name, a, ext), Numbered(name, b, ext);
    assert |NatToString(a)| == |NatToString(b)|;
    assert sa[|name| + 1..|sa| - |ext|] == NatToString(a);
    assert sb[|name| + 1..|sb| - |ext|] == NatToString(b);
    NatToStringInjective(a, b);
  }

  /** An alternative name is never the file name itself, not even up to case. */
  lemma NumberedIsNew(fileName: string, i: nat)
    ensures Numbered(Stem(fileName), i, Ext(fileName)) != fileName
    ensures Lower(Numbered(Stem(fileName), i, Ext(fileName))) != Lower(fileName)
  {
    StemExt(fileName);
    assert |Lower(Numbered(Stem(fileName), i, Ext(fileName)))| > |Lower(fileName)|;
  }

  /** Case-folding an alternative name folds its parts; the counter and the
      `_` have no case. */
  lemma LowerNumbered(name: string, i: nat, ext: string)
    ensures Lower(Numbered(name, i, ext)) == Numbered(Lower(name), i, Lower(ext))
  {
    LowerAppend(name + "_" + NatToString(i), ext);
    LowerAppend(name + "_", NatToString(i));
    LowerAppend(name, "_");
    LowerDigits(i);
    assert Lower("_") == "_";
  }

  /** Different counters give alternative names that differ even up to case. */
  lemma FoldedNumberedInjective(name: string, a: nat, b: nat, ext: string)
    requires Lower(Numbered(name, a, ext)) == Lower(Numbered(name, b, ext))
    ensures a == b
  {
    LowerNumbered(name, a, ext);
    LowerNumbered(name, b, ext);
    NumberedInjective(Lower(name), a, b, Lower(ext));
  }

  lemma {:induction false} SubsetSize<T>(a: set<T>, b: set<T>)
    requires a <= b
    ensures |a| <= |b|
  {
    if a != {} {
      var x :| x in a;
      SubsetSize(a - {x}, b - {x});
    }
  }

  /* The destination folder is on a case-insensitive file system: a name is
     taken when a file whose name folds to the same lower-case form is there.
     `taken` below is the set of those folded names. */

  /** The folded numbered alternatives from counter `i` on that are taken. */
  ghost function TakenFrom(taken: set<string>, name: string, ext: string, i: nat): set<string>
  {
    set t | t in taken && exists k: nat :: k >= i && t == Lower(Numbered(name, k, ext))
  }

  /** Moving past a taken counter leaves one taken alternative fewer. */
  lemma TakenFromShrinks(taken: set<string>, name: string, ext: string, i: nat)
    requires Lower(Numbered(name, i, ext)) in taken
    ensures TakenFrom(taken, name, ext, i + 1) < TakenFrom(taken, name, ext, i)
  {
    var t := Lower(Numbered(name, i, ext));
    assert t in TakenFrom(taken, name, ext, i);
    if t in TakenFrom(taken, name, ext, i + 1) {
      var k: nat :| k >= i + 1 && t == Lower(Numbered(name, k, ext));
      FoldedNumberedInjective(name, k, i, ext);
    }
  }

  /** The smallest counter from `i` on whose alternative name is free. */
  function FreeFrom(taken: set<string>, name: string, ext: string, i: nat): (k: nat)
    ensures k >= i && Lower(Numbered(name, k, ext)) !in taken
    ensures forall j :: i <= j < k ==> Lower(Numbered(name, j, ext)) in taken
    decreases TakenFrom(taken, name, ext, i)
  {
    if Lower(Numbered(name, i, ext)) !in taken then i
    else
      TakenFromShrinks(taken, name, ext, i);
      FreeFrom(taken, name, ext, i + 1)
  }

  /** The name `uniquePath` picks in a folder whose folded names are `taken`:
      the file name when it is free, else `<name>_<i><ext>` for the smallest
      free `i >= 1`. */
  function FirstFree(taken: set<string>, fileName: string): (r: string)
    ensures Lower(r) !in taken
    ensures Lower(fileName) !in taken ==> r == fileName
    ensures Lower(fileName) in taken ==>
      exists i :: i >= 1 && r == Numbered(Stem(fileName), i, Ext(fileName))
        && forall k :: 1 <= k < i ==> Lower(Numbered(Stem(fileName), k, Ext(fileName))) in taken
  {
    if Lower(fileName) !in taken then fileName
    else
      var i := FreeFrom(taken, Stem(fileName), Ext(fileName), 1);
      Numbered(Stem(fileName), i, Ext(fileName))
  }

  /** A free counter with every counter between `i` and it taken is the one
      `FreeFrom` finds. */
  lemma FreeFromIsLeast(taken: set<string>, name: string, ext: string, i: nat, k: nat)
    requires i <= k && Lower(Numbered(name, k, ext)) !in taken
    requires forall j :: i <= j < k ==> Lower(Numbered(name, j, ext)) in taken
    ensures FreeFrom(taken, name, ext, i) == k
  {
  }

  /** The next alternative differs, up to case, from the file name and from
      every earlier alternative. */
  lemma NextUntried(fileName: string, i: nat, tried: set<string>)
    requires forall t :: t in tried ==>
      t == Lower(fileName) || exists k :: 1 <= k < i && t == Lower(Numbered(Stem(fileName), k, Ext(fileName)))
    ensures Lower(Numbered(Stem(fileName), i, Ext(fileName))) !in tried
  {
    var name, ext := Stem(fileName), Ext(fileName);
    forall t | t in tried ensures t != Lower(Numbered(name, i, ext)) {
      if t == Lower(fileName) {
        NumberedIsNew(fileName, i);
      } else {
        var k :| 1 <= k < i && t == Lower(Numbered(name, k, ext));
        if t == Lower(Numbered(name, i, ext)) {
          FoldedNumberedInjective(name, k, i, ext);
        }
      }
    }
  }

  /** `uniquePath`: the file name when it is free, else `<name>_<i><ext>` for
      the smallest `i >= 1` that is free; never a name already taken, in any
      case. */
  method UniquePath(taken: set<string>, fileName: string) returns (r: string)
    ensures r == FirstFree(taken, fileName)
    ensures Lower(r) !in taken
    ensures Lower(fileName) !in taken ==> r == fileName
    ensures Lower(fileName) in taken ==>
      exists i :: i >= 1 && r == Numbered(Stem(fileName), i, Ext(fileName))
        && forall k :: 1 <= k < i ==> Lower(Numbered(Stem(fileName), k, Ext(fileName))) in taken
  {
    var name, ext := Stem(fileName), Ext(fileName);
    var candidate := fileName;
    var i: nat := 1;
    ghost var tried: set<string> := {};
    while Lower(candidate) in taken
      invariant i >= 1
      invariant i == 1 ==> candidate == fileName
      invariant i > 1 ==> candidate == Numbered(name, i - 1, ext) && Lower(fileName) in taken
      invariant forall k :: 1 <= k < i - 1 ==> Lower(Numbered(name, k, ext)) in taken
      invariant tried <= taken && |tried| == i - 1 && Lower(candidate) !in tried
      invariant forall t :: t in tried ==>
        t == Lower(fileName) || exists k :: 1 <= k < i - 1 && t == Lower(Numbered(name, k, ext))
      decreases |taken| - |tried|
    {
      tried := tried + {Lower(candidate)};
      SubsetSize(tried, taken);
      candidate := Numbered(name, i, ext);
      NextUntried(fileName, i, tried);
      i := i + 1;
    }
    r := candidate;
    if i > 1 {
      FreeFromIsLeast(taken, name, ext, 1, i - 1);
    }
  }

  // -----------------------------------------------------------------------
  // walkAndCopy

  /** The image files of a tree, in the order the walk meets them: the
      entries of a directory in `readdir` order, a sub-directory's files at
      the place of the sub-directory. */
  function ImageFiles<T>(dir: Path, entries: seq<Entry<T>>): seq<Path>
    decreases entries
  {
    if |entries| == 0 then [] else EntryFiles(dir, entries[0]) + ImageFiles(dir, entries[1..])
  }

  /** The image files the walk finds at one entry of `dir`: all of a
      sub-directory's, or the entry itself when it is a regular image file. */
  function EntryFiles<T>(dir: Path, e: Entry<T>): seq<Path>
    decreases e
  {
    match e
    case Dir(n, children) => ImageFiles(dir + [n], children)
    case File(n, regular, _) => if regular && IsImage(dir + [n]) then [dir + [n]] else []
  }

  lemma {:induction false} ImageFilesAppend<T>(dir: Path, a: seq<Entry<T>>, b: seq<Entry<T>>)
    ensures ImageFiles(dir, a + b) == ImageFiles(dir, a) + ImageFiles(dir, b)
  {
    if |a| == 0 {
      assert a + b == b;
    } else {
      assert (a + b)[0] == a[0];
      assert (a + b)[1..] == a[1..] + b;
      ImageFilesAppend(dir, a[1..], b);
      var h := EntryFiles(dir, a[0]);
      assert ImageFiles(dir, a + b) == h + (ImageFiles(dir, a[1..]) + ImageFiles(dir, b));
      assert ImageFiles(dir, a) == h + ImageFiles(dir, a[1..]);
    }
  }

  /** The walk's files after one more entry. */
  lemma ImageFilesSnoc<T>(dir: Path, entries: seq<Entry<T>>, i: nat)
    requires i < |entries|
    ensures ImageFiles(dir, entries[..i + 1]) == ImageFiles(dir, entries[..i]) + EntryFiles(dir, entries[i])
  {
    ImageFilesAppend(dir, entries[..i], [entries[i]]);
    assert entries[..i + 1] == entries[..i] + [entries[i]];
    assert [entries[i]][1..] == [];
  }

  /** One copy the walk made: the source file and the name it got in the destination. */
  datatype Copy = Copy(src: Path, target: string)

  function Sources(cs: seq<Copy>): (r: seq<Path>)
    ensures |r| == |cs| && forall j :: 0 <= j < |cs| ==> r[j] == cs[j].src
  {
    if |cs| == 0 then [] else [cs[0].src] + Sources(cs[1..])
  }

  /** The folded names of the copies' targets. */
  function Targets(cs: seq<Copy>): (r: set<string>)
    ensures forall j :: 0 <= j < |cs| ==> Lower(cs[j].target) in r
  {
    if |cs| == 0 then {} else {Lower(cs[0].target)} + Targets(cs[1..])
  }

  /** The name the walk gives a copy of `src` when the destination's folded
      names are `taken`: what `uniquePath` picks for the source's flat name. */
  function PickFor(root: Path): (set<string>, Path) -> string
  {
    (taken: set<string>, src: Path) => FirstFree(taken, MakeFlatNameFromRoot(root, src))
  }

  /** Copies made one after the other into a folder whose folded names were
      `taken`: each went to the name `pick` gives its source among the names
      present at that moment (those there before, and those of the earlier
      copies), and that name was free in any case. */
  ghost predicate FreshCopies(pick: (set<string>, Path) -> string, cs: seq<Copy>, taken: set<string>)
    decreases |cs|
  {
    |cs| == 0 ||
    (cs[0].target == pick(taken, cs[0].src) && Lower(cs[0].target) !in taken
     && FreshCopies(pick, cs[1..], taken + {Lower(cs[0].target)}))
  }

  lemma SourcesAppend(a: seq<Copy>, b: seq<Copy>)
    ensures Sources(a + b) == Sources(a) + Sources(b)
  {
  }

  lemma {:induction false} TargetsAppend(a: seq<Copy>, b: seq<Copy>)
    ensures Targets(a + b) == Targets(a) + Targets(b)
  {
    if |a| == 0 {
      assert a + b == b;
    } else {
      TargetsAppend(a[1..], b);
      assert (a + b)[0] == a[0];
      assert (a + b)[1..] == a[1..] + b;
    }
  }

  /** Fresh copies followed by copies fresh with respect to the grown folder are fresh. */
  lemma {:induction false} FreshCopiesAppend(pick: (set<string>, Path) -> string, a: seq<Copy>, b: seq<Copy>,
                                             taken: set<string>)
    requires FreshCopies(pick, a, taken)
    requires FreshCopies(pick, b, taken + Targets(a))
    ensures FreshCopies(pick, a + b, taken)
    decreases |a|
  {
    if |a| == 0 {
      assert a + b == b;
      assert taken + Targets(a) == taken;
    } else {
      var t := taken + {Lower(a[0].target)};
      assert t + Targets(a[1..]) == taken + Targets(a);
      FreshCopiesAppend(pick, a[1..], b, t);
      assert (a + b)[0] == a[0];
      assert (a + b)[1..] == a[1..] + b;
    }
  }

  /** Fresh copies never hit a name that was there and never share a name,
      not even up to case. */
  lemma {:induction false} FreshCopiesDistinct(pick: (set<string>, Path) -> string, cs: seq<Copy>, taken: set<string>)
    requires FreshCopies(pick, cs, taken)
    ensures forall j :: 0 <= j < |cs| ==> Lower(cs[j].target) !in taken
    ensures forall j, k :: 0 <= j < k < |cs| ==> Lower(cs[j].target) != Lower(cs[k].target)
    decreases |cs|
  {
    if |cs| > 0 {
      FreshCopiesDistinct(pick, cs[1..], taken + {Lower(cs[0].target)});
      forall j | 1 <= j < |cs| ensures Lower(cs[j].target) !in taken + {Lower(cs[0].target)} {
        assert cs[j] == cs[1..][j - 1];
      }
      forall j, k | 1 <= j < k < |cs| ensures Lower(cs[j].target) != Lower(cs[k].target) {
        assert cs[j] == cs[1..][j - 1] && cs[k] == cs[1..][k - 1];
      }
    }
  }

  /** What a stretch of the walk did to the destination: the copies list
      grew from `before` to `after` by copies of `files`, in order; each went
      to the name `uniquePath` picks for its source at that moment; and the
      destination's folded names grew from `taken0` to `taken1` by exactly
      the new names, folded. */
  ghost predicate Walked(root: Path, before: seq<Copy>, taken0: set<string>,
                         after: seq<Copy>, taken1: set<string>, files: seq<Path>)
  {
    && |before| <= |after| && after[..|before|] == before
    && Sources(after[|before|..]) == files
    && FreshCopies(PickFor(root), after[|before|..], taken0)
    && taken1 == taken0 + Targets(after[|before|..])
  }

  lemma WalkedNothing(root: Path, cs: seq<Copy>, taken: set<string>)
    ensures Walked(root, cs, taken, cs, taken, [])
  {
    assert cs[|cs|..] == [];
  }

  lemma PrefixThen<T>(c0: seq<T>, c1: seq<T>, c2: seq<T>)
    requires |c0| <= |c1| <= |c2| && c1[..|c0|] == c0 && c2[..|c1|] == c1
    ensures c2[..|c0|] == c0 && c2[|c0|..] == c1[|c0|..] + c2[|c1|..]
  {
    assert c2 == c1 + c2[|c1|..];
    assert c1 == c0 + c1[|c0|..];
    assert c2[..|c0|] == c1[..|c0|];
  }

  /** One copy to the name `uniquePath` picks is a stretch of the walk. */
  lemma CopiedOne(root: Path, cs: seq<Copy>, taken: set<string>, c: Copy)
    requires c.target == FirstFree(taken, MakeFlatNameFromRoot(root, c.src))
    ensures Walked(root, cs, taken, cs + [c], taken + {Lower(c.target)}, [c.src])
  {
    var after := cs + [c];
    assert after[|cs|..] == [c];
    assert after[..|cs|] == cs;
    assert [c][1..] == [];
  }

  /** Two stretches of the walk, one after the other, are one stretch. */
  lemma WalkedThen(root: Path, c0: seq<Copy>, t0: set<string>, c1: seq<Copy>, t1: set<string>,
                   c2: seq<Copy>, t2: set<string>, f1: seq<Path>, f2: seq<Path>)
    requires Walked(root, c0, t0, c1, t1, f1)
    requires Walked(root, c1, t1, c2, t2, f2)
    ensures Walked(root, c0, t0, c2, t2, f1 + f2)
  {
    var a, b := c1[|c0|..], c2[|c1|..];
    PrefixThen(c0, c1, c2);
    SourcesAppend(a, b);
    TargetsAppend(a, b);
    FreshCopiesAppend(PickFor(root), a, b, t0);
  }

  class Copier {
    /** Names are made relative to this folder. */
    const root: Path
    /** The names present in the destination folder, folded to lower case. */
    var taken: set<string>
    /** The copies made so far, in order. */
    var copies: seq<Copy>

    /** A copier for a destination holding the files named `existing`. */
    constructor (root: Path, existing: set<string>)
      ensures this.root == root && taken == (set n | n in existing :: Lower(n)) && copies == []
    {
      this.root := root;
      taken := set n | n in existing :: Lower(n);
      copies := [];
    }

    /** `walkAndCopy`: copies every regular image file below `dir`, in walk
        order, each to a destination name that was free, so no copy
        overwrites a file that was there or another copy. */
    method WalkAndCopy<T>(dir: Path, entries: seq<Entry<T>>)
      modifies this
      ensures Walked(root, old(copies), old(taken), copies, taken, ImageFiles(dir, entries))
      decreases entries
    {
      WalkedNothing(root, copies, taken);
      var i := 0;
      while i < |entries|
        decreases |entries| - i
        invariant 0 <= i <= |entries|
        invariant Walked(root, old(copies), old(taken), copies, taken, ImageFiles(dir, entries[..i]))
      {
        ghost var c1, t1 := copies, taken;
        Visit(dir, entries[i]);
        WalkedThen(root, old(copies), old(taken), c1, t1, copies, taken,
                   ImageFiles(dir, entries[..i]), EntryFiles(dir, entries[i]));
        ImageFilesSnoc(dir, entries, i);
        i := i + 1;
      }
      assert entries[..|entries|] == entries;
    }

    /** One entry of the walk: a directory is walked, a regular image file is
        copied, anything else is passed over. */
    method Visit<T>(dir: Path, e: Entry<T>)
      modifies this
      ensures Walked(root, old(copies), old(taken), copies, taken, EntryFiles(dir, e))
      decreases e
    {
      match e {
        case Dir(n, children) =>
          WalkAndCopy(dir + [n], children);
        case File(n, regular, _) =>
          if regular && IsImage(dir + [n]) {
            var flat := MakeFlatNameFromRoot(root, dir + [n]);
            var target := UniquePath(taken, flat);
            var c := Copy(dir + [n], target);
            CopiedOne(root, copies, taken, c);
            copies := copies + [c];
            taken := taken + {Lower(target)};
          } else {
            WalkedNothing(root, copies, taken);
          }
      }
    }
  }

  /** Copies made by a walk never overwrite a file that was in the
      destination, and never overwrite each other: their names differ from
      those, and from each other, even up to case. */
  lemma WalkNeverOverwrites(root: Path, before: seq<Copy>, taken0: set<string>,
                            after: seq<Copy>, taken1: set<string>, files: seq<Path>)
    requires Walked(root, before, taken0, after, taken1, files)
    ensures |after| == |before| + |files|
    ensures forall j :: |before| <= j < |after| ==> Lower(after[j].target) !in taken0 && after[j].src == files[j - |before|]
    ensures forall j, k :: |before| <= j < k < |after| ==> Lower(after[j].target) != Lower(after[k].target)
    ensures forall j, k :: |before| <= j < k < |after| ==> after[j].target != after[k].target
  {
    var added := after[|before|..];
    FreshCopiesDistinct(PickFor(root), added, taken0);
    forall j | |before| <= j < |after| ensures Lower(after[j].target) !in taken0 && after[j].src == files[j - |before|] {
      assert after[j] == added[j - |before|];
    }
    forall j, k | |before| <= j < k < |after| ensures Lower(after[j].target) != Lower(after[k].target) {
      assert after[j] == added[j - |before|] && after[k] == added[k - |before|];
    }
  }
}
