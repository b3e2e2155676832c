/** Finding Real-ESRGAN's model files (`findModelsDir`) and listing the
    models that are there (`listAvailableModels`), over the folders the
    script can read. */
module UpscaleModels {
  import opened Wrappers
  import opened Strings
  import opened Paths
  import opened Sorting

  /** The readable folders and their entries in `readdir` order; reading a
      folder that is not a key throws. */
  type Listing = map<Path, seq<Entry<()>>>

  /** `fs.existsSync(p)`: `p` names an entry of a readable folder. */
  predicate Exists(fs: Listing, p: Path)
  {
    |p| >= 1 && p[..|p| - 1] in fs && HasEntry(fs[p[..|p| - 1]], p[|p| - 1])
  }

  predicate HasEntry(entries: seq<Entry<()>>, name: string)
  {
    |entries| > 0 && (entries[0].name == name || HasEntry(entries[1..], name))
  }

  /** The folder holds both `<model>.param` and `<model>.bin`. */
  predicate HasModel(fs: Listing, dir: Path, model: string)
  {
    Exists(fs, dir + [model + ".param"]) && Exists(fs, dir + [model + ".bin"])
  }

  /** `REALESRGAN_MODELS || REAL_ESRGAN_MODELS`: the first variable that is
      set to something other than the empty string. */
  function EnvModelsDir(first: Option<Path>, second: Option<Path>): (r: Option<Path>)
    ensures r.Some? ==> r.value != [] && (r == first || r == second)
    ensures first.Some? && first.value != [] ==> r == first
  {
    if first.Some? && first.value != [] then first
    else if second.Some? && second.value != [] then second
    else None
  }

  /** The sub-folders of `base` among `entries`, in order. */
  function SubDirs(base: Path, entries: seq<Entry<()>>): (r: seq<Path>)
    ensures |r| <= |entries|
  {
    if |entries| == 0 then []
    else (if entries[0].Dir? then [base + [entries[0].name]] else []) + SubDirs(base, entries[1..])
  }

  /** The folders tried before `base` itself is read: the environment's,
      then `<base>/models`. */
  function EarlyCandidates(env: Option<Path>, base: Path): seq<Path>
  {
    (if env.Some? then [env.value] else []) + [base + ["models"]]
  }

  /** Every folder the search may try, in order. */
  function Candidates(fs: Listing, env: Option<Path>, base: Path): seq<Path>
  {
    EarlyCandidates(env, base) + (if base in fs then SubDirs(base, fs[base]) else [])
  }

  /** `cands[i]` is the first candidate that holds the model. */
  predicate FirstWithModel(fs: Listing, cands: seq<Path>, model: string, i: int)
  {
    0 <= i < |cands| && HasModel(fs, cands[i], model)
    && forall j :: 0 <= j < i ==> !HasModel(fs, cands[j], model)
  }

  /** `findModelsDir`: the first candidate that holds the model, or nothing
      when none does. Reading `base` can throw (the folder it could not
      read is the error), but only once the early candidates have failed.
      `first` and `second` are `REALESRGAN_MODELS` and `REAL_ESRGAN_MODELS`. */
  method FindModelsDir(fs: Listing, first: Option<Path>, second: Option<Path>, base: Path, model: string)
    returns (r: Result<Option<Path>, Path>)
    ensures r.Ok? && r.value.Some? ==>
      exists i :: FirstWithModel(fs, Candidates(fs, EnvModelsDir(first, second), base), model, i)
                  && Candidates(fs, EnvModelsDir(first, second), base)[i] == r.value.value
    ensures r.Ok? && r.value.None? ==>
      base in fs && forall j :: 0 <= j < |Candidates(fs, EnvModelsDir(first, second), base)| ==>
                    !HasModel(fs, Candidates(fs, EnvModelsDir(first, second), base)[j], model)
    ensures r.Err? ==>
      r.error == base && base !in fs
      && forall j :: 0 <= j < |Candidates(fs, EnvModelsDir(first, second), base)| ==>
                    !HasModel(fs, Candidates(fs, EnvModelsDir(first, second), base)[j], model)
  {
    var env := EnvModelsDir(first, second);
    var cands := Candidates(fs, env, base);
    var early := EarlyCandidates(env, base);
    assert cands[..|early|] == early;
    if env.Some? && HasModel(fs, env.value, model) {
      assert FirstWithModel(fs, cands, model, 0);
      return Ok(Some(env.value));
    }
    var direct := base + ["models"];
    assert early[|early| - 1] == direct;
    if HasModel(fs, direct, model) {
      assert FirstWithModel(fs, cands, model, |early| - 1);
      return Ok(Some(direct));
    }
    assert forall j :: 0 <= j < |early| ==> !HasModel(fs, early[j], model);
    if base !in fs {
      assert cands == early;
      return Err(base);
    }
    assert cands == early + SubDirs(base, fs[base]);
    var found := ScanSubDirs(fs, base, model, early);
    return Ok(found);
  }

  /** The loop over the entries of `base`: the first sub-folder holding the
      model, given that none of the folders tried before (`early`) does. */
  method ScanSubDirs(fs: Listing, base: Path, model: string, early: seq<Path>) returns (r: Option<Path>)
    requires base in fs
    requires forall j :: 0 <= j < |early| ==> !HasModel(fs, early[j], model)
    ensures r.Some? ==>
      exists i :: FirstWithModel(fs, early + SubDirs(base, fs[base]), model, i)
                  && (early + SubDirs(base, fs[base]))[i] == r.value
    ensures r.None? ==>
      forall j :: 0 <= j < |early + SubDirs(base, fs[base])| ==> !HasModel(fs, (early + SubDirs(base, fs[base]))[j], model)
  {
    var entries := fs[base];
    ghost var cands := early + SubDirs(base, entries);
    var i := 0;
    ghost var seen := early;
    while i < |entries|
      invariant 0 <= i <= |entries|
      invariant seen == early + SubDirs(base, entries[..i])
      invariant forall j :: 0 <= j < |seen| ==> !HasModel(fs, seen[j], model)
    {
      SubDirsSnoc(base, entries, i);
      if entries[i].Dir? {
        var cand := base + [entries[i].name];
        if HasModel(fs, cand, model) {
          FoundAt(base, entries, early, i);
          forall j | 0 <= j < |seen| ensures !HasModel(fs, cands[j], model) {
            assert cands[j] == seen[j];
          }
          assert FirstWithModel(fs, cands, model, |seen|);
          return Some(cand);
        }
      }
      seen := seen + (if entries[i].Dir? then [base + [entries[i].name]] else []);
      i := i + 1;
    }
    assert entries[..i] == entries;
    return None;
  }

  /** The `i`-th entry, a folder, is the candidate that comes right after
      the ones tried before it. */
  lemma FoundAt(base: Path, e: seq<Entry<()>>, early: seq<Path>, i: nat)
    requires i < |e| && e[i].Dir?
    ensures var cands := early + SubDirs(base, e);
            var seen := early + SubDirs(base, e[..i]);
            |seen| < |cands| && cands[|seen|] == base + [e[i].name] && cands[..|seen|] == seen
  {
    var seen := early + SubDirs(base, e[..i]);
    var cand := base + [e[i].name];
    SubDirsAppend(base, e[..i + 1], e[i + 1..]);
    assert e[..i + 1] + e[i + 1..] == e;
    SubDirsSnoc(base, e, i);
    var cands := early + SubDirs(base, e);
    assert cands == seen + [cand] + SubDirs(base, e[i + 1..]);
  }

  lemma {:induction false} SubDirsAppend(base: Path, a: seq<Entry<()>>, b: seq<Entry<()>>)
    ensures SubDirs(base, a + b) == SubDirs(base, a) + SubDirs(base, b)
  {
    if |a| == 0 {
      assert a + b == b;
    } else {
      assert (a + b)[0] == a[0];
      assert (a + b)[1..] == a[1..] + b;
      SubDirsAppend(base, a[1..], b);
      var h := if a[0].Dir? then [base + [a[0].name]] else [];
      assert SubDirs(base, a + b) == h + (SubDirs(base, a[1..]) + SubDirs(base, b));
      assert SubDirs(base, a) == h + SubDirs(base, a[1..]);
    }
  }

  lemma SubDirsSnoc(base: Path, entries: seq<Entry<()>>, i: nat)
    requires i < |entries|
    ensures SubDirs(base, entries[..i + 1])
         == SubDirs(base, entries[..i]) + (if entries[i].Dir? then [base + [entries[i].name]] else [])
  {
    SubDirsAppend(base, entries[..i], [entries[i]]);
    assert entries[..i + 1] == entries[..i] + [entries[i]];
    assert [entries[i]][1..] == [];
  }

  // -----------------------------------------------------------------------
  // listAvailableModels

  const ParamExt := ".param"

  predicate EndsWith(s: string, suffix: string)
  {
    |suffix| <= |s| && s[|s| - |suffix|..] == suffix
  }

  /** `path.basename(f, ".param")`: the name without the suffix; a name
      that is only the suffix becomes the empty name. */
  function StripParam(f: string): (r: string)
    requires EndsWith(f, ParamExt)
    ensures r + ParamExt == f
    ensures f != ParamExt ==> |r| >= 1
    ensures f == ParamExt ==> r == ""
  {
    f[..|f| - |ParamExt|]
  }

  /** The model names a folder's entries offer. */
  function StemsIn(entries: seq<Entry<()>>): set<string>
  {
    if |entries| == 0 then {}
    else (if EndsWith(entries[0].name, ParamExt) then {StripParam(entries[0].name)} else {})
         + StemsIn(entries[1..])
  }

  /** The model names the readable folders among `dirs` offer. */
  function StemsOf(fs: Listing, dirs: seq<Path>): set<string>
  {
    if |dirs| == 0 then {}
    else (if dirs[0] in fs then StemsIn(fs[dirs[0]]) else {}) + StemsOf(fs, dirs[1..])
  }

  /** The folders `listAvailableModels` reads: `<base>/models`, then every
      sub-folder of `base` when `base` can be read. */
  function ModelFolders(fs: Listing, base: Path): seq<Path>
  {
    [base + ["models"]] + (if base in fs then SubDirs(base, fs[base]) else [])
  }

  lemma {:induction false} StemsInSnoc(entries: seq<Entry<()>>, i: nat)
    requires i < |entries|
    ensures StemsIn(entries[..i + 1])
         == StemsIn(entries[..i]) + (if EndsWith(entries[i].name, ParamExt) then {StripParam(entries[i].name)} else {})
    decreases i
  {
    if i > 0 {
      assert entries[..i + 1][1..] == entries[1..][..i];
      assert entries[..i][1..] == entries[1..][..i - 1];
      StemsInSnoc(entries[1..], i - 1);
    } else {
      assert entries[..1][1..] == [];
    }
  }

  lemma {:induction false} StemsOfSnoc(fs: Listing, dirs: seq<Path>, k: nat)
    requires k < |dirs|
    ensures StemsOf(fs, dirs[..k + 1]) == StemsOf(fs, dirs[..k]) + (if dirs[k] in fs then StemsIn(fs[dirs[k]]) else {})
    decreases k
  {
    if k > 0 {
      assert dirs[..k + 1][1..] == dirs[1..][..k];
      assert dirs[..k][1..] == dirs[1..][..k - 1];
      StemsOfSnoc(fs, dirs[1..], k - 1);
    } else {
      assert dirs[..1][1..] == [];
    }
  }

  /** The code-unit order of `sort()` is a total preorder. */
  lemma BelowIsTotalPreorder()
    ensures TotalPreorder((a: string, b: string) => Below(a, b))
  {
    var le := (a: string, b: string) => Below(a, b);
    forall a, b ensures TotalAt(le, a, b) {
      BelowTotal(a, b);
    }
    forall a, b, c ensures TransitiveAt(le, a, b, c) {
      if Below(a, b) && Below(b, c) {
        BelowTransitive(a, b, c);
      }
    }
  }

  predicate Distinct(s: seq<string>)
  {
    forall i, j :: 0 <= i < j < |s| ==> s[i] != s[j]
  }

  /** `listAvailableModels`: every model name offered by the model folders,
      once each, in ascending code-unit order. */
  method ListAvailableModels(fs: Listing, base: Path) returns (names: seq<string>)
    ensures forall i, j :: 0 <= i < j < |names| ==> Below(names[i], names[j]) && names[i] != names[j]
    ensures forall n :: n in names <==> n in StemsOf(fs, ModelFolders(fs, base))
  {
    var dirs := ModelFolders(fs, base);
    var found: seq<string> := [];
    var k := 0;
    while k < |dirs|
      invariant 0 <= k <= |dirs|
      invariant Distinct(found)
      invariant forall n :: n in found <==> n in StemsOf(fs, dirs[..k])
    {
      StemsOfSnoc(fs, dirs, k);
      if dirs[k] in fs {
        found := AddStems(found, fs[dirs[k]]);
      }
      k := k + 1;
    }
    assert dirs[..k] == dirs;
    BelowIsTotalPreorder();
    names := SortBy(found, (a: string, b: string) => Below(a, b));
    forall i, j | 0 <= i < j < |names| ensures names[i] != names[j] {
      DistinctSorted(found, names, i, j);
    }
    forall n ensures n in names <==> n in found {
      assert n in names <==> n in multiset(names);
      assert n in found <==> n in multiset(found);
    }
  }

  /** One folder of `listAvailableModels`: each `.param` name not yet found
      is added, in the folder's order. */
  method AddStems(found: seq<string>, files: seq<Entry<()>>) returns (r: seq<string>)
    requires Distinct(found)
    ensures Distinct(r)
    ensures forall n :: n in r <==> n in found || n in StemsIn(files)
  {
    r := found;
    var i := 0;
    while i < |files|
      invariant 0 <= i <= |files|
      invariant Distinct(r)
      invariant forall n :: n in r <==> n in found || n in StemsIn(files[..i])
    {
      StemsInSnoc(files, i);
      var f := files[i].name;
      if EndsWith(f, ParamExt) {
        var name := StripParam(f);
        if name !in r {
          r := r + [name];
        }
      }
      i := i + 1;
    }
    assert files[..i] == files;
  }

  /** A permutation of a list without repeats has no repeats. */
  lemma DistinctSorted(found: seq<string>, names: seq<string>, i: int, j: int)
    requires Distinct(found) && multiset(names) == multiset(found)
    requires 0 <= i < j < |names|
    ensures names[i] != names[j]
  {
    if names[i] == names[j] {
      var x := names[i];
      assert multiset(names)[x] >= 2 by {
        assert names == names[..i] + [x] + names[i + 1..j] + [x] + names[j + 1..];
      }
      DistinctOnce(found, x);
    }
  }

  lemma {:induction false} DistinctOnce(s: seq<string>, x: string)
    requires Distinct(s)
    ensures multiset(s)[x] <= 1
  {
    if |s| > 0 {
      assert s == [s[0]] + s[1..];
      assert Distinct(s[1..]) by {
        forall i, j | 0 <= i < j < |s[1..]| ensures s[1..][i] != s[1..][j] {
          assert s[1..][i] == s[i + 1] && s[1..][j] == s[j + 1];
        }
      }
      DistinctOnce(s[1..], x);
      if s[0] == x {
        assert x !in s[1..] by {
          forall k | 0 <= k < |s[1..]| ensures s[1..][k] != x {
            assert s[1..][k] == s[k + 1];
          }
        }
      }
    }
  }
}
