/** What the two index builders (`scripts/pipeline/stills.mjs` and the older
    `scripts/build-images.mjs`) share: the ULID test and the file stem of an
    input, the "needs rebuilding" decision and the four size tiers of
    outputs it applies to, the `path.posix.join` that turns an output path
    into a URL, the `createdAt`/`id` preservation rules, and the
    "sort key, then id" order of the index. */
module ImageIndex {
  import opened Wrappers
  import opened Strings
  import opened Paths
  import opened JsonValues
  import opened Sorting

  // ---------------------------------------------------------------------
  // identifiers

  /** One character of `[0-9A-HJKMNP-TV-Z]`: Crockford's base 32. */
  predicate CrockfordChar(c: char)
  {
    ('0' <= c <= '9') || ('A' <= c <= 'H') || c == 'J' || c == 'K' || c == 'M' || c == 'N'
    || ('P' <= c <= 'T') || ('V' <= c <= 'Z')
  }

  /** `isUlidLike`: exactly 26 characters of Crockford's base 32. */
  predicate IsUlidLike(s: string)
  {
    |s| == 26 && forall i :: 0 <= i < |s| ==> CrockfordChar(s[i])
  }

  /** The alphabet written out: digits, then the capitals without I, L, O, U. */
  const Crockford: string := "0123456789ABCDEFGHJKMNPQRSTVWXYZ"

  /** The ranges of the regular expression are exactly the 32 symbols of
      the alphabet. */
  lemma CrockfordRanges(c: char)
    ensures CrockfordChar(c) <==> c in Crockford
  {
    if CrockfordChar(c) {
      CrockfordHas(c);
    } else {
      CrockfordLacks(c);
    }
  }

  lemma CrockfordHas(c: char)
    requires CrockfordChar(c)
    ensures c in Crockford
  {
    if '0' <= c <= '9' {
      assert Crockford[c as int - '0' as int] == c;
    } else {
      CrockfordHasLetter(c);
    }
  }

  lemma CrockfordHasLetter(c: char)
    requires CrockfordChar(c) && !('0' <= c <= '9')
    ensures c in Crockford
  {
    if 'A' <= c <= 'H' {
      assert Crockford[c as int - 'A' as int + 10] == c;
    } else if c == 'J' || c == 'K' {
      assert Crockford[c as int - 'J' as int + 18] == c;
    } else if c == 'M' || c == 'N' {
      assert Crockford[c as int - 'M' as int + 20] == c;
    } else if 'P' <= c <= 'T' {
      assert Crockford[c as int - 'P' as int + 22] == c;
    } else {
      assert Crockford[c as int - 'V' as int + 27] == c;
    }
  }

  lemma CrockfordLacks(c: char)
    requires !CrockfordChar(c)
    ensures c !in Crockford
  {
    forall i | 0 <= i < |Crockford| ensures Crockford[i] != c {
    }
  }

  /** `\s` of a JavaScript regular expression. */
  predicate IsSpace(c: char)
  {
    c == ' ' || ('\t' <= c <= '\r') || c == '\U{00A0}' || c == '\U{1680}'
    || ('\U{2000}' <= c <= '\U{200A}') || c == '\U{2028}' || c == '\U{2029}'
    || c == '\U{202F}' || c == '\U{205F}' || c == '\U{3000}' || c == '\U{FEFF}'
  }

  /** `s` without its leading whitespace. */
  function DropSpaces(s: string): (r: string)
    ensures |r| <= |s| && r == s[|s| - |r|..]
    ensures |r| > 0 ==> !IsSpace(r[0])
  {
    if |s| > 0 && IsSpace(s[0]) then DropSpaces(s[1..]) else s
  }

  /** `s.replace(/\s+/g, '_')`: every run of whitespace becomes one `_`. */
  function Squash(s: string): (r: string)
    ensures |r| <= |s|
    ensures forall i :: 0 <= i < |r| ==> !IsSpace(r[i])
    decreases |s|
  {
    if |s| == 0 then ""
    else if IsSpace(s[0]) then "_" + Squash(DropSpaces(s[1..]))
    else [s[0]] + Squash(s[1..])
  }

  /** Text without whitespace comes out of `Squash` unchanged, so squashing
      twice is squashing once. */
  lemma {:induction false} SquashPlain(s: string)
    requires forall i :: 0 <= i < |s| ==> !IsSpace(s[i])
    ensures Squash(s) == s
  {
    if |s| > 0 {
      SquashPlain(s[1..]);
      assert s == [s[0]] + s[1..];
    }
  }

  /** `fileStem`: the base name without its extension, whitespace runs
      turned into `_`. */
  function FileStem(rel: string): string
  {
    Squash(Stem(BaseName(Split(rel, '/'))))
  }

  // ---------------------------------------------------------------------
  // rebuild decision

  /** `needBuild(src, dst)`. `dstExists` is `existsSync(dst)`; the two stat
      results are `None` when `stat` throws. */
  function NeedBuild(dstExists: bool, rebuildIfNewer: bool, srcTime: Option<int>, dstTime: Option<int>): (r: bool)
    ensures !dstExists ==> r
    ensures dstExists && !rebuildIfNewer ==> !r
    ensures dstExists && rebuildIfNewer && srcTime.Some? && dstTime.Some?
            ==> (r <==> srcTime.value > dstTime.value + 1)
    ensures dstExists && rebuildIfNewer && (srcTime.None? || dstTime.None?) ==> r
  {
    if !dstExists then true
    else if !rebuildIfNewer then false
    else if srcTime.None? || dstTime.None? then true
    else srcTime.value > dstTime.value + 1
  }

  /** The output size tiers, in the order they are built. */
  const Tiers: seq<string> := ["s", "s2x", "l", "l2x"]

  /** Modification times of the files under one folder, by relative path. */
  type Disk = map<Path, int>

  /** One output: where it goes and in which format. */
  datatype Job = Job(dst: Path, fmt: string)

  /** `${id}.${fmt}` in folder `dir`, for every format. */
  function TierJobs(dir: Path, id: string, formats: seq<string>): (r: seq<Job>)
    ensures |r| == |formats|
    ensures forall i :: 0 <= i < |r| ==> r[i] == Job(dir + [id + "." + formats[i]], formats[i])
  {
    if |formats| == 0 then []
    else [Job(dir + [id + "." + formats[0]], formats[0])] + TierJobs(dir, id, formats[1..])
  }

  /** The four `buildOne` calls: every tier, every format. */
  function Jobs(out: Path, id: string, formats: seq<string>): (r: seq<Job>)
    ensures |r| == 4 * |formats|
  {
    TierJobs(out + ["s"], id, formats) + TierJobs(out + ["s2x"], id, formats)
    + TierJobs(out + ["l"], id, formats) + TierJobs(out + ["l2x"], id, formats)
  }

  /** The output disk and the two counters of a run. */
  datatype Built = Built(disk: Disk, made: nat, skipped: nat)

  /** A thrown error, and the files as they were when it was thrown. */
  datatype Failure = Failure(disk: Disk, message: string)

  /** The encoders the scripts know. */
  predicate Supported(fmt: string)
  {
    fmt == "avif" || fmt == "webp"
  }

  /** The rebuild decision for one job against the disk as it is now. */
  predicate Needed(b: Built, srcTime: int, rebuildIfNewer: bool, j: Job)
  {
    NeedBuild(j.dst in b.disk, rebuildIfNewer, Some(srcTime), if j.dst in b.disk then Some(b.disk[j.dst]) else None)
  }

  /** `buildOne` over a list of jobs: an output that is needed is written
      (its time becomes `now`) and counted as made, the others as skipped;
      a needed output in an unknown format throws. */
  function BuildJobs(b: Built, srcTime: int, rebuildIfNewer: bool, now: int, jobs: seq<Job>): Result<Built, Failure>
    decreases |jobs|
  {
    if |jobs| == 0 then Ok(b)
    else
      var j := jobs[0];
      if Needed(b, srcTime, rebuildIfNewer, j) then
        if !Supported(j.fmt) then Err(Failure(b.disk, "Unsupported format: " + j.fmt))
        else BuildJobs(Built(b.disk[j.dst := now], b.made + 1, b.skipped), srcTime, rebuildIfNewer, now, jobs[1..])
      else BuildJobs(b.(skipped := b.skipped + 1), srcTime, rebuildIfNewer, now, jobs[1..])
  }

  /** The `for (const fmt of FORMATS)` loops of `buildOne`. */
  method BuildOutputs(b: Built, srcTime: int, rebuildIfNewer: bool, now: int, jobs: seq<Job>)
    returns (r: Result<Built, Failure>)
    ensures r == BuildJobs(b, srcTime, rebuildIfNewer, now, jobs)
  {
    var cur := b;
    var i := 0;
    while i < |jobs|
      invariant 0 <= i <= |jobs|
      invariant BuildJobs(b, srcTime, rebuildIfNewer, now, jobs) == BuildJobs(cur, srcTime, rebuildIfNewer, now, jobs[i..])
    {
      var j := jobs[i];
      assert jobs[i..][1..] == jobs[i + 1..];
      var dstTime := if j.dst in cur.disk then Some(cur.disk[j.dst]) else None;
      if NeedBuild(j.dst in cur.disk, rebuildIfNewer, Some(srcTime), dstTime) {
        if !Supported(j.fmt) {
          return Err(Failure(cur.disk, "Unsupported format: " + j.fmt));
        }
        cur := Built(cur.disk[j.dst := now], cur.made + 1, cur.skipped);
      } else {
        cur := cur.(skipped := cur.skipped + 1);
      }
      i := i + 1;
    }
    return Ok(cur);
  }

  /** Every job is counted once, as made or as skipped; afterwards every
      output exists, and no other file was touched. */
  lemma {:induction false} BuildAccounts(b: Built, srcTime: int, rebuildIfNewer: bool, now: int, jobs: seq<Job>)
    requires BuildJobs(b, srcTime, rebuildIfNewer, now, jobs).Ok?
    ensures var a := BuildJobs(b, srcTime, rebuildIfNewer, now, jobs).value;
            && a.made + a.skipped == b.made + b.skipped + |jobs|
            && a.made >= b.made
            && (forall i :: 0 <= i < |jobs| ==> jobs[i].dst in a.disk)
            && (forall p :: p in a.disk <==> p in b.disk || exists i :: 0 <= i < |jobs| && jobs[i].dst == p)
            && (forall p :: p in b.disk && (forall i :: 0 <= i < |jobs| ==> jobs[i].dst != p) ==> a.disk[p] == b.disk[p])
    decreases |jobs|
  {
    if |jobs| > 0 {
      var j := jobs[0];
      var next := if Needed(b, srcTime, rebuildIfNewer, j) then Built(b.disk[j.dst := now], b.made + 1, b.skipped)
                  else b.(skipped := b.skipped + 1);
      BuildAccounts(next, srcTime, rebuildIfNewer, now, jobs[1..]);
      forall i | 0 < i < |jobs| ensures jobs[i] == jobs[1..][i - 1] { }
    }
  }

  /** Every output of `jobs` is on disk and not older than its source, or
      rebuilding is off. */
  predicate Current(disk: Disk, srcTime: int, rebuildIfNewer: bool, jobs: seq<Job>)
  {
    forall i :: 0 <= i < |jobs| ==> jobs[i].dst in disk && (!rebuildIfNewer || srcTime <= disk[jobs[i].dst] + 1)
  }

  /** When every output is there and not older than its source (or
      rebuilding is off), a run writes nothing and skips every job. */
  lemma {:induction false} BuildUpToDate(b: Built, srcTime: int, rebuildIfNewer: bool, now: int, jobs: seq<Job>)
    requires Current(b.disk, srcTime, rebuildIfNewer, jobs)
    ensures BuildJobs(b, srcTime, rebuildIfNewer, now, jobs) == Ok(b.(skipped := b.skipped + |jobs|))
    decreases |jobs|
  {
    if |jobs| > 0 {
      BuildUpToDate(b.(skipped := b.skipped + 1), srcTime, rebuildIfNewer, now, jobs[1..]);
    }
  }

  /** Building only writes: every file stays, and each file afterwards is
      either as it was or written at `now`. */
  lemma {:induction false} BuildStamps(b: Built, srcTime: int, rebuildIfNewer: bool, now: int, jobs: seq<Job>)
    requires BuildJobs(b, srcTime, rebuildIfNewer, now, jobs).Ok?
    ensures Stamped(b.disk, BuildJobs(b, srcTime, rebuildIfNewer, now, jobs).value.disk, now)
    decreases |jobs|
  {
    if |jobs| > 0 {
      var j := jobs[0];
      var next := if Needed(b, srcTime, rebuildIfNewer, j) then Built(b.disk[j.dst := now], b.made + 1, b.skipped)
                  else b.(skipped := b.skipped + 1);
      BuildStamps(next, srcTime, rebuildIfNewer, now, jobs[1..]);
      StampedThen(b.disk, next.disk, BuildJobs(b, srcTime, rebuildIfNewer, now, jobs).value.disk, now);
    }
  }

  /** `d2` holds every file of `d1`, each either as it was or written at `now`. */
  predicate Stamped(d1: Disk, d2: Disk, now: int)
  {
    (forall p :: p in d1 ==> p in d2) && (forall p :: p in d2 ==> d2[p] == now || (p in d1 && d2[p] == d1[p]))
  }

  lemma StampedThen(d1: Disk, d2: Disk, d3: Disk, now: int)
    requires Stamped(d1, d2, now) && Stamped(d2, d3, now)
    ensures Stamped(d1, d3, now)
  {
  }

  /** Outputs that were current stay current when files are only written
      at a time their source is not newer than. */
  lemma StaysCurrent(d1: Disk, d2: Disk, srcTime: int, rebuildIfNewer: bool, now: int, jobs: seq<Job>)
    requires Current(d1, srcTime, rebuildIfNewer, jobs) && Stamped(d1, d2, now)
    requires !rebuildIfNewer || srcTime <= now + 1
    ensures Current(d2, srcTime, rebuildIfNewer, jobs)
  {
  }

  /** After building, every output is current, unless the source is newer
      than the build itself. */
  lemma {:induction false} BuildMakesCurrent(b: Built, srcTime: int, rebuildIfNewer: bool, now: int, jobs: seq<Job>)
    requires BuildJobs(b, srcTime, rebuildIfNewer, now, jobs).Ok?
    requires !rebuildIfNewer || srcTime <= now + 1
    ensures Current(BuildJobs(b, srcTime, rebuildIfNewer, now, jobs).value.disk, srcTime, rebuildIfNewer, jobs)
    decreases |jobs|
  {
    if |jobs| > 0 {
      var j := jobs[0];
      var next := if Needed(b, srcTime, rebuildIfNewer, j) then Built(b.disk[j.dst := now], b.made + 1, b.skipped)
                  else b.(skipped := b.skipped + 1);
      var a := BuildJobs(b, srcTime, rebuildIfNewer, now, jobs).value;
      assert a == BuildJobs(next, srcTime, rebuildIfNewer, now, jobs[1..]).value;
      BuildMakesCurrent(next, srcTime, rebuildIfNewer, now, jobs[1..]);
      BuildStamps(next, srcTime, rebuildIfNewer, now, jobs[1..]);
      assert Current(next.disk, srcTime, rebuildIfNewer, [j]);
      StaysCurrent(next.disk, a.disk, srcTime, rebuildIfNewer, now, [j]);
      assert [j] + jobs[1..] == jobs;
      CurrentAppend(a.disk, srcTime, rebuildIfNewer, [j], jobs[1..]);
    }
  }

  lemma CurrentAppend(disk: Disk, srcTime: int, rebuildIfNewer: bool, a: seq<Job>, b: seq<Job>)
    requires Current(disk, srcTime, rebuildIfNewer, a) && Current(disk, srcTime, rebuildIfNewer, b)
    ensures Current(disk, srcTime, rebuildIfNewer, a + b)
  {
    forall i | 0 <= i < |a + b| ensures (a + b)[i].dst in disk && (!rebuildIfNewer || srcTime <= disk[(a + b)[i].dst] + 1) {
      if i >= |a| {
        assert (a + b)[i] == b[i - |a|];
      }
    }
  }

  /** An output in an unknown format that is not on disk yet always makes
      the run throw. */
  lemma {:induction false} BuildRejectsUnknown(b: Built, srcTime: int, rebuildIfNewer: bool, now: int, jobs: seq<Job>, k: nat)
    requires k < |jobs| && !Supported(jobs[k].fmt) && jobs[k].dst !in b.disk
    requires forall i :: 0 <= i < k ==> jobs[i].dst != jobs[k].dst
    ensures BuildJobs(b, srcTime, rebuildIfNewer, now, jobs).Err?
    decreases |jobs|
  {
    if k > 0 {
      var j := jobs[0];
      var next := if Needed(b, srcTime, rebuildIfNewer, j) then Built(b.disk[j.dst := now], b.made + 1, b.skipped)
                  else b.(skipped := b.skipped + 1);
      if !(Needed(b, srcTime, rebuildIfNewer, j) && !Supported(j.fmt)) {
        forall i | 0 <= i < k - 1 ensures jobs[1..][i].dst != jobs[1..][k - 1].dst {
          assert jobs[1..][i] == jobs[i + 1];
        }
        BuildRejectsUnknown(next, srcTime, rebuildIfNewer, now, jobs[1..], k - 1);
      }
    }
  }

  // ---------------------------------------------------------------------
  // URLs

  /** A segment that `path.posix.normalize` leaves alone, and that holds
      no separator. */
  predicate PlainSegment(s: string)
  {
    s != "" && s != "." && s != ".." && '/' !in s
  }

  predicate Plain(segs: seq<string>)
  {
    forall i :: 0 <= i < |segs| ==> PlainSegment(segs[i])
  }

  /** One segment of `normalizeString`: empty segments and `.` vanish, `..`
      removes the segment before it, or stays at the front of a relative
      path (at the root of an absolute one it vanishes). */
  function Push(stack: seq<string>, seg: string, absolute: bool): seq<string>
  {
    if seg == "" || seg == "." then stack
    else if seg == ".." then
      if |stack| > 0 && stack[|stack| - 1] != ".." then stack[..|stack| - 1]
      else if absolute then stack
      else stack + [".."]
    else stack + [seg]
  }

  function Fold(stack: seq<string>, segs: seq<string>, absolute: bool): seq<string>
    decreases |segs|
  {
    if |segs| == 0 then stack else Fold(Push(stack, segs[0], absolute), segs[1..], absolute)
  }

  /** `path.posix.normalize(p)`. A path starts with `/` exactly when its
      first field is empty, and ends with one exactly when it has more than
      one field and the last is empty. */
  function Normalize(p: string): string
  {
    if p == "" then "."
    else
      var f := Split(p, '/');
      var absolute := f[0] == "";
      var trailing := |f| > 1 && f[|f| - 1] == "";
      var body := Join(Fold([], f, absolute), "/");
      if body == "" then (if absolute then "/" else if trailing then "./" else ".")
      else (if absolute then "/" else "") + body + (if trailing then "/" else "")
  }

  /** `path.posix.join(a, b)`: empty arguments are dropped, then the rest
      is normalised. */
  function PosixJoin(a: string, b: string): string
  {
    var joined := if a == "" then b else if b == "" then a else a + "/" + b;
    if joined == "" then "." else Normalize(joined)
  }

  /** The URL of an output file: `'/' + path.posix.join(base, rel)` with
      `rel` its path relative to the output folder. */
  function UrlOf(outDir: Path, base: string, dst: Path): string
  {
    "/" + PosixJoin(base, Join(Relative(outDir, dst), "/"))
  }

  lemma {:induction false} FoldPlain(stack: seq<string>, segs: seq<string>, absolute: bool)
    requires Plain(segs)
    ensures Fold(stack, segs, absolute) == stack + segs
    decreases |segs|
  {
    if |segs| > 0 {
      FoldPlain(stack + [segs[0]], segs[1..], absolute);
      assert stack + [segs[0]] + segs[1..] == stack + segs;
    }
  }

  lemma {:induction false} JoinAppend(a: seq<string>, b: seq<string>, sep: string)
    requires |a| >= 1 && |b| >= 1
    ensures Join(a + b, sep) == Join(a, sep) + sep + Join(b, sep)
    decreases |a|
  {
    if |a| == 1 {
      JoinCons(a[0], b, sep);
      assert a + b == [a[0]] + b;
    } else {
      JoinAppend(a[1..], b, sep);
      assert a + b == [a[0]] + (a[1..] + b);
      JoinCons(a[0], a[1..] + b, sep);
      JoinCons(a[0], a[1..], sep);
      assert a == [a[0]] + a[1..];
    }
  }

  lemma PlainAppend(a: seq<string>, b: seq<string>)
    requires Plain(a) && Plain(b)
    ensures Plain(a + b)
  {
    forall i | 0 <= i < |a + b| ensures PlainSegment((a + b)[i]) {
      if i >= |a| { assert (a + b)[i] == b[i - |a|]; }
    }
  }

  /** A relative path without a trailing `/` normalises to its folded fields. */
  lemma NormalizeRelative(p: string, f: seq<string>)
    requires p != "" && Split(p, '/') == f
    requires f[0] != "" && f[|f| - 1] != ""
    requires Join(Fold([], f, false), "/") != ""
    ensures Normalize(p) == Join(Fold([], f, false), "/")
  {
    var body := Join(Fold([], f, false), "/");
    assert !(|f| > 1 && f[|f| - 1] == "");
    assert "" + body + "" == body;
  }

  /** Fields whose first one is not empty join to a non-empty string. */
  lemma JoinNonEmpty(segs: seq<string>, sep: string)
    requires |segs| >= 1 && segs[0] != ""
    ensures Join(segs, sep) != ""
  {
    if |segs| > 1 {
      JoinCons(segs[0], segs[1..], sep);
      assert segs == [segs[0]] + segs[1..];
    }
  }

  /** Plain segments joined with `/` are already normal. */
  lemma NormalizePlain(segs: seq<string>)
    requires |segs| >= 1 && Plain(segs)
    ensures Normalize(Join(segs, "/")) == Join(segs, "/")
  {
    var p := Join(segs, "/");
    assert PlainSegment(segs[0]) && PlainSegment(segs[|segs| - 1]);
    JoinNonEmpty(segs, "/");
    SplitJoin(segs, '/');
    FoldPlain([], segs, false);
    assert Fold([], segs, false) == segs by {
      assert [] + segs == segs;
    }
    NormalizeRelative(p, segs);
  }

  /** Below the output folder, the URL joins the base with the remaining
      segments. */
  lemma UrlOfBelow(outDir: Path, base: string, rel: Path)
    ensures UrlOf(outDir, base, outDir + rel) == "/" + PosixJoin(base, Join(rel, "/"))
  {
    RelativeToAncestor(outDir, rel);
  }

  /** Two non-empty arguments are joined with `/` and normalised. */
  lemma PosixJoinBoth(a: string, b: string)
    requires a != "" && b != ""
    ensures PosixJoin(a, b) == Normalize(a + "/" + b)
  {
  }

  /** For a plain base folder and plain file names, the URL is the base,
      then the path below the output folder, joined with `/`. */
  lemma UrlPlain(outDir: Path, base: string, rel: Path)
    requires base != "" && Plain(Split(base, '/'))
    requires |rel| >= 1 && Plain(rel)
    ensures UrlOf(outDir, base, outDir + rel) == "/" + base + "/" + Join(rel, "/")
  {
    var j := Join(rel, "/");
    UrlOfBelow(outDir, base, rel);
    assert PlainSegment(rel[0]);
    JoinNonEmpty(rel, "/");
    PosixJoinBoth(base, j);
    NormalizeBelowBase(base, rel);
  }

  /** A plain base folder followed by plain names is already normal. */
  lemma NormalizeBelowBase(base: string, rel: Path)
    requires base != "" && Plain(Split(base, '/'))
    requires |rel| >= 1 && Plain(rel)
    ensures Normalize(base + "/" + Join(rel, "/")) == base + "/" + Join(rel, "/")
  {
    var fb := Split(base, '/');
    JoinSplit(base, '/');
    JoinAppend(fb, rel, "/");
    PlainAppend(fb, rel);
    NormalizePlain(fb + rel);
  }

  // ---------------------------------------------------------------------
  // record rules

  /** The parts of the run that depend on the clock: ISO formatting of a
      time, `Date.parse`, and minting a new ULID for a time. */
  datatype Clock = Clock(iso: int -> string, parse: Json -> int, mint: int -> string)

  /** `Date.parse(v || 0)`. */
  function Epoch(c: Clock, v: Json): int
  {
    c.parse(if Truthy(Some(v)) then v else Num(0))
  }

  /** `current?.[key]`. */
  function Field(cur: Option<map<string, Json>>, key: string): (r: Option<Json>)
    ensures r.Some? <==> cur.Some? && key in cur.value
  {
    if cur.Some? && key in cur.value then Some(cur.value[key]) else None
  }

  /** `createdAt`: the prior record's value unless it is missing or null,
      else the source file's modification time. */
  function CreatedAt(c: Clock, cur: Option<map<string, Json>>, mtime: int): (r: Json)
    ensures r != Null
    ensures Field(cur, "createdAt").Some? && Field(cur, "createdAt").value != Null ==> r == Field(cur, "createdAt").value
    ensures Field(cur, "createdAt").None? || Field(cur, "createdAt").value == Null ==> r == Str(c.iso(mtime))
  {
    OrElse(Field(cur, "createdAt"), Str(c.iso(mtime)))
  }

  /** `id`: the prior record's id unless it is missing or null, else the
      stem when it looks like a ULID, else a ULID minted for `createdAt`. */
  function AssignId(c: Clock, cur: Option<map<string, Json>>, stem: string, createdAt: Json): (r: Json)
    ensures r != Null
    ensures Field(cur, "id").Some? && Field(cur, "id").value != Null ==> r == Field(cur, "id").value
    ensures (Field(cur, "id").None? || Field(cur, "id").value == Null) ==>
      r == Str(if IsUlidLike(stem) then stem else c.mint(c.parse(createdAt)))
  {
    OrElse(Field(cur, "id"), Str(if IsUlidLike(stem) then stem else c.mint(c.parse(createdAt))))
  }

  /** The hand-edited fields of a record. */
  datatype Human = Human(title: Json, alt: Json, series: Json, characters: Json, tags: Json, caption: Json, links: Json)

  /** `links` when the prior record has none. */
  const NoLinks: Json := Obj(map["products" := Arr([]), "related" := Arr([])])

  /** The hand-edited fields, carried over unless missing or null. */
  function HumanOf(keep: map<string, Json>): (h: Human)
    ensures h.title != Null && h.alt != Null && h.series != Null && h.characters != Null
            && h.tags != Null && h.caption != Null && h.links != Null
  {
    Human(OrElse(Field(Some(keep), "title"), Str("")),
          OrElse(Field(Some(keep), "alt"), Str("")),
          OrElse(Field(Some(keep), "series"), Arr([])),
          OrElse(Field(Some(keep), "characters"), Arr([])),
          OrElse(Field(Some(keep), "tags"), Arr([])),
          OrElse(Field(Some(keep), "caption"), Str("")),
          OrElse(Field(Some(keep), "links"), NoLinks))
  }

  /** The hand-edited fields as properties of the written record. */
  function HumanJson(h: Human): map<string, Json>
  {
    map["title" := h.title, "alt" := h.alt, "series" := h.series, "characters" := h.characters,
        "tags" := h.tags, "caption" := h.caption, "links" := h.links]
  }

  /** Hand edits survive being written out and read back: a record whose
      hand-edited fields are carried over gets them back unchanged. */
  lemma HumanRoundTrip(h: Human, keep: map<string, Json>)
    requires h.title != Null && h.alt != Null && h.series != Null && h.characters != Null
             && h.tags != Null && h.caption != Null && h.links != Null
    requires forall k :: k in HumanJson(h) ==> k in keep && keep[k] == HumanJson(h)[k]
    ensures HumanOf(keep) == h
  {
    var hj := HumanJson(h);
    assert "title" in hj && "alt" in hj && "series" in hj && "characters" in hj;
    assert "tags" in hj && "caption" in hj && "links" in hj;
  }

  /** The index order: by a numeric key, then by the id as text
      (`String(a.id).localeCompare(String(b.id))`). */
  function KeyThenId<T>(key: T -> int, idText: T -> string): (le: (T, T) -> bool)
  {
    (a: T, b: T) => key(a) < key(b) || (key(a) == key(b) && Below(idText(a), idText(b)))
  }

  /** Any numeric key followed by the id gives an order `Array.prototype.sort`
      can use. */
  lemma KeyThenIdIsTotalPreorder<T(!new)>(key: T -> int, idText: T -> string)
    ensures TotalPreorder(KeyThenId(key, idText))
  {
    var le := KeyThenId(key, idText);
    forall a, b ensures TotalAt(le, a, b) {
      BelowTotal(idText(a), idText(b));
    }
    forall a, b, c ensures TransitiveAt(le, a, b, c) {
      if le(a, b) && le(b, c) && key(a) == key(b) && key(b) == key(c) {
        BelowTransitive(idText(a), idText(b), idText(c));
      }
    }
  }
}
