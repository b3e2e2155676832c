/** The older index builder, `scripts/build-images.mjs`: it renders the
    same four tiers of outputs as the stills pipeline, mirrors the output
    folder into the public folder after every input, and writes an index
    whose records are found again by id or by their small WebP URL. The
    upscaler it starts first, the encoder and the JSON file itself are
    not part of this model. */
module BuildImages {
  import opened Wrappers
  import opened Strings
  import opened Paths
  import opened JsonValues
  import opened Sorting
  import opened ImageIndex
  import Stills
  import opened Arith

  // ---------------------------------------------------------------------
  // the originals folder

  /** `resolveExisting(...candidates)`: the first candidate that exists,
      else the first candidate (`undefined` when there is none). */
  function FirstExisting(cands: seq<Path>, present: set<Path>): (r: Option<Path>)
    ensures r.None? <==> |cands| == 0
    ensures (exists i :: 0 <= i < |cands| && cands[i] in present) ==>
              r.Some? && r.value in present
              && exists i :: 0 <= i < |cands| && cands[i] == r.value
                             && forall j :: 0 <= j < i ==> cands[j] !in present
    ensures (forall i :: 0 <= i < |cands| ==> cands[i] !in present) && |cands| > 0 ==> r == Some(cands[0])
  {
    if |cands| == 0 then None
    else
      var k := FirstIn(cands, present);
      if k < |cands| then Some(cands[k]) else Some(cands[0])
  }

  /** The index of the first candidate that exists, or `|cands|`. */
  function FirstIn(cands: seq<Path>, present: set<Path>): (k: nat)
    ensures k <= |cands|
    ensures k < |cands| ==> cands[k] in present
    ensures forall j :: 0 <= j < k ==> cands[j] !in present
  {
    if |cands| == 0 then 0
    else if cands[0] in present then 0
    else
      var k := FirstIn(cands[1..], present);
      assert forall j :: 1 <= j < |cands| ==> cands[j] == cands[1..][j - 1];
      k + 1
  }

  /** The `for (const c of candidates) if (existsSync(c)) return c` loop. */
  method ResolveExisting(cands: seq<Path>, present: set<Path>) returns (r: Option<Path>)
    ensures r == FirstExisting(cands, present)
  {
    var i := 0;
    while i < |cands|
      invariant 0 <= i <= |cands|
      invariant forall j :: 0 <= j < i ==> cands[j] !in present
      invariant FirstIn(cands, present) >= i
    {
      if cands[i] in present {
        return Some(cands[i]);
      }
      i := i + 1;
    }
    if |cands| == 0 {
      return None;
    }
    return Some(cands[0]);
  }

  /** The script calls `resolveExisting` with one candidate only, so the
      originals folder is the configured one (or the default) whether it
      exists or not, even when `originals` is there. */
  lemma OriginalsAsWritten(configured: Option<Path>, present: set<Path>)
    requires configured.GetOr(["originals", "originals_upscaled"]) !in present && ["originals"] in present
    ensures var r := FirstExisting([configured.GetOr(["originals", "originals_upscaled"])], present);
            r.Some? && r.value !in present
  {
  }

  /** The originals folder as the header of the script describes it: the
      configured or upscaled folder, else `originals`, else `src/originals`. */
  function OriginalsCandidates(configured: Option<Path>): seq<Path>
  {
    [configured.GetOr(["originals", "originals_upscaled"]), ["originals"], ["src", "originals"]]
  }

  /** With the fallbacks, an existing folder is chosen whenever one of the
      three exists, and the earlier ones win. */
  lemma OriginalsWithFallbacks(configured: Option<Path>, present: set<Path>)
    ensures var cands := OriginalsCandidates(configured);
            var r := FirstExisting(cands, present);
            && r.Some?
            && ((cands[0] in present || cands[1] in present || cands[2] in present) ==> r.value in present)
            && (cands[0] in present ==> r.value == cands[0])
            && (cands[0] !in present && cands[1] in present ==> r.value == cands[1])
  {
    var cands := OriginalsCandidates(configured);
    if cands[0] in present || cands[1] in present || cands[2] in present {
      var i := if cands[0] in present then 0 else if cands[1] in present then 1 else 2;
      assert 0 <= i < |cands| && cands[i] in present;
    }
  }

  // ---------------------------------------------------------------------
  // mirroring the output folder

  /** What `statSync` says about a file. */
  datatype Info = Info(size: nat, mtime: int)

  /** The files under a folder, by relative path. */
  type Tree = map<Path, Info>

  /** The copy test of `mirrorDir`: the destination is missing, or the
      sizes differ, or the source is newer by more than a millisecond. */
  predicate CopyNeeded(s: Info, dst: Tree, p: Path)
  {
    p !in dst || s.size != dst[p].size || s.mtime > dst[p].mtime + 1
  }

  /** A copied file has the source's size and the copy's time. */
  function Synced(s: Info, dst: Tree, p: Path, now: int): Info
  {
    if CopyNeeded(s, dst, p) then Info(s.size, now) else dst[p]
  }

  /** The destination after `mirrorDir(src, dst)`: exactly the source's
      files, each copied or left as it was; every other file removed. */
  function Mirrored(src: Tree, dst: Tree, now: int): (r: Tree)
    ensures r.Keys == src.Keys
    ensures forall p :: p in r ==> r[p].size == src[p].size
    ensures forall p :: p in r ==> r[p] == Info(src[p].size, now) || (p in dst && r[p] == dst[p])
    ensures forall p :: p in r && CopyNeeded(src[p], dst, p) ==> r[p].mtime == now
    ensures forall p :: p in r && !CopyNeeded(src[p], dst, p) ==> r[p] == dst[p] && src[p].mtime <= r[p].mtime + 1
  {
    map p | p in src :: Synced(src[p], dst, p, now)
  }

  /** `mirrorDir`: the copy loop over the source's files, then the prune
      loop over the destination's. */
  method MirrorDir(src: Tree, dst: Tree, now: int) returns (r: Tree)
    ensures r == Mirrored(src, dst, now)
  {
    r := dst;
    var todo := src.Keys;
    while todo != {}
      invariant todo <= src.Keys
      invariant forall p :: p in todo ==> (p in r <==> p in dst) && (p in r ==> r[p] == dst[p])
      invariant forall p :: p in src && p !in todo ==> p in r && r[p] == Synced(src[p], dst, p, now)
      invariant forall p :: p in r && p !in src ==> p in dst && r[p] == dst[p]
      decreases |todo|
    {
      var p :| p in todo;
      var copy := p !in r || src[p].size != r[p].size || src[p].mtime > r[p].mtime + 1;
      if copy {
        r := r[p := Info(src[p].size, now)];
      }
      todo := todo - {p};
    }
    var stale := r.Keys;
    while stale != {}
      invariant stale <= r.Keys
      invariant forall p :: p in src ==> p in r && r[p] == Synced(src[p], dst, p, now)
      invariant forall p :: p in r && p !in stale ==> p in src
      decreases |stale|
    {
      var d :| d in stale;
      if d !in src {
        r := r - {d};
      }
      stale := stale - {d};
    }
    assert r.Keys == src.Keys;
  }

  /** Mirroring again, with no source newer than the first mirror, copies
      nothing and changes nothing. */
  lemma MirrorIdempotent(src: Tree, dst: Tree, now: int, later: int)
    requires forall p :: p in src ==> src[p].mtime <= now + 1
    ensures Mirrored(src, Mirrored(src, dst, now), later) == Mirrored(src, dst, now)
  {
    var once := Mirrored(src, dst, now);
    forall p | p in src ensures !CopyNeeded(src[p], once, p) {
    }
  }

  /** The output folder as `mirrorDir` sees it: each file's time and the
      size the encoder left it with. */
  function OutTree(out: Disk, size: Path -> nat): (t: Tree)
    ensures t.Keys == out.Keys
  {
    map p | p in out :: Info(size(p), out[p])
  }

  // ---------------------------------------------------------------------
  // finding the prior record

  /** The test `r.id === stem || r.sizes?.s?.webp?.includes(`/${stem}.webp`)`
      holds; for an array `includes` looks for an equal element. */
  predicate LegacyHit(r: Json, stem: string)
  {
    Stills.HasKey(r, "id", stem)
    || match Stills.SmallWebp(r)
       case Some(Str(s)) => Contains(s, "/" + stem + ".webp")
       case Some(Arr(items)) => Str("/" + stem + ".webp") in items
       case _ => false
  }

  /** The same test throws: the URL is there but is neither a string nor an
      array, so it has no `includes`. */
  predicate LegacyThrows(r: Json, stem: string)
  {
    !Stills.HasKey(r, "id", stem)
    && Stills.SmallWebp(r).Some?
    && (Stills.SmallWebp(r).value.Bool? || Stills.SmallWebp(r).value.Num? || Stills.SmallWebp(r).value.Obj?)
  }

  const IncludesError := "TypeError: r.sizes?.s?.webp?.includes is not a function"

  /** No record of `prev[i..k]` hits or throws. */
  predicate Passed(prev: seq<Json>, i: nat, k: nat, stem: string)
    requires i <= k <= |prev|
  {
    forall j :: i <= j < k ==> !LegacyHit(prev[j], stem) && !LegacyThrows(prev[j], stem)
  }

  /** `prev.find(...)` with that test: the index of the first hit, or the
      error of the first record that throws before any hit. */
  function LegacyFind(prev: seq<Json>, stem: string): (r: Result<Option<nat>, string>)
    ensures r.Ok? && r.value.Some? ==>
              r.value.value < |prev| && LegacyHit(prev[r.value.value], stem)
              && forall j :: 0 <= j < r.value.value ==> !LegacyHit(prev[j], stem) && !LegacyThrows(prev[j], stem)
    ensures r.Ok? && r.value.None? ==>
              forall j :: 0 <= j < |prev| ==> !LegacyHit(prev[j], stem) && !LegacyThrows(prev[j], stem)
    ensures r.Err? ==>
              r.error == IncludesError
              && exists k :: 0 <= k < |prev| && LegacyThrows(prev[k], stem)
                             && forall j :: 0 <= j < k ==> !LegacyHit(prev[j], stem) && !LegacyThrows(prev[j], stem)
  {
    var r := FindFrom(prev, 0, stem);
    if r.Err? then
      var k :| 0 <= k < |prev| && LegacyThrows(prev[k], stem) && Passed(prev, 0, k, stem);
      Err(IncludesError)
    else r
  }

  /** The scan of `prev.find(...)` from index `i` on. */
  function FindFrom(prev: seq<Json>, i: nat, stem: string): (r: Result<Option<nat>, string>)
    requires i <= |prev|
    ensures r.Ok? && r.value.Some? ==>
              i <= r.value.value < |prev| && LegacyHit(prev[r.value.value], stem) && Passed(prev, i, r.value.value, stem)
    ensures r.Ok? && r.value.None? ==> Passed(prev, i, |prev|, stem)
    ensures r.Err? ==>
              r.error == IncludesError
              && exists k :: i <= k < |prev| && LegacyThrows(prev[k], stem) && Passed(prev, i, k, stem)
    decreases |prev| - i
  {
    if i == |prev| then Ok(None)
    else if LegacyHit(prev[i], stem) then Ok(Some(i))
    else if LegacyThrows(prev[i], stem) then Err(IncludesError)
    else
      var r := FindFrom(prev, i + 1, stem);
      if r.Err? then
        var k :| i + 1 <= k < |prev| && LegacyThrows(prev[k], stem) && Passed(prev, i + 1, k, stem);
        assert Passed(prev, i, k, stem);
        r
      else r
  }

  /** `prevById.get(stem) || prev.find(...)`. */
  function LegacyPrior(prev: seq<Json>, stem: string): Result<Option<map<string, Json>>, string>
  {
    var byId := Stills.KeyedBy(prev, "id");
    if stem in byId then Ok(Some(byId[stem]))
    else
      match LegacyFind(prev, stem)
      case Err(e) => Err(e)
      case Ok(None) => Ok(None)
      case Ok(Some(k)) => Ok(Some(prev[k].fields))
  }

  /** A record with the stem as its id is found without the fallback
      search, so nothing can throw; the last such record wins. */
  lemma LegacyPriorById(prev: seq<Json>, stem: string, i: nat)
    requires i < |prev| && Stills.HasKey(prev[i], "id", stem)
    requires forall j :: i < j < |prev| ==> !Stills.HasKey(prev[j], "id", stem)
    ensures LegacyPrior(prev, stem) == Ok(Some(prev[i].fields))
  {
    Stills.KeyedByLast(prev, "id", stem);
    var k :| 0 <= k < |prev| && Stills.HasKey(prev[k], "id", stem) && prev[k] == Obj(Stills.KeyedBy(prev, "id")[stem])
             && forall j :: k < j < |prev| ==> !Stills.HasKey(prev[j], "id", stem);
    assert k == i;
  }

  // ---------------------------------------------------------------------
  // one record

  /** `rights` when the prior record has none. */
  const DefaultRights: Json := Obj(map["copyright" := Str("© Omochi Fortress")])

  /** A record of the legacy index. */
  datatype LegacyRecord = LegacyRecord(
    id: Json, human: Human, createdAt: Json,
    w: Option<nat>, h: Option<nat>, lqip: Json, sizes: Json, rights: Json)

  /** `urlFromPub(abs)`: the URL of a file under the public folder, always
      below `/assets`. */
  function UrlFromPub(pub: Path, abs: Path): string
  {
    UrlOf(pub, "assets", abs)
  }

  /** A file `<tier>/<name>` of the public folder is served at
      `/assets/<tier>/<name>`, whatever the public folder is called. */
  lemma UrlFromPubPlain(pub: Path, tier: string, name: string)
    requires PlainSegment(tier) && PlainSegment(name)
    ensures UrlFromPub(pub, pub + [tier, name]) == "/assets/" + tier + "/" + name
  {
    Stills.DefaultBase();
    assert UrlFromPub(pub, pub + [tier, name]) == Stills.MakeUrl(pub, "/assets", pub + [tier, name]);
    Stills.DefaultUrl(pub, tier, name);
  }

  /** `urls[tier]`. */
  function LegacyTierUrls(pub: Path, id: string, formats: seq<string>, tier: string): Json
  {
    Obj(map f | f in formats :: Str(UrlFromPub(pub, pub + [tier, id + "." + f])))
  }

  /** `urls`. */
  function LegacySizes(pub: Path, id: string, formats: seq<string>): Json
  {
    Obj(map t | t in Tiers :: LegacyTierUrls(pub, id, formats, t))
  }

  /** The legacy script writes the same URLs as the stills pipeline does
      with its default base `/assets`. */
  lemma SameUrlsAsStills(pub: Path, id: string, formats: seq<string>)
    ensures LegacySizes(pub, id, formats) == Stills.Sizes(pub, "/assets", id, formats)
  {
    forall t | t in Tiers
      ensures LegacyTierUrls(pub, id, formats, t) == Stills.TierUrls(pub, "/assets", id, formats, t)
    {
      SameTierUrls(pub, id, formats, t);
    }
  }

  /** One tier of `SameUrlsAsStills`. */
  lemma SameTierUrls(pub: Path, id: string, formats: seq<string>, t: string)
    ensures LegacyTierUrls(pub, id, formats, t) == Stills.TierUrls(pub, "/assets", id, formats, t)
  {
    Stills.DefaultBase();
    var a := map f | f in formats :: Str(UrlFromPub(pub, pub + [t, id + "." + f]));
    var b := map f | f in formats :: Str(Stills.MakeUrl(pub, "/assets", pub + [t, id + "." + f]));
    assert a == b;
  }

  /** The record of an input given its prior record: identity and hand-
      edited fields carried over, `rights` defaulted. */
  function LegacyRecordOf(c: Clock, pub: Path, formats: seq<string>, cur: Option<map<string, Json>>,
                          stem: string, s: Stills.Source): (r: LegacyRecord)
    ensures r.id == AssignId(c, cur, stem, r.createdAt) && r.createdAt == CreatedAt(c, cur, s.mtime)
    ensures r.human == HumanOf(cur.GetOr(map[]))
    ensures Field(cur, "rights").Some? && Field(cur, "rights").value != Null ==> r.rights == Field(cur, "rights").value
    ensures Field(cur, "rights").None? || Field(cur, "rights").value == Null ==> r.rights == DefaultRights
  {
    var createdAt := CreatedAt(c, cur, s.mtime);
    var id := AssignId(c, cur, stem, createdAt);
    LegacyRecord(id, HumanOf(cur.GetOr(map[])), createdAt, s.width, s.height, s.lqip,
                 LegacySizes(pub, ToStr(id), formats), OrElse(Field(cur, "rights"), DefaultRights))
  }

  /** The record as the JSON object the index holds. */
  function LegacyJson(r: LegacyRecord): map<string, Json>
  {
    var m := map["id" := r.id, "createdAt" := r.createdAt, "lqip" := r.lqip, "sizes" := r.sizes, "rights" := r.rights];
    var m1 := if r.w.Some? then m["w" := Num(r.w.value)] else m;
    var m2 := if r.h.Some? then m1["h" := Num(r.h.value)] else m1;
    m2 + HumanJson(r.human)
  }

  // ---------------------------------------------------------------------
  // the run

  /** The script's settings from the site configuration (`formats`
      lower-cased). `pub` is the public folder. */
  datatype Config = Config(formats: Option<seq<string>>, rebuildIfNewer: Option<bool>, pub: Path)

  function Formats(cfg: Config): seq<string>
  {
    Stills.Lowers(cfg.formats.GetOr(["avif", "webp"]))
  }

  /** The state the loop carries: the output and public folders, the
      counters and the records so far. */
  datatype State = State(out: Disk, pub: Tree, made: nat, skipped: nat, records: seq<LegacyRecord>)

  /** A thrown error and the two folders as it left them. */
  datatype Crash = Crash(out: Disk, pub: Tree, message: string)

  /** One input: find its prior record, render its outputs, mirror the
      output folder, and append its record. */
  function Step(cfg: Config, c: Clock, env: string -> Stills.Source, size: Path -> nat, now: int,
                prev: seq<Json>, rel: string, st: State): Result<State, Crash>
  {
    var stem := FileStem(rel);
    match LegacyPrior(prev, stem)
    case Err(e) => Err(Crash(st.out, st.pub, e))
    case Ok(cur) =>
      var r := LegacyRecordOf(c, cfg.pub, Formats(cfg), cur, stem, env(rel));
      match BuildJobs(Built(st.out, st.made, st.skipped), env(rel).mtime, cfg.rebuildIfNewer.GetOr(true), now,
                      Jobs([], ToStr(r.id), Formats(cfg)))
      case Err(f) => Err(Crash(f.disk, st.pub, f.message))
      case Ok(b) =>
        Ok(State(b.disk, Mirrored(OutTree(b.disk, size), st.pub, now), b.made, b.skipped, st.records + [r]))
  }

  /** One step as a value: what the loop applies to each input. */
  function StepOf(cfg: Config, c: Clock, env: string -> Stills.Source, size: Path -> nat, now: int,
                  prev: seq<Json>): (string, State) -> Result<State, Crash>
  {
    (rel: string, st: State) => Step(cfg, c, env, size, now, prev, rel, st)
  }

  /** `step` applied to every input in turn, stopping at the first crash. */
  function Steps(step: (string, State) -> Result<State, Crash>, inputs: seq<string>, st: State): Result<State, Crash>
    decreases |inputs|
  {
    if |inputs| == 0 then Ok(st)
    else
      var st1 :- step(inputs[0], st);
      Steps(step, inputs[1..], st1)
  }

  /** Every input in turn. */
  function StepAll(cfg: Config, c: Clock, env: string -> Stills.Source, size: Path -> nat, now: int,
                   prev: seq<Json>, inputs: seq<string>, st: State): Result<State, Crash>
  {
    Steps(StepOf(cfg, c, env, size, now, prev), inputs, st)
  }

  function EpochKey(c: Clock): LegacyRecord -> int
  {
    (r: LegacyRecord) => Epoch(c, r.createdAt)
  }

  function LegacyIdText(r: LegacyRecord): string
  {
    ToStr(r.id)
  }

  /** The order of the legacy index: `createdAt` as a time, then the id. */
  function LegacyOrder(c: Clock): (LegacyRecord, LegacyRecord) -> bool
  {
    KeyThenId(EpochKey(c), LegacyIdText)
  }

  /** What a run ends with: no inputs (the script exits before writing
      anything), or the sorted index, the counters and the two folders. */
  datatype Outcome =
    | NoInputs
    | Written(index: seq<LegacyRecord>, made: nat, skipped: nat, out: Disk, pub: Tree)

  /** A whole run of the script after the upscaler. */
  function LegacyRun(cfg: Config, c: Clock, env: string -> Stills.Source, size: Path -> nat, now: int,
                     prev: seq<Json>, inputs: seq<string>, out: Disk, pub: Tree): Result<Outcome, Crash>
  {
    if Null in prev then Err(Crash(out, pub, "Cannot read properties of null (reading 'id')"))
    else if |inputs| == 0 then Ok(NoInputs)
    else
      var st :- StepAll(cfg, c, env, size, now, prev, inputs, State(out, pub, 0, 0, []));
      Ok(Written(Sorted(st.records, LegacyOrder(c)), st.made, st.skipped, st.out, st.pub))
  }

  /** The loop over the inputs. */
  method StepEach(cfg: Config, c: Clock, env: string -> Stills.Source, size: Path -> nat, now: int,
                  prev: seq<Json>, inputs: seq<string>, out: Disk, pub: Tree)
    returns (r: Result<State, Crash>)
    ensures r == StepAll(cfg, c, env, size, now, prev, inputs, State(out, pub, 0, 0, []))
  {
    var st := State(out, pub, 0, 0, []);
    var i := 0;
    while i < |inputs|
      invariant 0 <= i <= |inputs|
      invariant StepAll(cfg, c, env, size, now, prev, inputs, State(out, pub, 0, 0, []))
             == StepAll(cfg, c, env, size, now, prev, inputs[i..], st)
    {
      assert inputs[i..][1..] == inputs[i + 1..];
      var rel := inputs[i];
      var stem := FileStem(rel);
      var cur := LegacyPrior(prev, stem);
      if cur.Err? {
        return Err(Crash(st.out, st.pub, cur.error));
      }
      var record := LegacyRecordOf(c, cfg.pub, Formats(cfg), cur.value, stem, env(rel));
      var built := BuildOutputs(Built(st.out, st.made, st.skipped), env(rel).mtime, cfg.rebuildIfNewer.GetOr(true),
                                now, Jobs([], ToStr(record.id), Formats(cfg)));
      if built.Err? {
        return Err(Crash(built.error.disk, st.pub, built.error.message));
      }
      var b := built.value;
      var mirrored := MirrorDir(OutTree(b.disk, size), st.pub, now);
      st := State(b.disk, mirrored, b.made, b.skipped, st.records + [record]);
      i := i + 1;
    }
    return Ok(st);
  }

  /** The script from the prior index on. */
  method RunBuildImages(cfg: Config, c: Clock, env: string -> Stills.Source, size: Path -> nat, now: int,
                        prev: seq<Json>, inputs: seq<string>, out: Disk, pub: Tree)
    returns (r: Result<Outcome, Crash>)
    ensures r == LegacyRun(cfg, c, env, size, now, prev, inputs, out, pub)
  {
    if Null in prev {
      return Err(Crash(out, pub, "Cannot read properties of null (reading 'id')"));
    }
    if |inputs| == 0 {
      return Ok(NoInputs);
    }
    var st := StepEach(cfg, c, env, size, now, prev, inputs, out, pub);
    if st.Err? {
      return Err(st.error);
    }
    KeyThenIdIsTotalPreorder(EpochKey(c), LegacyIdText);
    var sorted := SortBy(st.value.records, LegacyOrder(c));
    return Ok(Written(sorted, st.value.made, st.value.skipped, st.value.out, st.value.pub));
  }

  // ---------------------------------------------------------------------
  // what a run promises

  /** The record of one input, given that finding its prior record did not
      throw. */
  function RecordFor(cfg: Config, c: Clock, env: string -> Stills.Source, prev: seq<Json>, rel: string): LegacyRecord
  {
    var p := LegacyPrior(prev, FileStem(rel));
    LegacyRecordOf(c, cfg.pub, Formats(cfg), if p.Ok? then p.value else None, FileStem(rel), env(rel))
  }

  /** `RecordFor` as a value. */
  function RecordOf(cfg: Config, c: Clock, env: string -> Stills.Source, prev: seq<Json>): string -> LegacyRecord
  {
    (rel: string) => RecordFor(cfg, c, env, prev, rel)
  }

  /** The records of a list of inputs, in input order. */
  function LegacyRecords(cfg: Config, c: Clock, env: string -> Stills.Source, prev: seq<Json>, inputs: seq<string>)
    : seq<LegacyRecord>
  {
    Stills.MapEach(RecordOf(cfg, c, env, prev), inputs)
  }

  /** A loop whose every step appends its input's record appends every
      input's record in turn. */
  lemma {:induction false} StepsRecords(step: (string, State) -> Result<State, Crash>, rec: string -> LegacyRecord,
                                        inputs: seq<string>, st: State)
    requires forall rel, s :: step(rel, s).Ok? ==> step(rel, s).value.records == s.records + [rec(rel)]
    requires Steps(step, inputs, st).Ok?
    ensures Steps(step, inputs, st).value.records == st.records + Stills.MapEach(rec, inputs)
    decreases |inputs|
  {
    if |inputs| > 0 {
      var st1 := step(inputs[0], st).value;
      assert Steps(step, inputs, st) == Steps(step, inputs[1..], st1);
      StepsRecords(step, rec, inputs[1..], st1);
      MapEachCons(rec, inputs);
      AppendAfter(st.records, rec(inputs[0]), Stills.MapEach(rec, inputs[1..]), Stills.MapEach(rec, inputs));
    }
  }

  /** A loop whose every step counts `k` outputs counts `k` per input. */
  lemma {:induction false} StepsCounts(step: (string, State) -> Result<State, Crash>, k: nat,
                                       inputs: seq<string>, st: State)
    requires forall rel, s :: step(rel, s).Ok? ==> step(rel, s).value.made + step(rel, s).value.skipped == s.made + s.skipped + k
    requires Steps(step, inputs, st).Ok?
    ensures Steps(step, inputs, st).value.made + Steps(step, inputs, st).value.skipped
            == st.made + st.skipped + k * |inputs|
    decreases |inputs|
  {
    if |inputs| > 0 {
      var st1 := step(inputs[0], st).value;
      StepsCounts(step, k, inputs[1..], st1);
      MulSucc(k, |inputs[1..]|);
    }
  }

  /** A loop whose every step keeps the outputs and mirrors them keeps the
      outputs and ends mirrored. */
  lemma {:induction false} StepsKeys(step: (string, State) -> Result<State, Crash>, inputs: seq<string>, st: State)
    requires forall rel, s :: step(rel, s).Ok? ==>
               s.out.Keys <= step(rel, s).value.out.Keys && step(rel, s).value.pub.Keys == step(rel, s).value.out.Keys
    requires Steps(step, inputs, st).Ok?
    ensures st.out.Keys <= Steps(step, inputs, st).value.out.Keys
    ensures |inputs| > 0 ==> Steps(step, inputs, st).value.pub.Keys == Steps(step, inputs, st).value.out.Keys
    decreases |inputs|
  {
    if |inputs| > 0 {
      var st1 := step(inputs[0], st).value;
      StepsKeys(step, inputs[1..], st1);
    }
  }

  /** The loop appends every input's record in turn. */
  lemma StepAllRecords(cfg: Config, c: Clock, env: string -> Stills.Source, size: Path -> nat, now: int,
                       prev: seq<Json>, inputs: seq<string>, st: State)
    requires StepAll(cfg, c, env, size, now, prev, inputs, st).Ok?
    ensures StepAll(cfg, c, env, size, now, prev, inputs, st).value.records
            == st.records + LegacyRecords(cfg, c, env, prev, inputs)
  {
    var step := StepOf(cfg, c, env, size, now, prev);
    var rec := RecordOf(cfg, c, env, prev);
    forall rel, s | step(rel, s).Ok? ensures step(rel, s).value.records == s.records + [rec(rel)] {
      StepRecord(cfg, c, env, size, now, prev, rel, s);
    }
    StepsRecords(step, rec, inputs, st);
  }

  /** The loop counts every output of every input once. */
  lemma StepAllCounts(cfg: Config, c: Clock, env: string -> Stills.Source, size: Path -> nat, now: int,
                      prev: seq<Json>, inputs: seq<string>, st: State)
    requires StepAll(cfg, c, env, size, now, prev, inputs, st).Ok?
    ensures var a := StepAll(cfg, c, env, size, now, prev, inputs, st).value;
            a.made + a.skipped == st.made + st.skipped + 4 * |Formats(cfg)| * |inputs|
  {
    var step := StepOf(cfg, c, env, size, now, prev);
    var k := 4 * |Formats(cfg)|;
    forall rel, s | step(rel, s).Ok? ensures step(rel, s).value.made + step(rel, s).value.skipped == s.made + s.skipped + k {
      StepFacts(cfg, c, env, size, now, prev, rel, s);
    }
    StepsCounts(step, k, inputs, st);
  }

  /** The loop never loses an output, and leaves the public folder
      holding exactly the output folder's files. */
  lemma StepAllKeys(cfg: Config, c: Clock, env: string -> Stills.Source, size: Path -> nat, now: int,
                    prev: seq<Json>, inputs: seq<string>, st: State)
    requires StepAll(cfg, c, env, size, now, prev, inputs, st).Ok?
    ensures var a := StepAll(cfg, c, env, size, now, prev, inputs, st).value;
            && st.out.Keys <= a.out.Keys
            && (|inputs| > 0 ==> a.pub.Keys == a.out.Keys)
  {
    var step := StepOf(cfg, c, env, size, now, prev);
    forall rel, s | step(rel, s).Ok?
      ensures s.out.Keys <= step(rel, s).value.out.Keys && step(rel, s).value.pub.Keys == step(rel, s).value.out.Keys
    {
      StepFacts(cfg, c, env, size, now, prev, rel, s);
    }
    StepsKeys(step, inputs, st);
  }

  /** One step appends the input's record. */
  lemma StepRecord(cfg: Config, c: Clock, env: string -> Stills.Source, size: Path -> nat, now: int,
                   prev: seq<Json>, rel: string, st: State)
    requires Step(cfg, c, env, size, now, prev, rel, st).Ok?
    ensures Step(cfg, c, env, size, now, prev, rel, st).value.records == st.records + [RecordFor(cfg, c, env, prev, rel)]
  {
  }

  /** One step counts its outputs, keeps every output, and mirrors the
      output folder into the public one. */
  lemma StepFacts(cfg: Config, c: Clock, env: string -> Stills.Source, size: Path -> nat, now: int,
                  prev: seq<Json>, rel: string, st: State)
    requires Step(cfg, c, env, size, now, prev, rel, st).Ok?
    ensures var st1 := Step(cfg, c, env, size, now, prev, rel, st).value;
            && st1.made + st1.skipped == st.made + st.skipped + 4 * |Formats(cfg)|
            && st.out.Keys <= st1.out.Keys
            && st1.pub.Keys == st1.out.Keys
  {
    var r := RecordFor(cfg, c, env, prev, rel);
    var jobs := Jobs([], ToStr(r.id), Formats(cfg));
    var b := Built(st.out, st.made, st.skipped);
    BuildAccounts(b, env(rel).mtime, cfg.rebuildIfNewer.GetOr(true), now, jobs);
  }

  lemma AppendAfter<T>(a: seq<T>, x: T, rest: seq<T>, all: seq<T>)
    requires all == [x] + rest
    ensures a + all == (a + [x]) + rest
  {
  }

  lemma MapEachCons<A, B>(f: A -> B, xs: seq<A>)
    requires |xs| > 0
    ensures Stills.MapEach(f, xs) == [f(xs[0])] + Stills.MapEach(f, xs[1..])
  {
    assert forall k :: 0 <= k < |xs| ==> Stills.MapEach(f, xs)[k] == ([f(xs[0])] + Stills.MapEach(f, xs[1..]))[k];
  }

  /** A run with inputs whose every record was built writes every input's
      record once, in index order, counts every output of every input as
      made or skipped, and leaves the public folder with exactly the
      output folder's files. */
  lemma LegacyRunShape(cfg: Config, c: Clock, env: string -> Stills.Source, size: Path -> nat, now: int,
                       prev: seq<Json>, inputs: seq<string>, out: Disk, pub: Tree)
    requires LegacyRun(cfg, c, env, size, now, prev, inputs, out, pub).Ok? && |inputs| > 0
    ensures var o := LegacyRun(cfg, c, env, size, now, prev, inputs, out, pub).value;
            && o.Written?
            && SortedBy(o.index, LegacyOrder(c))
            && multiset(o.index) == multiset(LegacyRecords(cfg, c, env, prev, inputs))
            && o.made + o.skipped == 4 * |Formats(cfg)| * |inputs|
            && out.Keys <= o.out.Keys
            && o.pub.Keys == o.out.Keys
  {
    var st0 := State(out, pub, 0, 0, []);
    StepAllRecords(cfg, c, env, size, now, prev, inputs, st0);
    StepAllCounts(cfg, c, env, size, now, prev, inputs, st0);
    StepAllKeys(cfg, c, env, size, now, prev, inputs, st0);
    var a := StepAll(cfg, c, env, size, now, prev, inputs, st0).value;
    KeyThenIdIsTotalPreorder(EpochKey(c), LegacyIdText);
    SortedSortsAndPermutes(a.records, LegacyOrder(c));
  }

  /** A prior index holding `null` stops the run before anything else,
      and a run without inputs writes nothing. */
  lemma LegacyRunStops(cfg: Config, c: Clock, env: string -> Stills.Source, size: Path -> nat, now: int,
                       prev: seq<Json>, inputs: seq<string>, out: Disk, pub: Tree)
    ensures Null in prev ==> LegacyRun(cfg, c, env, size, now, prev, inputs, out, pub).Err?
    ensures LegacyRun(cfg, c, env, size, now, prev, inputs, out, pub) == Ok(NoInputs)
            <==> Null !in prev && |inputs| == 0
  {
  }

  // ---------------------------------------------------------------------
  // reruns

  /** A written record's own properties are not shadowed by the hand-edited
      ones. */
  lemma LegacyJsonFields(r: LegacyRecord)
    ensures "id" in LegacyJson(r) && LegacyJson(r)["id"] == r.id
    ensures "createdAt" in LegacyJson(r) && LegacyJson(r)["createdAt"] == r.createdAt
    ensures "rights" in LegacyJson(r) && LegacyJson(r)["rights"] == r.rights
    ensures "sizes" in LegacyJson(r) && LegacyJson(r)["sizes"] == r.sizes
    ensures forall k :: k in HumanJson(r.human) ==> k in LegacyJson(r) && LegacyJson(r)[k] == HumanJson(r.human)[k]
  {
    var h := HumanJson(r.human);
    assert "id" !in h && "createdAt" !in h && "rights" !in h && "sizes" !in h;
  }

  /** A record whose id is its file's stem (a file named by its ULID) is
      found again on the next run: its id, `createdAt`, hand-edited
      fields and `rights` are kept, whatever the clock says then. */
  lemma LegacyRerunKeeps(c: Clock, pub: Path, formats: seq<string>, cur: Option<map<string, Json>>,
                         stem: string, s: Stills.Source, prev: seq<Json>, i: nat,
                         c2: Clock, pub2: Path, formats2: seq<string>, s2: Stills.Source)
    requires LegacyRecordOf(c, pub, formats, cur, stem, s).id == Str(stem)
    requires i < |prev| && prev[i] == Obj(LegacyJson(LegacyRecordOf(c, pub, formats, cur, stem, s)))
    requires forall j :: i < j < |prev| ==> !Stills.HasKey(prev[j], "id", stem)
    ensures LegacyPrior(prev, stem).Ok? && LegacyPrior(prev, stem).value.Some?
    ensures var r := LegacyRecordOf(c, pub, formats, cur, stem, s);
            var r2 := LegacyRecordOf(c2, pub2, formats2, LegacyPrior(prev, stem).value, stem, s2);
            r2.id == r.id && r2.createdAt == r.createdAt && r2.human == r.human && r2.rights == r.rights
  {
    var r := LegacyRecordOf(c, pub, formats, cur, stem, s);
    LegacyJsonFields(r);
    assert Stills.HasKey(prev[i], "id", stem);
    LegacyPriorById(prev, stem, i);
    HumanRoundTrip(r.human, LegacyJson(r));
  }

  /** No character of a ULID is a `/` or a `.`. */
  lemma UlidHasNoSeparators(id: string)
    requires IsUlidLike(id)
    ensures '/' !in id && '.' !in id
  {
    forall k | 0 <= k < |id| ensures id[k] != '/' && id[k] != '.' {
      assert CrockfordChar(id[k]);
    }
  }

  /** The fallback search for stem `stem` cannot match the small WebP URL
      of another id: `/assets/s/<id>.webp` does not contain `/<stem>.webp`. */
  lemma NoOtherStemInUrl(id: string, stem: string)
    requires '/' !in id && '.' !in id && '/' !in stem && stem != id
    ensures !Contains("/assets/s/" + id + ".webp", "/" + stem + ".webp")
  {
    var u := "/assets/s/" + id + ".webp";
    var sub := "/" + stem + ".webp";
    ContainsAt(u, sub);
    forall i | OccursAt(u, sub, i) ensures false {
      NotAt(id, stem, i);
    }
  }

  /** One character of an occurrence. */
  lemma OccursChar(s: string, sub: string, i: int, k: int)
    requires OccursAt(s, sub, i) && 0 <= k < |sub|
    ensures s[i + k] == sub[k]
  {
    assert s[i..i + |sub|][k] == s[i + k];
  }

  /** The characters of the small WebP URL. */
  lemma UrlChars(id: string)
    ensures var u := "/assets/s/" + id + ".webp";
            && |u| == 15 + |id|
            && u[0] == '/' && u[1] == 'a' && u[2] == 's' && u[7] == '/' && u[8] == 's' && u[9] == '/'
            && (forall k :: 1 <= k < 7 ==> u[k] != '/' && u[k] != '.')
            && (forall k :: 10 <= k < 10 + |id| ==> u[k] == id[k - 10])
            && u[10 + |id|] == '.' && (forall k :: 11 + |id| <= k < 15 + |id| ==> u[k] != '/')
  {
  }

  /** The characters of the searched suffix. */
  lemma SubChars(stem: string)
    ensures var sub := "/" + stem + ".webp";
            && |sub| == 6 + |stem| && sub[0] == '/'
            && (forall k :: 1 <= k <= |stem| ==> sub[k] == stem[k - 1])
            && sub[1 + |stem|] == '.' && sub[2 + |stem|] == 'w'
  {
  }

  lemma NotAt(id: string, stem: string, i: int)
    requires '/' !in id && '.' !in id && '/' !in stem && stem != id
    ensures !OccursAt("/assets/s/" + id + ".webp", "/" + stem + ".webp", i)
  {
    var u := "/assets/s/" + id + ".webp";
    var sub := "/" + stem + ".webp";
    if OccursAt(u, sub, i) {
      UrlChars(id);
      SubChars(stem);
      OccursChar(u, sub, i, 0);
      if i == 0 {
        if |stem| >= 6 {
          OccursChar(u, sub, i, 7);
        } else {
          OccursChar(u, sub, i, |stem| + 1);
        }
      } else if i == 7 {
        OccursChar(u, sub, i, 2);
      } else if i == 9 {
        if |stem| < |id| {
          OccursChar(u, sub, i, |stem| + 1);
        } else {
          forall k | 0 <= k < |stem| ensures stem[k] == id[k] {
            OccursChar(u, sub, i, k + 1);
          }
          OccursChar(u, sub, i, |stem| + 1);
        }
      }
    }
  }

  /** The small WebP URL the legacy script writes for an id. */
  lemma SmallWebpUrl(pub: Path, id: string, formats: seq<string>)
    requires "webp" in formats && PlainSegment(id + ".webp")
    ensures Get(LegacyTierUrls(pub, id, formats, "s"), "webp") == Some(Str("/assets/s/" + id + ".webp"))
  {
    var dst := pub + ["s", id + ".webp"];
    assert id + "." + "webp" == id + ".webp";
    UrlFromPubPlain(pub, "s", id + ".webp");
    assert "/assets/" + "s" + "/" + (id + ".webp") == "/assets/s/" + id + ".webp";
    var m := map f | f in formats :: Str(UrlFromPub(pub, pub + ["s", id + "." + f]));
    assert m["webp"] == Str(UrlFromPub(pub, dst));
  }

  /** A record whose id was minted (its file is not named by a ULID) is
      never found again: not by id, whose value is the ULID and not the
      stem, and not by the fallback search, whose URL holds the ULID too.
      The next run therefore starts that input afresh, and hand edits of
      the record are dropped, whatever they were. */
  lemma MintedRecordLost(pub: Path, id: string, formats: seq<string>, edited: map<string, Json>, stem: string)
    requires IsUlidLike(id) && !IsUlidLike(stem) && '/' !in stem && "webp" in formats
    requires "id" in edited && edited["id"] == Str(id)
    requires "sizes" in edited && edited["sizes"] == LegacySizes(pub, id, formats)
    ensures LegacyPrior([Obj(edited)], stem) == Ok(None)
  {
    UlidFileName(id);
    assert id != stem;
    assert !Stills.HasKey(Obj(edited), "id", stem);
    EditedSmallWebp(pub, id, formats, edited);
    NoOtherStemInUrl(id, stem);
    MissesBySmallWebp(Obj(edited), "/assets/s/" + id + ".webp", stem);
    NotFoundAlone(Obj(edited), stem);
  }

  /** A record without the stem as its id, whose small WebP is a string
      without the stem's file name, neither matches nor throws. */
  lemma MissesBySmallWebp(r: Json, url: string, stem: string)
    requires !Stills.HasKey(r, "id", stem)
    requires Stills.SmallWebp(r) == Some(Str(url)) && !Contains(url, "/" + stem + ".webp")
    ensures !LegacyHit(r, stem) && !LegacyThrows(r, stem)
  {
  }

  /** A ULID names a plain file, and contains neither `/` nor `.`. */
  lemma UlidFileName(id: string)
    requires IsUlidLike(id)
    ensures '/' !in id && '.' !in id && PlainSegment(id + ".webp")
  {
    UlidHasNoSeparators(id);
    assert (id + ".webp")[|id|] == '.';
    forall k | 0 <= k < |id + ".webp"| ensures (id + ".webp")[k] != '/' {
      if k < |id| {
        assert (id + ".webp")[k] == id[k];
      }
    }
  }

  /** `r.sizes?.s?.webp` of a record the legacy script wrote. */
  lemma EditedSmallWebp(pub: Path, id: string, formats: seq<string>, edited: map<string, Json>)
    requires "webp" in formats && PlainSegment(id + ".webp")
    requires "sizes" in edited && edited["sizes"] == LegacySizes(pub, id, formats)
    ensures Stills.SmallWebp(Obj(edited)) == Some(Str("/assets/s/" + id + ".webp"))
  {
    SmallWebpUrl(pub, id, formats);
    assert Get(LegacySizes(pub, id, formats), "s") == Some(LegacyTierUrls(pub, id, formats, "s"));
  }

  /** A prior index of one record that neither matches nor throws finds
      nothing. */
  lemma NotFoundAlone(r: Json, stem: string)
    requires !LegacyHit(r, stem) && !LegacyThrows(r, stem)
    ensures LegacyPrior([r], stem) == Ok(None)
  {
    Stills.KeyedByLast([r], "id", stem);
  }
}
