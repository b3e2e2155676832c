/** `runStillsPipeline` (scripts/pipeline/stills.mjs): for every source
    image, find the record the previous index holds for it, decide which of
    its sixteen-or-so outputs need rebuilding, and write a new record that
    keeps the prior id, dates and hand-edited fields; then sort the index.
    Image encoding, metadata reads and LQIP generation are inputs here
    (`Source`), and so are the clock and the id minting (`Clock`). */
module Stills {
  import opened Wrappers
  import opened Strings
  import opened Paths
  import opened JsonValues
  import opened Sorting
  import opened ImageIndex
  import opened Arith

  // ---------------------------------------------------------------------
  // URLs

  /** `sanitizeBasePath`: one leading `/` dropped; nothing left means "assets". */
  function SanitizeBasePath(basePath: string): (r: string)
    ensures r != ""
    ensures r == "assets" || r == basePath || "/" + r == basePath
    ensures basePath != "" && basePath[0] != '/' ==> r == basePath
    ensures |basePath| > 1 && basePath[0] == '/' ==> r == basePath[1..]
  {
    if basePath == "" then "assets"
    else
      var trimmed := if basePath[0] == '/' then basePath[1..] else basePath;
      if trimmed == "" then "assets" else trimmed
  }

  /** The function `makeUrlBuilder(outputDir, publicBasePath)` returns. */
  function MakeUrl(outDir: Path, publicBasePath: string, dst: Path): string
  {
    UrlOf(outDir, SanitizeBasePath(publicBasePath), dst)
  }

  /** With the default base `/assets`, an output `<tier>/<name>` is served
      at `/assets/<tier>/<name>`. */
  lemma DefaultUrl(outDir: Path, tier: string, name: string)
    requires PlainSegment(tier) && PlainSegment(name)
    ensures MakeUrl(outDir, "/assets", outDir + [tier, name]) == "/assets/" + tier + "/" + name
  {
    DefaultMakeUrl(outDir, outDir + [tier, name]);
    AssetsUrl(outDir, tier, name);
  }

  /** The builder for `/assets` is the URL below `assets`. */
  lemma DefaultMakeUrl(outDir: Path, dst: Path)
    ensures MakeUrl(outDir, "/assets", dst) == UrlOf(outDir, "assets", dst)
  {
    DefaultBase();
  }

  /** Below `assets`, the output `<tier>/<name>` is `/assets/<tier>/<name>`. */
  lemma AssetsUrl(outDir: Path, tier: string, name: string)
    requires PlainSegment(tier) && PlainSegment(name)
    ensures UrlOf(outDir, "assets", outDir + [tier, name]) == "/assets/" + tier + "/" + name
  {
    SplitNoSeparator("assets", '/');
    UrlPlain(outDir, "assets", [tier, name]);
    AssetsPath(Join([tier, name], "/"), tier, name);
  }

  /** The text of the URL `/assets/<tier>/<name>`. */
  lemma AssetsPath(j: string, tier: string, name: string)
    requires j == Join([tier, name], "/")
    ensures "/" + "assets" + "/" + j == "/assets/" + tier + "/" + name
  {
    JoinCons(tier, [name], "/");
    assert [tier] + [name] == [tier, name];
    assert "/" + "assets" + "/" == "/assets/";
  }

  /** The default base `/assets` is served below `assets`. */
  lemma DefaultBase()
    ensures SanitizeBasePath("/assets") == "assets"
  {
    assert "/assets"[1..] == "assets";
  }

  /** `urls[tier]`: every format's URL in one tier. */
  function TierUrls(outDir: Path, publicBasePath: string, id: string, formats: seq<string>, tier: string): Json
  {
    Obj(map f | f in formats :: Str(MakeUrl(outDir, publicBasePath, outDir + [tier, id + "." + f])))
  }

  /** `urls`: for every tier, every format's URL. */
  function Sizes(outDir: Path, publicBasePath: string, id: string, formats: seq<string>): Json
  {
    Obj(map t | t in Tiers :: TierUrls(outDir, publicBasePath, id, formats, t))
  }

  // ---------------------------------------------------------------------
  // cover source

  /** The eight places `preferCoverSrc` looks, in its order. */
  function CoverOrder(sizes: Json): seq<Option<Json>>
  {
    [Get2(sizes, "s", "avif"), Get2(sizes, "s", "webp"), Get2(sizes, "s2x", "avif"), Get2(sizes, "s2x", "webp"),
     Get2(sizes, "l", "avif"), Get2(sizes, "l", "webp"), Get2(sizes, "l2x", "avif"), Get2(sizes, "l2x", "webp")]
  }

  /** The first non-empty string of a list, or "". */
  function FirstSrc(cands: seq<Option<Json>>): (r: string)
    ensures r == "" <==> forall i :: 0 <= i < |cands| ==> !NonEmptyStr(cands[i])
    ensures r != "" ==> exists i :: 0 <= i < |cands| && cands[i] == Some(Str(r))
                                    && forall j :: 0 <= j < i ==> !NonEmptyStr(cands[j])
  {
    if |cands| == 0 then ""
    else if NonEmptyStr(cands[0]) then
      assert cands[0] == Some(Str(cands[0].value.s));
      cands[0].value.s
    else
      var r := FirstSrc(cands[1..]);
      assert forall i :: 1 <= i < |cands| ==> cands[i] == cands[1..][i - 1];
      if r != "" then
        var i :| 0 <= i < |cands[1..]| && cands[1..][i] == Some(Str(r))
                 && forall j :: 0 <= j < i ==> !NonEmptyStr(cands[1..][j]);
        assert cands[i + 1] == Some(Str(r));
        r
      else r
  }

  /** `preferCoverSrc(sizes)`: the first non-empty string among the eight
      places, or "" when there is none or `sizes` is not an object. */
  function PreferCoverSrc(sizes: Json): (r: string)
    ensures !IsObject(sizes) ==> r == ""
    ensures r == "" <==> forall i :: 0 <= i < 8 ==> !NonEmptyStr(CoverOrder(sizes)[i])
    ensures r != "" ==> exists i :: 0 <= i < 8 && CoverOrder(sizes)[i] == Some(Str(r))
                                    && forall j :: 0 <= j < i ==> !NonEmptyStr(CoverOrder(sizes)[j])
  {
    if !IsObject(sizes) then "" else FirstSrc(CoverOrder(sizes))
  }

  /** When AVIF is among the formats, the cover is the small AVIF. */
  lemma CoverIsSmallAvif(outDir: Path, publicBasePath: string, id: string, formats: seq<string>)
    requires "avif" in formats
    ensures PreferCoverSrc(Sizes(outDir, publicBasePath, id, formats))
            == MakeUrl(outDir, publicBasePath, outDir + ["s", id + ".avif"])
  {
    var sizes := Sizes(outDir, publicBasePath, id, formats);
    var dst := outDir + ["s", id + ".avif"];
    assert "." + "avif" == ".avif";
    assert id + "." + "avif" == id + ".avif";
    assert dst == outDir + ["s", id + "." + "avif"];
    var u := MakeUrl(outDir, publicBasePath, dst);
    SizesAt(outDir, publicBasePath, id, formats, "s", "avif");
    assert Get2(sizes, "s", "avif") == Some(Str(u));
    assert NonEmptyStr(CoverOrder(sizes)[0]);
  }

  /** `urls[tier][f]` is the URL of `<tier>/<id>.<f>` for each tier and
      format. */
  lemma SizesAt(outDir: Path, publicBasePath: string, id: string, formats: seq<string>, tier: string, f: string)
    requires tier in Tiers && f in formats
    ensures Get2(Sizes(outDir, publicBasePath, id, formats), tier, f)
            == Some(Str(MakeUrl(outDir, publicBasePath, outDir + [tier, id + "." + f])))
  {
    var small := TierUrls(outDir, publicBasePath, id, formats, tier);
    assert Get(Sizes(outDir, publicBasePath, id, formats), tier) == Some(small);
  }

  // ---------------------------------------------------------------------
  // finding the prior record

  /** The records of a list by the string value of one of their properties,
      as `new Map(list.map(r => [r[key], r]))` holds them for string keys:
      a later record replaces an earlier one with the same value. */
  function KeyedBy(prev: seq<Json>, key: string): map<string, map<string, Json>>
  {
    if |prev| == 0 then map[]
    else
      var m := KeyedBy(prev[..|prev| - 1], key);
      var r := prev[|prev| - 1];
      match Get(r, key)
      case Some(Str(v)) => m[v := r.fields]
      case _ => m
  }

  predicate HasKey(r: Json, key: string, v: string)
  {
    Get(r, key) == Some(Str(v))
  }

  /** The map holds a value exactly when some record carries it, and then
      it holds the LAST such record. */
  lemma {:induction false} KeyedByLast(prev: seq<Json>, key: string, v: string)
    ensures v in KeyedBy(prev, key) <==> exists i :: 0 <= i < |prev| && HasKey(prev[i], key, v)
    ensures v in KeyedBy(prev, key) ==>
      exists i :: 0 <= i < |prev| && HasKey(prev[i], key, v) && prev[i] == Obj(KeyedBy(prev, key)[v])
                  && forall j :: i < j < |prev| ==> !HasKey(prev[j], key, v)
    decreases |prev|
  {
    if |prev| > 0 {
      var init := prev[..|prev| - 1];
      var r := prev[|prev| - 1];
      KeyedByLast(init, key, v);
      assert forall i :: 0 <= i < |init| ==> init[i] == prev[i];
      if HasKey(r, key, v) {
        assert prev[|prev| - 1] == Obj(KeyedBy(prev, key)[v]);
      }
    }
  }

  /** Where the thumbnail of a record points: `r.sizes?.s?.webp`. */
  function SmallWebp(r: Json): Option<Json>
  {
    match Get2(r, "sizes", "s")
    case None => None
    case Some(s) => Get(s, "webp")
  }

  /** The record names this stem's small WebP output. */
  predicate MentionsWebp(r: Json, stem: string)
  {
    NonEmptyStr(SmallWebp(r)) && Contains(SmallWebp(r).value.s, "/" + stem + ".webp")
  }

  /** The test of the `prevRecords.find` fallback. */
  predicate Fallback(r: Json, stem: string)
  {
    HasKey(r, "id", stem) || MentionsWebp(r, stem)
  }

  /** `prevRecords.find(...)`: the first record that passes the fallback test. */
  function FindFallback(prev: seq<Json>, stem: string): (r: Option<nat>)
    ensures r.Some? ==> r.value < |prev| && Fallback(prev[r.value], stem)
                        && forall j :: 0 <= j < r.value ==> !Fallback(prev[j], stem)
    ensures r.None? ==> forall j :: 0 <= j < |prev| ==> !Fallback(prev[j], stem)
  {
    if |prev| == 0 then None
    else if Fallback(prev[0], stem) then Some(0)
    else
      var r := FindFallback(prev[1..], stem);
      assert forall j :: 1 <= j < |prev| ==> prev[j] == prev[1..][j - 1];
      if r.Some? then Some(r.value + 1) else None
  }

  /** The first record that names this stem's small WebP output. */
  function FindWebp(prev: seq<Json>, stem: string): (r: Option<nat>)
    ensures r.Some? ==> r.value < |prev| && MentionsWebp(prev[r.value], stem)
                        && forall j :: 0 <= j < r.value ==> !MentionsWebp(prev[j], stem)
    ensures r.None? ==> forall j :: 0 <= j < |prev| ==> !MentionsWebp(prev[j], stem)
  {
    if |prev| == 0 then None
    else if MentionsWebp(prev[0], stem) then Some(0)
    else
      var r := FindWebp(prev[1..], stem);
      assert forall j :: 1 <= j < |prev| ==> prev[j] == prev[1..][j - 1];
      if r.Some? then Some(r.value + 1) else None
  }

  /** The `r.id === stem` half of the fallback can never fire: it is only
      reached when no record has that id, so the fallback is the WebP test
      alone. */
  lemma FallbackIsWebpOnly(prev: seq<Json>, stem: string)
    requires stem !in KeyedBy(prev, "id")
    ensures FindFallback(prev, stem) == FindWebp(prev, stem)
  {
    KeyedByLast(prev, "id", stem);
    SameSearch(prev, stem);
  }

  lemma {:induction false} SameSearch(prev: seq<Json>, stem: string)
    requires forall j :: 0 <= j < |prev| ==> !HasKey(prev[j], "id", stem)
    ensures FindFallback(prev, stem) == FindWebp(prev, stem)
  {
    if |prev| > 0 {
      assert forall j :: 1 <= j < |prev| ==> prev[j] == prev[1..][j - 1];
      SameSearch(prev[1..], stem);
    }
  }

  /** The prior record of an input: by source path, else by id, else by
      the fallback search. */
  function ResolvePrior(prev: seq<Json>, rel: string, stem: string): (cur: Option<map<string, Json>>)
  {
    var bySource := KeyedBy(prev, "source");
    var byId := KeyedBy(prev, "id");
    if rel in bySource then Some(bySource[rel])
    else if stem in byId then Some(byId[stem])
    else
      match FindFallback(prev, stem)
      case None => None
      case Some(k) => Some(prev[k].fields)
  }

  /** A record carrying the input's source path is always the one found,
      and the last of them wins. */
  lemma ResolveBySource(prev: seq<Json>, rel: string, stem: string, i: nat)
    requires i < |prev| && HasKey(prev[i], "source", rel)
    requires forall j :: i < j < |prev| ==> !HasKey(prev[j], "source", rel)
    ensures ResolvePrior(prev, rel, stem) == Some(prev[i].fields)
  {
    KeyedByLast(prev, "source", rel);
    var k :| 0 <= k < |prev| && HasKey(prev[k], "source", rel) && prev[k] == Obj(KeyedBy(prev, "source")[rel])
             && forall j :: k < j < |prev| ==> !HasKey(prev[j], "source", rel);
    assert k == i;
  }

  // ---------------------------------------------------------------------
  // per-record rules

  /** What the image library and the file system say about one source. */
  datatype Source = Source(mtime: int, width: Option<nat>, height: Option<nat>, lqip: Json)

  /** `sortKey`: a prior numeric key survives as long as the prior record
      had a `createdAt`; otherwise it is the epoch of `createdAt`. */
  function SortKey(c: Clock, cur: Option<map<string, Json>>, mtime: int): (r: int)
    ensures (Field(cur, "createdAt").Some? && Field(cur, "createdAt").value != Null
             && Field(cur, "sortKey").Some? && Field(cur, "sortKey").value.Num?)
            ==> r == Field(cur, "sortKey").value.n
    ensures !(Field(cur, "createdAt").Some? && Field(cur, "createdAt").value != Null
              && Field(cur, "sortKey").Some? && Field(cur, "sortKey").value.Num?)
            ==> r == Epoch(c, CreatedAt(c, cur, mtime))
  {
    var createdAt := CreatedAt(c, cur, mtime);
    var prevCreatedAt := Field(cur, "createdAt");
    var prevSortKey := Field(cur, "sortKey");
    var createdEpoch := Epoch(c, createdAt);
    if cur.Some? then
      if prevCreatedAt == Some(createdAt) && prevSortKey.Some? && prevSortKey.value.Num? then prevSortKey.value.n
      else createdEpoch
    else createdEpoch
  }

  /** `kind`: a prior non-empty string, else "image". */
  function Kind(keep: map<string, Json>): (r: string)
    ensures r != ""
    ensures NonEmptyStr(Field(Some(keep), "kind")) ==> r == keep["kind"].s
    ensures !NonEmptyStr(Field(Some(keep), "kind")) ==> r == "image"
  {
    if NonEmptyStr(Field(Some(keep), "kind")) then keep["kind"].s else "image"
  }

  /** The objects among a list (`filter(a => a && typeof a === 'object')`). */
  function Objects(items: seq<Json>): (r: seq<Json>)
    ensures |r| <= |items|
    ensures forall i :: 0 <= i < |r| ==> IsObject(r[i])
    ensures forall x :: x in r <==> x in items && IsObject(x)
  {
    if |items| == 0 then []
    else (if IsObject(items[0]) then [items[0]] else []) + Objects(items[1..])
  }

  /** `prevAssetsRaw`: the prior record's assets that are objects. */
  function PriorAssets(keep: map<string, Json>): seq<Json>
  {
    match Field(Some(keep), "assets")
    case Some(Arr(items)) => Objects(items)
    case _ => []
  }

  /** An asset with the same id (compared as text) or the same source. */
  predicate AssetMatches(a: Json, idText: string, rel: string)
  {
    (Get(a, "id").Some? && ToStr(Get(a, "id").value) == idText) || HasKey(a, "source", rel)
  }

  /** Asset `k` is the first that matches. */
  predicate FirstMatchAt(assets: seq<Json>, idText: string, rel: string, k: int)
  {
    0 <= k < |assets| && AssetMatches(assets[k], idText, rel)
    && forall j :: 0 <= j < k ==> !AssetMatches(assets[j], idText, rel)
  }

  function FirstMatch(assets: seq<Json>, idText: string, rel: string): (r: Option<nat>)
    ensures r.Some? ==> FirstMatchAt(assets, idText, rel, r.value)
    ensures r.None? ==> forall j :: 0 <= j < |assets| ==> !AssetMatches(assets[j], idText, rel)
  {
    if |assets| == 0 then None
    else if AssetMatches(assets[0], idText, rel) then Some(0)
    else
      var r := FirstMatch(assets[1..], idText, rel);
      assert forall j :: 1 <= j < |assets| ==> assets[j] == assets[1..][j - 1];
      if r.Some? then Some(r.value + 1) else None
  }

  /** `assetId`: the matched asset's own non-empty string id, else the record id. */
  function AssetId(raw: seq<Json>, id: Json, rel: string): Json
  {
    match FirstMatch(raw, ToStr(id), rel)
    case Some(k) => if NonEmptyStr(Get(raw[k], "id")) then Get(raw[k], "id").value else id
    case None => id
  }

  /** `imageAsset`. */
  function ImageAsset(assetId: Json, rel: string, src: Source, urls: Json): Patch
  {
    map["id" := Some(assetId), "kind" := Some(Str("image")), "source" := Some(Str(rel)),
        "w" := OptNum(src.width), "h" := OptNum(src.height), "lqip" := Some(src.lqip), "sizes" := Some(urls)]
  }

  /** The copies `{...a}` of a list of assets. */
  function Copies(raw: seq<Json>): (r: seq<map<string, Json>>)
    ensures |r| == |raw| && forall i :: 0 <= i < |r| ==> r[i] == Spread(raw[i])
  {
    seq(|raw|, i requires 0 <= i < |raw| => Spread(raw[i]))
  }

  /** The new `assets`. For kind "image": the first prior asset that
      matches the image asset is updated with it and every other is copied;
      when none matches, the image asset is appended. For any other kind:
      the prior assets are copied, or the image asset stands alone when
      there were none. */
  function MergedAssets(kind: string, raw: seq<Json>, assetId: Json, image: Patch, rel: string): seq<map<string, Json>>
  {
    if kind == "image" then
      match FirstMatch(raw, ToStr(assetId), rel)
      case Some(k) => Copies(raw)[k := Apply(Spread(raw[k]), image)]
      case None => Copies(raw) + [Written(image)]
    else if |raw| > 0 then Copies(raw)
    else [Written(image)]
  }

  /** The `assets` construction as the script runs it, with its `replaced`
      flag. */
  method MergeAssets(kind: string, raw: seq<Json>, assetId: Json, image: Patch, rel: string)
    returns (assets: seq<map<string, Json>>)
    ensures assets == MergedAssets(kind, raw, assetId, image, rel)
  {
    var t := ToStr(assetId);
    if kind == "image" {
      var replaced := false;
      assets := [];
      var i := 0;
      while i < |raw|
        invariant 0 <= i <= |raw| && |assets| == i
        invariant replaced <==> exists j :: 0 <= j < i && AssetMatches(raw[j], t, rel)
        invariant forall j :: 0 <= j < i ==>
          assets[j] == if FirstMatchAt(raw, t, rel, j) then Apply(Spread(raw[j]), image) else Spread(raw[j])
      {
        var a := raw[i];
        if !replaced && AssetMatches(a, t, rel) {
          replaced := true;
          assert FirstMatchAt(raw, t, rel, i);
          assets := assets + [Apply(Spread(a), image)];
        } else {
          assert !FirstMatchAt(raw, t, rel, i);
          assets := assets + [Spread(a)];
        }
        i := i + 1;
      }
      if !replaced {
        assets := assets + [Written(image)];
      }
      ghost var m := FirstMatch(raw, t, rel);
      if m.Some? {
        assert FirstMatchAt(raw, t, rel, m.value);
        forall j | 0 <= j < |raw| && j != m.value ensures !FirstMatchAt(raw, t, rel, j) {
          if j < m.value {
          } else {
            assert AssetMatches(raw[m.value], t, rel);
          }
        }
        assert assets == Copies(raw)[m.value := Apply(Spread(raw[m.value]), image)];
      } else {
        assert assets == Copies(raw) + [Written(image)];
      }
    } else if |raw| > 0 {
      assets := [];
      var i := 0;
      while i < |raw|
        invariant 0 <= i <= |raw| && assets == Copies(raw[..i])
      {
        assets := assets + [Spread(raw[i])];
        i := i + 1;
      }
      assert raw[..i] == raw;
    } else {
      assets := [Written(image)];
    }
  }

  /** For kind "image" the image asset always ends up in the list: some
      entry carries every property it defines. */
  lemma ImageAssetKept(raw: seq<Json>, assetId: Json, image: Patch, rel: string)
    ensures var r := MergedAssets("image", raw, assetId, image, rel);
            (|r| == |raw| || |r| == |raw| + 1)
            && exists k :: 0 <= k < |r| && forall p :: p in image && image[p].Some? ==> p in r[k] && r[k][p] == image[p].value
  {
    var r := MergedAssets("image", raw, assetId, image, rel);
    match FirstMatch(raw, ToStr(assetId), rel)
    case Some(k) =>
      assert r[k] == Apply(Spread(raw[k]), image);
    case None =>
      assert r[|raw|] == Written(image);
  }

  /** `prevCover`: the prior cover when it is an object. */
  function PriorCover(keep: map<string, Json>): Option<map<string, Json>>
  {
    var c := Field(Some(keep), "cover");
    if Truthy(c) && IsObject(c.value) then Some(Spread(c.value)) else None
  }

  /** `defaultCover`. */
  function DefaultCover(assetId: Json, src: string, s: Source, urls: Json): Patch
  {
    map["kind" := Some(Str("image")), "assetId" := Some(assetId), "src" := Some(Str(src)),
        "w" := OptNum(s.width), "h" := OptNum(s.height), "lqip" := Some(s.lqip), "sizes" := Some(urls)]
  }

  /** `src` and `kind` are replaced when falsy; the other properties only
      fill gaps. */
  predicate Refreshed(k: string)
  {
    k == "src" || k == "kind"
  }

  /** The default has a usable value for a missing property: any value for
      `src` and `kind`, a number for `w` and `h`, a truthy one otherwise. */
  predicate Fills(dc: Patch, k: string)
  {
    k in dc && dc[k].Some?
    && (Refreshed(k) || (if k == "w" || k == "h" then dc[k].value.Num? else Truthy(dc[k])))
  }

  /** The properties the default cover may fill in, in the order the
      script visits them. */
  const CoverKeys: seq<string> := ["src", "kind", "assetId", "sizes", "w", "h", "lqip"]

  /** One step of the completion: property `k` is taken from the default
      when it is missing (or, for `src` and `kind`, falsy) and the default
      has a usable value for it. */
  function FillOne(c: map<string, Json>, dc: Patch, k: string): map<string, Json>
  {
    if (k !in c || (Refreshed(k) && !Truthy(Some(c[k])))) && Fills(dc, k) then c[k := dc[k].value] else c
  }

  /** The steps for `keys`, one after the other. */
  function FillFrom(c: map<string, Json>, dc: Patch, keys: seq<string>): map<string, Json>
    decreases |keys|
  {
    if |keys| == 0 then c else FillFrom(FillOne(c, dc, keys[0]), dc, keys[1..])
  }

  /** What the steps keep and what they add. */
  lemma {:induction false} FillFromProps(c: map<string, Json>, dc: Patch, keys: seq<string>)
    ensures var r := FillFrom(c, dc, keys);
      && (forall k :: k in c ==> k in r)
      && (forall k :: k in c && !Refreshed(k) ==> r[k] == c[k])
      && (forall k :: k in c && Truthy(Some(c[k])) ==> r[k] == c[k])
      && (forall k :: k in keys && Fills(dc, k) ==> k in r)
      && (forall k :: k in c && k !in keys ==> r[k] == c[k])
      && (forall k :: (k in c && k in keys && Refreshed(k) && !Truthy(Some(c[k])) && Fills(dc, k))
                      ==> r[k] == dc[k].value)
      && (forall k :: k in r && k !in c ==> k in keys && Fills(dc, k) && r[k] == dc[k].value)
    decreases |keys|
  {
    if |keys| > 0 {
      var c1 := FillOne(c, dc, keys[0]);
      FillFromProps(c1, dc, keys[1..]);
      assert forall k :: k in keys ==> k == keys[0] || k in keys[1..];
    }
  }

  /** A prior cover completed from the default: every prior property
      stays, except that a falsy `src` or `kind` is replaced, and a missing
      property is taken from the default when it has a usable value. */
  function FilledCover(pc: map<string, Json>, dc: Patch): (r: map<string, Json>)
    requires Fills(dc, "src") && Fills(dc, "kind")
    ensures forall k :: k in pc ==> k in r
    ensures forall k :: k in pc && !Refreshed(k) ==> r[k] == pc[k]
    ensures forall k :: k in pc && Truthy(Some(pc[k])) ==> r[k] == pc[k]
    ensures forall k :: k in pc && Refreshed(k) && !Truthy(Some(pc[k])) ==> r[k] == dc[k].value
    ensures "src" in r && "kind" in r
    ensures forall k :: k in r && k !in pc ==> k in CoverKeys && Fills(dc, k) && r[k] == dc[k].value
  {
    FillFromProps(pc, dc, CoverKeys);
    FillFrom(pc, dc, CoverKeys)
  }

  /** The completion spelled out step by step. */
  lemma FilledCoverSteps(pc: map<string, Json>, dc: Patch)
    requires Fills(dc, "src") && Fills(dc, "kind")
    ensures FilledCover(pc, dc)
            == FillOne(FillOne(FillOne(FillOne(FillOne(FillOne(FillOne(pc, dc, "src"), dc, "kind"),
                 dc, "assetId"), dc, "sizes"), dc, "w"), dc, "h"), dc, "lqip")
  {
    assert CoverKeys[1..] == ["kind", "assetId", "sizes", "w", "h", "lqip"];
    assert CoverKeys[2..] == ["assetId", "sizes", "w", "h", "lqip"];
    assert CoverKeys[3..] == ["sizes", "w", "h", "lqip"];
    assert CoverKeys[4..] == ["w", "h", "lqip"];
    assert CoverKeys[5..] == ["h", "lqip"];
    assert CoverKeys[6..] == ["lqip"];
  }

  /** Which properties the default cover can fill, and with what. */
  lemma DefaultCoverFills(assetId: Json, src: string, s: Source, urls: Json)
    requires urls.Obj?
    ensures var dc := DefaultCover(assetId, src, s, urls);
      && Fills(dc, "src") && dc["src"].value == Str(src)
      && Fills(dc, "kind") && dc["kind"].value == Str("image")
      && (Fills(dc, "assetId") <==> Truthy(Some(assetId))) && dc["assetId"].value == assetId
      && Fills(dc, "sizes") && dc["sizes"].value == urls
      && (Fills(dc, "w") <==> s.width.Some?) && (s.width.Some? ==> dc["w"].value == Num(s.width.value))
      && (Fills(dc, "h") <==> s.height.Some?) && (s.height.Some? ==> dc["h"].value == Num(s.height.value))
      && (Fills(dc, "lqip") <==> Truthy(Some(s.lqip))) && dc["lqip"].value == s.lqip
  {
  }

  /** `if (!cover[k]) cover[k] = v` for `src` and `kind`. */
  method FillIfFalsy(c: map<string, Json>, ghost dc: Patch, k: string, v: Json) returns (r: map<string, Json>)
    requires Refreshed(k) && Fills(dc, k) && dc[k].value == v
    ensures r == FillOne(c, dc, k)
  {
    r := c;
    if k !in c || !Truthy(Some(c[k])) {
      r := c[k := v];
    }
  }

  /** `if (!(k in cover) && usable) cover[k] = v` for the other properties. */
  method FillIfMissing(c: map<string, Json>, ghost dc: Patch, k: string, v: Json, usable: bool)
    returns (r: map<string, Json>)
    requires !Refreshed(k) && (usable <==> Fills(dc, k)) && (usable ==> dc[k].value == v)
    ensures r == FillOne(c, dc, k)
  {
    r := c;
    if k !in c && usable {
      r := c[k := v];
    }
  }

  /** The field-by-field completion of a prior cover, as the script does it. */
  method FillCover(pc: map<string, Json>, assetId: Json, src: string, s: Source, urls: Json)
    returns (cover: map<string, Json>)
    requires urls.Obj?
    ensures cover == FilledCover(pc, DefaultCover(assetId, src, s, urls))
  {
    ghost var dc := DefaultCover(assetId, src, s, urls);
    DefaultCoverFills(assetId, src, s, urls);
    cover := FillIfFalsy(pc, dc, "src", Str(src));
    cover := FillIfFalsy(cover, dc, "kind", Str("image"));
    cover := FillIfMissing(cover, dc, "assetId", assetId, Truthy(Some(assetId)));
    cover := FillIfMissing(cover, dc, "sizes", urls, true);
    cover := FillIfMissing(cover, dc, "w", Num(s.width.GetOr(0)), s.width.Some?);
    cover := FillIfMissing(cover, dc, "h", Num(s.height.GetOr(0)), s.height.Some?);
    cover := FillIfMissing(cover, dc, "lqip", s.lqip, Truthy(Some(s.lqip)));
    FilledCoverSteps(pc, dc);
  }

  /** `cover`: for kind "image" the default wins over the prior cover; for
      another kind a prior cover is completed; with no prior cover the
      default is used. */
  function Cover(kind: string, pc: Option<map<string, Json>>, dc: Patch): map<string, Json>
    requires Fills(dc, "src") && Fills(dc, "kind")
  {
    if kind == "image" then Apply(pc.GetOr(map[]), dc)
    else if pc.Some? then FilledCover(pc.value, dc)
    else Written(dc)
  }


  /** The cover of a record. */
  function CoverFor(kind: string, keep: map<string, Json>, assetId: Json, s: Source, urls: Json): map<string, Json>
  {
    Cover(kind, PriorCover(keep), DefaultCover(assetId, PreferCoverSrc(urls), s, urls))
  }

  // ---------------------------------------------------------------------
  // one record

  /** A record of the index as `runStillsPipeline` writes it. `sortKey` is
      always a number here, so the order never falls back to `createdAt`. */
  datatype StillRecord = StillRecord(
    id: Json, kind: string, source: string, human: Human,
    createdAt: Json, sortKey: int,
    w: Option<nat>, h: Option<nat>, lqip: Json, sizes: Json,
    cover: map<string, Json>, assets: seq<map<string, Json>>)

  /** The run's options after their defaults (`formats` lower-cased). */
  datatype Settings = Settings(outDir: Path, formats: seq<string>, rebuildIfNewer: bool, publicBasePath: string)

  /** The record's id. */
  function IdFor(c: Clock, env: string -> Source, prev: seq<Json>, rel: string): Json
  {
    var stem := FileStem(rel);
    var cur := ResolvePrior(prev, rel, stem);
    AssignId(c, cur, stem, CreatedAt(c, cur, env(rel).mtime))
  }

  /** The record written for input `rel` (its path below the originals
      folder, with `/` separators). */
  function Record(st: Settings, c: Clock, env: string -> Source, prev: seq<Json>, rel: string): (r: StillRecord)
    ensures r.source == rel && r.id == IdFor(c, env, prev, rel)
    ensures r.id != Null && r.createdAt != Null && r.kind != ""
    ensures r.human.title != Null && r.human.alt != Null && r.human.series != Null && r.human.characters != Null
            && r.human.tags != Null && r.human.caption != Null && r.human.links != Null
  {
    var stem := FileStem(rel);
    var cur := ResolvePrior(prev, rel, stem);
    var s := env(rel);
    var createdAt := CreatedAt(c, cur, s.mtime);
    var id := AssignId(c, cur, stem, createdAt);
    var urls := Sizes(st.outDir, st.publicBasePath, ToStr(id), st.formats);
    var keep := cur.GetOr(map[]);
    var kind := Kind(keep);
    var raw := PriorAssets(keep);
    var assetId := AssetId(raw, id, rel);
    StillRecord(id, kind, rel, HumanOf(keep), createdAt, SortKey(c, cur, s.mtime),
                s.width, s.height, s.lqip, urls,
                CoverFor(kind, keep, assetId, s, urls),
                MergedAssets(kind, raw, assetId, ImageAsset(assetId, rel, s, urls), rel))
  }

  /** The record as the JSON object the index holds. */
  function ToJson(r: StillRecord): map<string, Json>
  {
    var m := Own(r);
    var m1 := if r.w.Some? then m["w" := Num(r.w.value)] else m;
    var m2 := if r.h.Some? then m1["h" := Num(r.h.value)] else m1;
    m2 + HumanJson(r.human)
  }

  /** The properties every written record has, apart from the hand-edited
      ones. */
  function Own(r: StillRecord): map<string, Json>
  {
    map["id" := r.id, "kind" := Str(r.kind), "source" := Str(r.source),
        "createdAt" := r.createdAt, "sortKey" := Num(r.sortKey), "lqip" := r.lqip, "sizes" := r.sizes,
        "cover" := Obj(r.cover),
        "assets" := Arr(seq(|r.assets|, i requires 0 <= i < |r.assets| => Obj(r.assets[i])))]
  }

  /** The record of input `rel`, built the way the script builds it. */
  method BuildRecord(st: Settings, c: Clock, env: string -> Source, prev: seq<Json>, rel: string)
    returns (r: StillRecord)
    ensures r == Record(st, c, env, prev, rel)
  {
    var stem := FileStem(rel);
    var cur := ResolvePrior(prev, rel, stem);
    var s := env(rel);
    var createdAt := CreatedAt(c, cur, s.mtime);
    var id := AssignId(c, cur, stem, createdAt);
    var urls := Sizes(st.outDir, st.publicBasePath, ToStr(id), st.formats);
    var keep := cur.GetOr(map[]);
    var kind := Kind(keep);
    var raw := PriorAssets(keep);
    var assetId := AssetId(raw, id, rel);
    var assets := MergeAssets(kind, raw, assetId, ImageAsset(assetId, rel, s, urls), rel);
    var src := PreferCoverSrc(urls);
    var dc := DefaultCover(assetId, src, s, urls);
    var pc := PriorCover(keep);
    var cover: map<string, Json>;
    if kind == "image" {
      cover := Apply(pc.GetOr(map[]), dc);
    } else if pc.Some? {
      cover := FillCover(pc.value, assetId, src, s, urls);
    } else {
      cover := Written(dc);
    }
    r := StillRecord(id, kind, rel, HumanOf(keep), createdAt, SortKey(c, cur, s.mtime),
                     s.width, s.height, s.lqip, urls, cover, assets);
  }

  // ---------------------------------------------------------------------
  // the run

  /** `runStillsPipeline` options; `None` is a missing option. */
  datatype Options = Options(
    originalsDir: Path,
    outputDir: Path,
    prevRecords: Option<seq<Json>>,
    formats: Option<seq<string>>,
    rebuildIfNewer: Option<bool>,
    publicBasePath: Option<string>)

  function Lowers(fs: seq<string>): (r: seq<string>)
    ensures |r| == |fs| && forall i :: 0 <= i < |r| ==> r[i] == Lower(fs[i])
  {
    seq(|fs|, i requires 0 <= i < |fs| => Lower(fs[i]))
  }

  function SettingsOf(o: Options): Settings
  {
    Settings(o.outputDir, Lowers(o.formats.GetOr(["avif", "webp"])),
             o.rebuildIfNewer.GetOr(true), o.publicBasePath.GetOr("/assets"))
  }

  /** What the run returns (its duration is not modelled). */
  datatype Summary = Summary(records: seq<StillRecord>, made: nat, skipped: nat, inputsCount: nat, aborted: bool)

  /** The outputs of every input in turn, each against the disk the
      previous ones left. */
  function BuildAll(st: Settings, c: Clock, env: string -> Source, prev: seq<Json>, now: int,
                    inputs: seq<string>, b: Built): Result<Built, Failure>
    decreases |inputs|
  {
    if |inputs| == 0 then Ok(b)
    else
      var rel := inputs[0];
      var id := ToStr(IdFor(c, env, prev, rel));
      var b1 :- BuildJobs(b, env(rel).mtime, st.rebuildIfNewer, now, Jobs([], id, st.formats));
      BuildAll(st, c, env, prev, now, inputs[1..], b1)
  }

  /** `xs.map(f)`. */
  function MapEach<A, B>(f: A -> B, xs: seq<A>): (r: seq<B>)
    ensures |r| == |xs| && forall i :: 0 <= i < |xs| ==> r[i] == f(xs[i])
  {
    seq(|xs|, i requires 0 <= i < |xs| => f(xs[i]))
  }

  lemma MapEachSnoc<A, B>(f: A -> B, xs: seq<A>, i: nat)
    requires i < |xs|
    ensures MapEach(f, xs[..i + 1]) == MapEach(f, xs[..i]) + [f(xs[i])]
  {
    assert forall k :: 0 <= k < i + 1 ==> MapEach(f, xs[..i + 1])[k] == (MapEach(f, xs[..i]) + [f(xs[i])])[k];
  }

  /** A property of the head and of every element of the tail holds of
      every element. */
  lemma ForallCons<T>(p: T -> bool, xs: seq<T>)
    requires |xs| > 0 && p(xs[0])
    requires forall i :: 0 <= i < |xs[1..]| ==> p(xs[1..][i])
    ensures forall i :: 0 <= i < |xs| ==> p(xs[i])
  {
    forall i | 0 < i < |xs| ensures p(xs[i]) {
      assert xs[i] == xs[1..][i - 1];
    }
  }

  /** The records of a list of inputs, in input order. */
  function Records(st: Settings, c: Clock, env: string -> Source, prev: seq<Json>, inputs: seq<string>)
    : seq<StillRecord>
  {
    MapEach((rel: string) => Record(st, c, env, prev, rel), inputs)
  }

  /** The order of the index: `sortKey`, then the id as text. */
  function Order(): (StillRecord, StillRecord) -> bool
  {
    KeyThenId(SortKeyOf, IdText)
  }

  function SortKeyOf(r: StillRecord): int
  {
    r.sortKey
  }

  function IdText(r: StillRecord): string
  {
    ToStr(r.id)
  }

  /** The index a run writes: every input's record once, in index order. */
  function Index(st: Settings, c: Clock, env: string -> Source, prev: seq<Json>, inputs: seq<string>)
    : (r: seq<StillRecord>)
    ensures SortedBy(r, Order())
    ensures multiset(r) == multiset(Records(st, c, env, prev, inputs))
  {
    KeyThenIdIsTotalPreorder(SortKeyOf, IdText);
    SortedSortsAndPermutes(Records(st, c, env, prev, inputs), Order());
    Sorted(Records(st, c, env, prev, inputs), Order())
  }

  /** A whole run. `inputs` is what the glob found under the originals
      folder, `disk` the files under the output folder, `now` the time the
      encoder stamps on what it writes. */
  function Run(o: Options, c: Clock, env: string -> Source, now: int, inputs: seq<string>, disk: Disk)
    : Result<(Summary, Disk), Failure>
  {
    if o.originalsDir == [] then Err(Failure(disk, "runStillsPipeline: originalsDir is required"))
    else if o.outputDir == [] then Err(Failure(disk, "runStillsPipeline: outputDir is required"))
    else
      var st := SettingsOf(o);
      var prev := o.prevRecords.GetOr([]);
      if Null in prev then Err(Failure(disk, "Cannot read properties of null (reading 'id')"))
      else if |inputs| == 0 then Ok((Summary([], 0, 0, 0, true), disk))
      else
        var b :- BuildAll(st, c, env, prev, now, inputs, Built(disk, 0, 0));
        Ok((Summary(Index(st, c, env, prev, inputs), b.made, b.skipped, |inputs|, false), b.disk))
  }

  /** The loop over the inputs: every input's outputs and record, or the
      first failure. */
  method BuildInputs(st: Settings, c: Clock, env: string -> Source, prev: seq<Json>, now: int,
                     inputs: seq<string>, disk: Disk)
    returns (r: Result<(seq<StillRecord>, Built), Failure>)
    ensures BuildAll(st, c, env, prev, now, inputs, Built(disk, 0, 0)).Err? ==>
              r == Err(BuildAll(st, c, env, prev, now, inputs, Built(disk, 0, 0)).error)
    ensures BuildAll(st, c, env, prev, now, inputs, Built(disk, 0, 0)).Ok? ==>
              r == Ok((Records(st, c, env, prev, inputs), BuildAll(st, c, env, prev, now, inputs, Built(disk, 0, 0)).value))
  {
    var b := Built(disk, 0, 0);
    var outIndex: seq<StillRecord> := [];
    var i := 0;
    while i < |inputs|
      invariant 0 <= i <= |inputs|
      invariant outIndex == Records(st, c, env, prev, inputs[..i])
      invariant BuildAll(st, c, env, prev, now, inputs, Built(disk, 0, 0))
             == BuildAll(st, c, env, prev, now, inputs[i..], b)
    {
      var rel := inputs[i];
      assert inputs[i..][1..] == inputs[i + 1..];
      var id := ToStr(IdFor(c, env, prev, rel));
      var built := BuildOutputs(b, env(rel).mtime, st.rebuildIfNewer, now, Jobs([], id, st.formats));
      if built.Err? {
        return Err(built.error);
      }
      b := built.value;
      var record := BuildRecord(st, c, env, prev, rel);
      MapEachSnoc((rel: string) => Record(st, c, env, prev, rel), inputs, i);
      outIndex := outIndex + [record];
      i := i + 1;
    }
    assert inputs[..i] == inputs;
    return Ok((outIndex, b));
  }

  /** `runStillsPipeline`. */
  method RunStillsPipeline(o: Options, c: Clock, env: string -> Source, now: int, inputs: seq<string>, disk: Disk)
    returns (r: Result<(Summary, Disk), Failure>)
    ensures r == Run(o, c, env, now, inputs, disk)
  {
    if o.originalsDir == [] {
      return Err(Failure(disk, "runStillsPipeline: originalsDir is required"));
    }
    if o.outputDir == [] {
      return Err(Failure(disk, "runStillsPipeline: outputDir is required"));
    }
    var st := SettingsOf(o);
    var prev := o.prevRecords.GetOr([]);
    if Null in prev {
      return Err(Failure(disk, "Cannot read properties of null (reading 'id')"));
    }
    if |inputs| == 0 {
      return Ok((Summary([], 0, 0, 0, true), disk));
    }
    var built := BuildInputs(st, c, env, prev, now, inputs, disk);
    if built.Err? {
      return Err(built.error);
    }
    var (outIndex, b) := built.value;
    KeyThenIdIsTotalPreorder(SortKeyOf, IdText);
    var sorted := SortBy(outIndex, Order());
    return Ok((Summary(sorted, b.made, b.skipped, |inputs|, false), b.disk));
  }

  // ---------------------------------------------------------------------
  // what a run promises

  /** Every input's jobs are counted once, and no output disappears. */
  lemma {:induction false} BuildAllCounts(st: Settings, c: Clock, env: string -> Source, prev: seq<Json>, now: int,
                                          inputs: seq<string>, b: Built)
    requires BuildAll(st, c, env, prev, now, inputs, b).Ok?
    ensures var a := BuildAll(st, c, env, prev, now, inputs, b).value;
            && a.made + a.skipped == b.made + b.skipped + 4 * |st.formats| * |inputs|
            && forall p :: p in b.disk ==> p in a.disk
    decreases |inputs|
  {
    if |inputs| > 0 {
      var rel := inputs[0];
      var jobs := Jobs([], ToStr(IdFor(c, env, prev, rel)), st.formats);
      BuildAccounts(b, env(rel).mtime, st.rebuildIfNewer, now, jobs);
      var b1 := BuildJobs(b, env(rel).mtime, st.rebuildIfNewer, now, jobs).value;
      BuildAllCounts(st, c, env, prev, now, inputs[1..], b1);
      MulSucc(4 * |st.formats|, |inputs[1..]|);
    }
  }

  /** A run that gets through its inputs returns every input's record once,
      in index order, and counts every output of every input as made or
      skipped. */
  lemma RunShape(o: Options, c: Clock, env: string -> Source, now: int, inputs: seq<string>, disk: Disk)
    requires Run(o, c, env, now, inputs, disk).Ok? && |inputs| > 0
    ensures var sm := Run(o, c, env, now, inputs, disk).value.0;
            && !sm.aborted && sm.inputsCount == |inputs|
            && SortedBy(sm.records, Order())
            && multiset(sm.records) == multiset(Records(SettingsOf(o), c, env, o.prevRecords.GetOr([]), inputs))
            && sm.made + sm.skipped == 4 * |o.formats.GetOr(["avif", "webp"])| * |inputs|
  {
    RunAccepted(o, c, env, now, inputs, disk);
    RunValue(o, c, env, now, inputs, disk);
    BuildAllCounts(SettingsOf(o), c, env, o.prevRecords.GetOr([]), now, inputs, Built(disk, 0, 0));
  }

  /** A run that returns a summary for some inputs passed every check. */
  lemma RunAccepted(o: Options, c: Clock, env: string -> Source, now: int, inputs: seq<string>, disk: Disk)
    requires Run(o, c, env, now, inputs, disk).Ok? && |inputs| > 0
    ensures o.originalsDir != [] && o.outputDir != [] && Null !in o.prevRecords.GetOr([])
    ensures BuildAll(SettingsOf(o), c, env, o.prevRecords.GetOr([]), now, inputs, Built(disk, 0, 0)).Ok?
  {
  }

  /** What such a run returns: `Run`'s last branch, unfolded once for
      `RunShape` and the rerun lemmas. */
  lemma RunValue(o: Options, c: Clock, env: string -> Source, now: int, inputs: seq<string>, disk: Disk)
    requires o.originalsDir != [] && o.outputDir != [] && Null !in o.prevRecords.GetOr([]) && |inputs| > 0
    requires BuildAll(SettingsOf(o), c, env, o.prevRecords.GetOr([]), now, inputs, Built(disk, 0, 0)).Ok?
    ensures var b := BuildAll(SettingsOf(o), c, env, o.prevRecords.GetOr([]), now, inputs, Built(disk, 0, 0)).value;
      Run(o, c, env, now, inputs, disk)
      == Ok((Summary(Index(SettingsOf(o), c, env, o.prevRecords.GetOr([]), inputs), b.made, b.skipped, |inputs|, false), b.disk))
  {
  }

  /** The index file a run writes. */
  function IndexJson(rs: seq<StillRecord>): seq<Json>
  {
    MapEach((r: StillRecord) => Obj(ToJson(r)), rs)
  }

  /** The written record holds each of its fields under its name. */
  lemma ToJsonFields(r: StillRecord)
    ensures var m := ToJson(r);
            && "source" in m && m["source"] == Str(r.source)
            && "id" in m && m["id"] == r.id
            && "createdAt" in m && m["createdAt"] == r.createdAt
            && "sortKey" in m && m["sortKey"] == Num(r.sortKey)
            && "kind" in m && m["kind"] == Str(r.kind)
            && forall k :: k in HumanJson(r.human) ==> k in m && m[k] == HumanJson(r.human)[k]
  {
    OwnNotHuman(r);
    ToJsonOwn(r, "source");
    ToJsonOwn(r, "id");
    ToJsonOwn(r, "createdAt");
    ToJsonOwn(r, "sortKey");
    ToJsonOwn(r, "kind");
  }

  lemma OwnNotHuman(r: StillRecord)
    ensures "source" !in HumanJson(r.human) && "id" !in HumanJson(r.human) && "createdAt" !in HumanJson(r.human)
            && "sortKey" !in HumanJson(r.human) && "kind" !in HumanJson(r.human)
    ensures Own(r)["source"] == Str(r.source) && Own(r)["id"] == r.id && Own(r)["createdAt"] == r.createdAt
            && Own(r)["sortKey"] == Num(r.sortKey) && Own(r)["kind"] == Str(r.kind)
  {
  }

  lemma ToJsonOwn(r: StillRecord, k: string)
    requires k in Own(r) && k != "w" && k != "h" && k !in HumanJson(r.human)
    ensures k in ToJson(r) && ToJson(r)[k] == Own(r)[k]
  {
  }

  /** Feeding a run's index back in as the prior records keeps every
      input's identity: whatever the new settings, clock and sources, each
      input gets back its id, `createdAt`, `sortKey`, `kind` and hand-edited
      fields. `rs` is the index in any order. */
  lemma RerunKeepsIdentity(st: Settings, c: Clock, env: string -> Source, prev: seq<Json>, inputs: seq<string>,
                           rs: seq<StillRecord>, st2: Settings, c2: Clock, env2: string -> Source, i: nat)
    requires forall a, b :: 0 <= a < b < |inputs| ==> inputs[a] != inputs[b]
    requires forall x :: x in rs <==> x in Records(st, c, env, prev, inputs)
    requires i < |inputs|
    ensures var r1 := Record(st, c, env, prev, inputs[i]);
            var r2 := Record(st2, c2, env2, IndexJson(rs), inputs[i]);
            && r2.id == r1.id && r2.createdAt == r1.createdAt && r2.sortKey == r1.sortKey
            && r2.kind == r1.kind && r2.human == r1.human
  {
    var r1 := Record(st, c, env, prev, inputs[i]);
    forall x | x in rs && x.source == inputs[i] ensures x == r1 {
      SourceIdentifies(st, c, env, prev, inputs, i, x);
    }
    InRecords(st, c, env, prev, inputs, i);
    PriorOfRerun(rs, inputs[i], r1);
    RecordFromPrior(st2, c2, env2, IndexJson(rs), inputs[i], r1);
  }

  /** Input `i`'s record is in the list of records. */
  lemma InRecords(st: Settings, c: Clock, env: string -> Source, prev: seq<Json>, inputs: seq<string>, i: nat)
    requires i < |inputs|
    ensures Record(st, c, env, prev, inputs[i]) in Records(st, c, env, prev, inputs)
  {
    assert Records(st, c, env, prev, inputs)[i] == Record(st, c, env, prev, inputs[i]);
  }

  /** With distinct inputs, a record's source tells which input it is for. */
  lemma SourceIdentifies(st: Settings, c: Clock, env: string -> Source, prev: seq<Json>, inputs: seq<string>,
                         i: nat, x: StillRecord)
    requires forall a, b :: 0 <= a < b < |inputs| ==> inputs[a] != inputs[b]
    requires i < |inputs| && x in Records(st, c, env, prev, inputs) && x.source == inputs[i]
    ensures x == Record(st, c, env, prev, inputs[i])
  {
    var all := Records(st, c, env, prev, inputs);
    var k :| 0 <= k < |all| && all[k] == x;
    assert x == Record(st, c, env, prev, inputs[k]);
    assert inputs[k] == inputs[i];
  }

  /** In an index where `r1` is the only record of source `rel`, the prior
      record of `rel` is `r1`. */
  lemma PriorOfRerun(rs: seq<StillRecord>, rel: string, r1: StillRecord)
    requires r1 in rs && r1.source == rel
    requires forall x :: x in rs && x.source == rel ==> x == r1
    ensures ResolvePrior(IndexJson(rs), rel, FileStem(rel)) == Some(ToJson(r1))
  {
    var prev2 := IndexJson(rs);
    var j0 :| 0 <= j0 < |rs| && rs[j0] == r1;
    ToJsonFields(r1);
    assert HasKey(prev2[j0], "source", rel);
    KeyedByLast(prev2, "source", rel);
    var j :| 0 <= j < |prev2| && HasKey(prev2[j], "source", rel)
             && forall k :: j < k < |prev2| ==> !HasKey(prev2[k], "source", rel);
    ToJsonFields(rs[j]);
    assert rs[j] == r1;
    ResolveBySource(prev2, rel, FileStem(rel), j);
  }

  /** A record whose prior record is a written record `r1` gets back
      `r1`'s identity and hand-edited fields. */
  lemma RecordFromPrior(st: Settings, c: Clock, env: string -> Source, prev: seq<Json>, rel: string, r1: StillRecord)
    requires ResolvePrior(prev, rel, FileStem(rel)) == Some(ToJson(r1))
    requires r1.id != Null && r1.createdAt != Null && r1.kind != ""
    requires r1.human.title != Null && r1.human.alt != Null && r1.human.series != Null && r1.human.characters != Null
             && r1.human.tags != Null && r1.human.caption != Null && r1.human.links != Null
    ensures var r2 := Record(st, c, env, prev, rel);
            && r2.id == r1.id && r2.createdAt == r1.createdAt && r2.sortKey == r1.sortKey
            && r2.kind == r1.kind && r2.human == r1.human
  {
    ToJsonFields(r1);
    HumanRoundTrip(r1.human, ToJson(r1));
  }
  // ---------------------------------------------------------------------
  // a second run

  /** The outputs `buildOne` writes for input `rel`. */
  function InputJobs(st: Settings, c: Clock, env: string -> Source, prev: seq<Json>, rel: string): seq<Job>
  {
    Jobs([], ToStr(IdFor(c, env, prev, rel)), st.formats)
  }

  /** Building the inputs only writes: every file stays, and each is either
      as it was or written at `now`. */
  lemma {:induction false} BuildAllStamps(st: Settings, c: Clock, env: string -> Source, prev: seq<Json>, now: int,
                                          inputs: seq<string>, b: Built)
    requires BuildAll(st, c, env, prev, now, inputs, b).Ok?
    ensures Stamped(b.disk, BuildAll(st, c, env, prev, now, inputs, b).value.disk, now)
    decreases |inputs|
  {
    if |inputs| > 0 {
      var rel := inputs[0];
      var b1 := BuildJobs(b, env(rel).mtime, st.rebuildIfNewer, now, InputJobs(st, c, env, prev, rel)).value;
      BuildStamps(b, env(rel).mtime, st.rebuildIfNewer, now, InputJobs(st, c, env, prev, rel));
      BuildAllStamps(st, c, env, prev, now, inputs[1..], b1);
      StampedThen(b.disk, b1.disk, BuildAll(st, c, env, prev, now, inputs, b).value.disk, now);
    }
  }

  /** After a run, every input's outputs are current, unless a source is
      newer than the run itself. */
  lemma {:induction false} BuildAllCurrent(st: Settings, c: Clock, env: string -> Source, prev: seq<Json>, now: int,
                                           inputs: seq<string>, b: Built)
    requires BuildAll(st, c, env, prev, now, inputs, b).Ok?
    requires forall i :: 0 <= i < |inputs| ==> !st.rebuildIfNewer || env(inputs[i]).mtime <= now + 1
    ensures forall i :: 0 <= i < |inputs| ==>
              Current(BuildAll(st, c, env, prev, now, inputs, b).value.disk, env(inputs[i]).mtime, st.rebuildIfNewer,
                      InputJobs(st, c, env, prev, inputs[i]))
    decreases |inputs|
  {
    if |inputs| > 0 {
      var rel := inputs[0];
      var jobs := InputJobs(st, c, env, prev, rel);
      var b1 := BuildJobs(b, env(rel).mtime, st.rebuildIfNewer, now, jobs).value;
      assert BuildAll(st, c, env, prev, now, inputs, b) == BuildAll(st, c, env, prev, now, inputs[1..], b1);
      var a := BuildAll(st, c, env, prev, now, inputs[1..], b1).value;
      BuildMakesCurrent(b, env(rel).mtime, st.rebuildIfNewer, now, jobs);
      BuildAllCurrent(st, c, env, prev, now, inputs[1..], b1);
      BuildAllStamps(st, c, env, prev, now, inputs[1..], b1);
      StaysCurrent(b1.disk, a.disk, env(rel).mtime, st.rebuildIfNewer, now, jobs);
      ForallCons((r: string) => Current(a.disk, env(r).mtime, st.rebuildIfNewer, InputJobs(st, c, env, prev, r)), inputs);
    }
  }

  /** When every input's outputs are current, a run writes nothing and
      skips every output. */
  lemma {:induction false} BuildAllIdle(st: Settings, c: Clock, env: string -> Source, prev: seq<Json>, now: int,
                                        inputs: seq<string>, b: Built)
    requires forall i :: 0 <= i < |inputs| ==>
               Current(b.disk, env(inputs[i]).mtime, st.rebuildIfNewer, InputJobs(st, c, env, prev, inputs[i]))
    ensures var r := BuildAll(st, c, env, prev, now, inputs, b);
            && r.Ok? && r.value.disk == b.disk && r.value.made == b.made
            && r.value.skipped == b.skipped + 4 * |st.formats| * |inputs|
    decreases |inputs|
  {
    if |inputs| > 0 {
      var rel := inputs[0];
      var jobs := InputJobs(st, c, env, prev, rel);
      BuildUpToDate(b, env(rel).mtime, st.rebuildIfNewer, now, jobs);
      var b1 := b.(skipped := b.skipped + |jobs|);
      assert BuildAll(st, c, env, prev, now, inputs, b) == BuildAll(st, c, env, prev, now, inputs[1..], b1);
      AllCurrentRest(b.disk, st, c, env, prev, inputs);
      BuildAllIdle(st, c, env, prev, now, inputs[1..], b1);
      CountStep(b.skipped, 4 * |st.formats|, |inputs[1..]|, |inputs|);
    }
  }

  /** `n` more, then `n` for each of `m` more, is `n` for each of `m + 1`. */
  lemma CountStep(x: int, n: int, m: int, len: int)
    requires len == m + 1
    ensures x + n + n * m == x + n * len
  {
    MulSucc(n, m);
  }

  lemma AllCurrentRest(disk: Disk, st: Settings, c: Clock, env: string -> Source, prev: seq<Json>, inputs: seq<string>)
    requires |inputs| > 0
    requires forall i :: 0 <= i < |inputs| ==>
               Current(disk, env(inputs[i]).mtime, st.rebuildIfNewer, InputJobs(st, c, env, prev, inputs[i]))
    ensures forall i :: 0 <= i < |inputs[1..]| ==>
              Current(disk, env(inputs[1..][i]).mtime, st.rebuildIfNewer, InputJobs(st, c, env, prev, inputs[1..][i]))
  {
    forall i | 0 <= i < |inputs[1..]|
      ensures Current(disk, env(inputs[1..][i]).mtime, st.rebuildIfNewer, InputJobs(st, c, env, prev, inputs[1..][i]))
    {
      assert inputs[1..][i] == inputs[i + 1];
    }
  }

  /** Running again over the same sources, with the first run's index as
      the prior records and its output folder as the disk, re-encodes
      nothing: every output is skipped and no file changes. This holds when
      rebuilding is off, or when no source is newer than the first run. */
  lemma RerunMakesNothing(o: Options, c: Clock, env: string -> Source, now: int, inputs: seq<string>, disk: Disk,
                          c2: Clock, now2: int)
    requires Run(o, c, env, now, inputs, disk).Ok? && |inputs| > 0
    requires forall a, b :: 0 <= a < b < |inputs| ==> inputs[a] != inputs[b]
    requires forall i :: 0 <= i < |inputs| ==> !SettingsOf(o).rebuildIfNewer || env(inputs[i]).mtime <= now + 1
    ensures var first := Run(o, c, env, now, inputs, disk).value;
            var second := Run(o.(prevRecords := Some(IndexJson(first.0.records))), c2, env, now2, inputs, first.1);
            && second.Ok? && second.value.1 == first.1
            && second.value.0.made == 0 && second.value.0.skipped == 4 * |SettingsOf(o).formats| * |inputs|
  {
    var st, prev := SettingsOf(o), o.prevRecords.GetOr([]);
    RunAccepted(o, c, env, now, inputs, disk);
    RunValue(o, c, env, now, inputs, disk);
    var b := BuildAll(st, c, env, prev, now, inputs, Built(disk, 0, 0)).value;
    var rs := Index(st, c, env, prev, inputs);
    var o2 := o.(prevRecords := Some(IndexJson(rs)));
    var prev2 := IndexJson(rs);
    assert SettingsOf(o2) == st;
    BuildAllCurrent(st, c, env, prev, now, inputs, Built(disk, 0, 0));
    IndexHolds(st, c, env, prev, inputs);
    forall i | 0 <= i < |inputs|
      ensures Current(b.disk, env(inputs[i]).mtime, st.rebuildIfNewer, InputJobs(st, c2, env, prev2, inputs[i]))
    {
      RerunKeepsIdentity(st, c, env, prev, inputs, rs, st, c2, env, i);
    }
    BuildAllIdle(st, c2, env, prev2, now2, inputs, Built(b.disk, 0, 0));
    IndexJsonObjects(rs);
    RunValue(o2, c2, env, now2, inputs, b.disk);
  }

  /** The index holds exactly the records of the inputs. */
  lemma IndexHolds(st: Settings, c: Clock, env: string -> Source, prev: seq<Json>, inputs: seq<string>)
    ensures forall x :: x in Index(st, c, env, prev, inputs) <==> x in Records(st, c, env, prev, inputs)
  {
    var rs, all := Index(st, c, env, prev, inputs), Records(st, c, env, prev, inputs);
    forall x ensures x in rs <==> x in all {
      assert x in rs <==> x in multiset(rs);
      assert x in all <==> x in multiset(all);
    }
  }

  /** The written index holds no `null`. */
  lemma IndexJsonObjects(rs: seq<StillRecord>)
    ensures Null !in IndexJson(rs)
  {
    forall j | 0 <= j < |IndexJson(rs)| ensures IndexJson(rs)[j] != Null {
      assert IndexJson(rs)[j] == Obj(ToJson(rs[j]));
    }
  }
}
