# Omochi Fortress image pipeline, in Dafny

This project models the image pipeline of the Omochi Fortress gallery site and
proves properties of that model.

The pipeline's parts:

- **`copy-images.mjs`** gathers originals from the author's working folders
  into one flat folder. It gives each file a Windows-safe name made from its
  path, and never overwrites a file that is already there. The destination
  folder is on Windows, so names that differ only in case are the same file.
- **`scripts/upscale-images.mjs`** picks a tier for each small original by
  its longest side: skip, easy, mid or hard. It runs Waifu2x and, when
  installed, Real-ESRGAN with a near-black fallback. It keeps counters and a
  tab-separated report.
- **`scripts/pipeline/stills.mjs`** is `runStillsPipeline`. For every
  original it:
  - encodes the four size tiers `s`, `s2x`, `l`, `l2x` in every format, but
    only where an output is missing or stale;
  - finds the prior record: by source path, then by id, then by the legacy
    small-WebP URL;
  - keeps identity and hand-edited fields;
  - merges assets and the cover;
  - returns the index sorted by sort key, then id.
- **`scripts/build-images.mjs`** is the older index builder. It has the same
  tiers, a different prior-record lookup and `rights` defaulting, and mirrors
  the output folder into the public folder.
- **`src/scripts/greedy-layout.ts`** is the masonry layout of the gallery
  page. It derives the column count and width, then places each card in the
  lowest column.

## How the model is built

Paths are sequences of segments. The file system is a map from paths to
modification times, or to size and time. Everything the scripts cannot
decide themselves is a parameter:

- the clock: ISO formatting, date parsing and ULID minting;
- what sharp reports about an original;
- the results of the upscaler processes;
- directory listings.

Each script has:

- functions that define each operation, plus one for a whole run;
- imperative methods that follow the script's own loops. Each method's
  `ensures` ties its result or its new state to those functions;
- lemmas that state what the script promises about those functions.

The upscaler and the copier keep counters, a log, a set of files and the
copies made. They are classes whose methods update those fields. The
layout's column heights are an array, updated in place.

Modules, one per file: `Wrappers` (`wrappers.dfy`), `Strings` (`strings.dfy`), `Paths` (`paths.dfy`), `Sorting` (`sorting.dfy`), `JsonValues` (`json.dfy`), `ImageIndex` (`image_index.dfy`), `Stills` (`stills.dfy`), `BuildImages` (`build_images.dfy`), `Upscale` (`upscale.dfy`), `UpscaleModels` (`upscale_models.dfy`), `CopyImages` (`copy_images.dfy`), `GreedyLayout` (`greedy_layout.dfy`), and `Arith` (`arith.dfy`), one arithmetic fact the layout and the run counts share.

`ImageIndex` holds what the two index builders share. `Wrappers`, `Strings`,
`Paths`, `Sorting` and `JsonValues` model the pieces of JavaScript and Node
the scripts rely on:

- `Option`/`Result`;
- `split`/`join`/`includes`;
- `path.extname`/`path.relative`;
- `Array.prototype.sort`;
- JSON values with `?.`, `??` and spread.

### Notes on the code

- **A missing Real-ESRGAN model.** It is an error for the current image
  only. `runRealESRGAN` throws inside that image's `upscaleSmart`
  (scripts/upscale-images.mjs:173-178), and `walkAndProcess` catches it
  (scripts/upscale-images.mjs:309-315). The walk counts one error for that
  image, logs it, and goes on with the next file. See
  `Upscale.MissingModelThrows`, `Upscale.VisitMissingModel` and
  `Upscale.WalkAccounts`.
- **The originals folder of `build-images.mjs`.** Its header comment
  (scripts/build-images.mjs:8) promises fallbacks to `originals` and then
  `src/originals`. The code passes a single candidate. This is the first
  row under Findings below.
- **The id tie-break.** Records with the same `sortKey` are ordered by
  `String(a.id).localeCompare(String(b.id))` (scripts/pipeline/stills.mjs:332).
  That is modelled as code-unit order; see Left out.

## Model

| member | source | states |
|---|---|---|
| `ImageIndex.CrockfordRanges` | scripts/pipeline/stills.mjs:9 | The character class of `isUlidLike` accepts exactly the 32 symbols of Crockford's base-32 alphabet: digits and capitals without I, L, O, U. |
| `ImageIndex.DropSpaces` | scripts/pipeline/stills.mjs:10 | The part after a run of `\s` is a suffix of the input and starts with a non-space. |
| `ImageIndex.Squash` | scripts/pipeline/stills.mjs:10 | `replace(/\s+/g, '_')` leaves no whitespace and never lengthens the name. |
| `ImageIndex.SquashPlain` | scripts/build-images.mjs:98 | A stem without whitespace comes out of `fileStem`'s replacement unchanged, so squashing twice is squashing once. |
| `ImageIndex.NeedBuild` | scripts/pipeline/stills.mjs:63-72 | A missing output is always built. With rebuilding off, an existing output never is. With rebuilding on, an existing output is rebuilt iff the source is more than 1 ms newer, or either `stat` fails. |
| `ImageIndex.TierJobs` | scripts/pipeline/stills.mjs:185-190 | One job per format, writing `<dir>/<id>.<fmt>` in that format. |
| `ImageIndex.Jobs` | scripts/build-images.mjs:192-197 | The four tiers give exactly four times the number of formats jobs. |
| `ImageIndex.BuildOutputs` | scripts/pipeline/stills.mjs:192-212 | The `buildOne` loops compute exactly `BuildJobs`: each job is built or skipped, and an unsupported format throws. |
| `ImageIndex.BuildAccounts` | scripts/pipeline/stills.mjs:192-212 | After a successful run of the jobs: every job is counted once, as made or skipped; `made` never falls; every output exists; no other file is created or touched. |
| `ImageIndex.BuildUpToDate` | scripts/build-images.mjs:115-122 | When every output exists and is not older than its source, or rebuilding is off, the jobs write nothing and are all skipped. `Stills.RerunMakesNothing` lifts this to a whole second run. |
| `ImageIndex.BuildStamps` | scripts/pipeline/stills.mjs:192-207 | Building only writes: every file stays, and each file afterwards is either as it was or written at the build's time. |
| `ImageIndex.BuildMakesCurrent` | scripts/pipeline/stills.mjs:192-207 | After building, every output exists and is not older than its source (or rebuilding is off), unless the source is newer than the build itself. |
| `ImageIndex.BuildRejectsUnknown` | scripts/build-images.mjs:208-210 | An output in a format other than `avif`/`webp` that is not on disk yet makes the run throw. |
| `ImageIndex.NormalizePlain` | scripts/pipeline/stills.mjs:74-80 | `path.posix.join` leaves plain segments joined by `/` as they are. |
| `ImageIndex.UrlPlain` | scripts/pipeline/stills.mjs:74-80 | For a plain base and plain file names, the URL is `/`, then the base, then the path below the output folder joined by `/`. |
| `ImageIndex.Field` | scripts/pipeline/stills.mjs:173 | `current?.[key]` is defined iff there is a prior record and it has the key. |
| `ImageIndex.CreatedAt` | scripts/pipeline/stills.mjs:173 | The prior `createdAt` unless it is missing or null, else the ISO time of the source's mtime. Never null. |
| `ImageIndex.AssignId` | scripts/build-images.mjs:189 | The prior id unless it is missing or null. Else the stem when it looks like a ULID. Else a ULID minted for `createdAt`. Never null. |
| `ImageIndex.HumanOf` | scripts/pipeline/stills.mjs:308-322 | None of the seven hand-edited fields is ever null. Each takes its `?? default`. |
| `ImageIndex.HumanRoundTrip` | scripts/build-images.mjs:238-254 | Hand-edited fields that were written out are read back unchanged, whatever else the record holds. |
| `ImageIndex.KeyThenIdIsTotalPreorder` | scripts/build-images.mjs:260-265 | "Numeric key, then id" is a total preorder, so sorting by it is well defined. |
| `Stills.SanitizeBasePath` | scripts/pipeline/stills.mjs:17-21 | Never empty. One leading `/` is dropped. A base without one is kept. An empty result becomes `assets`. |
| `Stills.DefaultUrl` | scripts/pipeline/stills.mjs:74-80 | With the default base `/assets`, the output `<tier>/<name>` is served at `/assets/<tier>/<name>`. |
| `Stills.FirstSrc` | scripts/pipeline/stills.mjs:35-38 | `""` iff no candidate is a non-empty string; otherwise the first non-empty string. |
| `Stills.PreferCoverSrc` | scripts/pipeline/stills.mjs:23-39 | `""` for a non-object. Otherwise the first non-empty string among the eight places, in their order. `""` iff none is one. |
| `Stills.CoverIsSmallAvif` | scripts/pipeline/stills.mjs:278-286 | When AVIF is among the formats, the default cover is the small AVIF's URL. |
| `Stills.SizesAt` | scripts/pipeline/stills.mjs:214-227 | `urls[tier][f]` is the URL of `<tier>/<id>.<f>` for every tier and every configured format. |
| `Stills.KeyedByLast` | scripts/pipeline/stills.mjs:124-129 | A key is in the `Map` iff some record carries it, and the map then holds the LAST record carrying it. |
| `Stills.FindFallback` | scripts/pipeline/stills.mjs:164-168 | `find` returns the first record that passes the test, and None iff none passes. |
| `Stills.FindWebp` | scripts/pipeline/stills.mjs:167 | The first record whose small WebP URL is a string containing `/<stem>.webp`, and None iff there is none. |
| `Stills.FallbackIsWebpOnly` | scripts/pipeline/stills.mjs:161-168 | Once `prevById` has missed, the `r.id === stem` arm of `find` can never fire, so the search is the WebP-URL test alone. |
| `Stills.SameSearch` | scripts/pipeline/stills.mjs:164-168 | When no record has the stem as its id, the fallback search equals the WebP search. |
| `Stills.ResolveBySource` | scripts/pipeline/stills.mjs:161-168 | A record carrying the input's source path is always the one found, whatever its id or URLs; the last such record wins. |
| `Stills.SortKey` | scripts/pipeline/stills.mjs:174-181 | A prior numeric `sortKey` survives whenever the prior record had a `createdAt`. Otherwise it is the epoch of `createdAt`. |
| `Stills.Kind` | scripts/pipeline/stills.mjs:232 | A prior non-empty string `kind`, else `image`. Never empty. |
| `Stills.Objects` | scripts/pipeline/stills.mjs:233-235 | Exactly the object elements of the prior assets, and nothing else. |
| `Stills.FirstMatch` | scripts/pipeline/stills.mjs:236-240 | The first asset whose id, as text, equals the record id, or whose source equals the input path; None iff none matches. |
| `Stills.Copies` | scripts/pipeline/stills.mjs:271 | Each asset is copied with `{...a}`, in order. |
| `Stills.MergeAssets` | scripts/pipeline/stills.mjs:251-276 | The `replaced`-flag loop builds exactly `MergedAssets`: the first matching asset is patched by the image asset, the rest are copied, and the image asset is appended when nothing matched. A non-image kind keeps its assets, or gets the image asset alone. |
| `Stills.ImageAssetKept` | scripts/pipeline/stills.mjs:251-273 | For kind `image`, the list grows by at most one. Some entry carries every property the image asset defines. |
| `Stills.FillFromProps` | scripts/pipeline/stills.mjs:291-299 | The fill-in steps never drop a property. They keep every truthy or non-refreshed one. They add only filling defaults. |
| `Stills.FilledCover` | scripts/pipeline/stills.mjs:291-299 | A non-image record's prior cover: every prior property is kept; falsy `src`/`kind` are replaced; missing fields come from the default cover; `src` and `kind` are always present. |
| `Stills.FilledCoverSteps` | scripts/pipeline/stills.mjs:293-299 | The completion is the seven `if` statements applied in source order. |
| `Stills.DefaultCoverFills` | scripts/pipeline/stills.mjs:278-286 | The default cover fills `src` and `kind` always. It fills `assetId` and `lqip` iff they are truthy, `w`/`h` iff sharp reported them, and `sizes` always. |
| `Stills.FillIfFalsy` | scripts/pipeline/stills.mjs:293-294 | `if (!cover[k]) cover[k] = v` is one fill step. |
| `Stills.FillIfMissing` | scripts/pipeline/stills.mjs:295-299 | `if (!(k in cover) && usable) cover[k] = v` is one fill step. |
| `Stills.FillCover` | scripts/pipeline/stills.mjs:287-302 | The statements that complete a prior cover compute exactly `FilledCover`. |
| `Stills.Record` | scripts/pipeline/stills.mjs:304-323 | The record's source is the input. Its id is the one resolved for it. Id, `createdAt`, kind and every hand-edited field are never null. |
| `Stills.BuildRecord` | scripts/pipeline/stills.mjs:156-323 | The loop body builds exactly `Record`. |
| `Stills.Lowers` | scripts/pipeline/stills.mjs:102 | `formats.map(f => f.toLowerCase())`: same length, each format lower-cased. |
| `Stills.MapEach` | scripts/pipeline/stills.mjs:186 | `xs.map(f)`: same length, element by element. |
| `Stills.Index` | scripts/pipeline/stills.mjs:328-333 | The written index is sorted by sort key, then id. It is a permutation of the inputs' records. |
| `Stills.BuildInputs` | scripts/pipeline/stills.mjs:156-326 | The loop returns every input's record in input order, with the built outputs, or the first failure. |
| `Stills.RunStillsPipeline` | scripts/pipeline/stills.mjs:82-343 | The method computes exactly the function `Run`: guards, no-inputs summary, loop, sort. |
| `Stills.BuildAllCounts` | scripts/pipeline/stills.mjs:209-212 | Every input adds four times the number of formats to `made + skipped`, and no output disappears. |
| `Stills.RunShape` | scripts/pipeline/stills.mjs:328-342 | A run with inputs is not aborted and counts its inputs. Its records are sorted and are a permutation of the inputs' records. `made + skipped` is four times the number of formats times the number of inputs. |
| `Stills.RunAccepted` | scripts/pipeline/stills.mjs:95-100 | A run that returns a summary had both folders set and no null prior record. |
| `Stills.ToJsonFields` | scripts/pipeline/stills.mjs:304-323 | The written record holds `source`, `id`, `createdAt`, `sortKey`, `kind` and every hand-edited field under its own name. |
| `Stills.OwnNotHuman` | scripts/pipeline/stills.mjs:304-323 | The record's own fields and the hand-edited ones never share a name. |
| `Stills.ToJsonOwn` | scripts/pipeline/stills.mjs:304-323 | Every own field other than `w`/`h` is written as it is. |
| `Stills.RerunKeepsIdentity` | scripts/pipeline/stills.mjs:161-183 | Rerunning on the index a run wrote keeps every input's id, `createdAt`, `sortKey`, kind and hand-edited fields. This holds whatever the clock, the sharp results or the settings of the second run. |
| `Stills.BuildAllStamps` | scripts/pipeline/stills.mjs:156-212 | The loop over the inputs only writes: every file stays, each either as it was or written at the run's time. |
| `Stills.BuildAllCurrent` | scripts/pipeline/stills.mjs:156-212 | After a successful loop, every input's outputs exist and are not older than its source (or rebuilding is off), when no source is newer than the run. |
| `Stills.BuildAllIdle` | scripts/pipeline/stills.mjs:156-212 | When every input's outputs are current, the loop succeeds, changes no file, makes nothing, and counts every output as skipped. |
| `Stills.RerunMakesNothing` | scripts/pipeline/stills.mjs:156-212 | A second run over the same distinct sources, given the first run's index as its prior records and the first run's output folder, re-encodes nothing. It succeeds, `made` is 0, every output is skipped and no file changes. This holds for any clock and time of the second run, when rebuilding is off or no source is newer than the first run. |
| `Stills.InRecords` | scripts/pipeline/stills.mjs:325 | Every input's record is pushed. |
| `Stills.SourceIdentifies` | scripts/pipeline/stills.mjs:307 | With distinct inputs, a record's `source` tells which input it belongs to. |
| `Stills.PriorOfRerun` | scripts/pipeline/stills.mjs:124-168 | In a written index, the prior record found for an input is the one written for it. |
| `Stills.RecordFromPrior` | scripts/pipeline/stills.mjs:173-183 | A record whose prior record is a written record gets back that record's identity and hand-edited fields. |
| `BuildImages.FirstExisting` | scripts/build-images.mjs:93-96 | None iff there are no candidates. Otherwise the first candidate that exists. When none exists, the first candidate. |
| `BuildImages.ResolveExisting` | scripts/build-images.mjs:93-96 | The `for … if (existsSync) return` loop computes exactly `FirstExisting`. |
| `BuildImages.OriginalsAsWritten` | scripts/build-images.mjs:68 | As written: with the configured or default folder absent and `originals` present, the folder chosen does not exist. |
| `BuildImages.OriginalsWithFallbacks` | scripts/build-images.mjs:8 | With the fallbacks of the header comment, an existing folder is chosen whenever one of the three exists, and earlier folders win. |
| `BuildImages.Mirrored` | scripts/build-images.mjs:129-150 | The destination after mirroring holds exactly the source's files with the source's sizes. A file that needed copying has the copy time. Any other file is left as it was, and is then at most 1 ms older than its source. |
| `BuildImages.MirrorDir` | scripts/build-images.mjs:129-150 | The copy loop, then the prune loop, compute exactly `Mirrored`. |
| `BuildImages.MirrorIdempotent` | scripts/build-images.mjs:136-142 | Mirroring again, with no source newer than the first mirror, copies nothing and changes nothing. |
| `BuildImages.OutTree` | scripts/build-images.mjs:224 | The tree `mirrorDir` walks holds exactly the output folder's files. |
| `BuildImages.LegacyFind` | scripts/build-images.mjs:177-179 | Three cases. A first hit: nothing before it hits or throws. No hit: nothing hits or throws. Otherwise `includes` throws on the first record whose small WebP is a non-string, before any hit. |
| `BuildImages.FindFrom` | scripts/build-images.mjs:177-179 | The scan from index `i` on. A hit is the first record from `i` that matches, and nothing between `i` and it matches or throws. No hit: nothing from `i` on matches or throws. An error: some record from `i` on throws, and nothing before it matches or throws. |
| `BuildImages.LegacyPriorById` | scripts/build-images.mjs:155-177 | A record with the stem as its id is found through `prevById` without the search, so nothing can throw; the last such record wins. |
| `BuildImages.UrlFromPubPlain` | scripts/build-images.mjs:102 | The public file `<tier>/<name>` is served at `/assets/<tier>/<name>`, whatever the public folder is called. |
| `BuildImages.SameUrlsAsStills` | scripts/build-images.mjs:227-232 | The legacy `sizes` are those of the stills pipeline with its default base `/assets`. |
| `BuildImages.LegacyRecordOf` | scripts/build-images.mjs:238-254 | Id and `createdAt` follow the preservation rules. The hand-edited fields are carried over. `rights` is kept unless it is missing or null, and then defaults to `© Omochi Fortress`. |
| `BuildImages.StepEach` | scripts/build-images.mjs:172-257 | The loop computes exactly the function `StepAll`. |
| `BuildImages.RunBuildImages` | scripts/build-images.mjs:153-265 | The script computes exactly `LegacyRun`: prior index, no-inputs exit, loop, sort. |
| `BuildImages.StepAllRecords` | scripts/build-images.mjs:256 | The loop appends every input's record, in input order. |
| `BuildImages.StepAllCounts` | scripts/build-images.mjs:218-221 | The loop counts every output of every input once: `made + skipped` grows by four times the number of formats times the number of inputs. |
| `BuildImages.StepAllKeys` | scripts/build-images.mjs:224 | No output is lost. With inputs, the public folder ends up holding exactly the output folder's files. |
| `BuildImages.StepsRecords` | scripts/build-images.mjs:172-257 | A loop whose every step appends its input's record ends having appended every input's record, in input order. |
| `BuildImages.StepsCounts` | scripts/build-images.mjs:172-257 | A loop whose every step counts `k` outputs as made or skipped counts `k` per input. |
| `BuildImages.StepsKeys` | scripts/build-images.mjs:172-257 | A loop whose every step keeps the output files and mirrors them keeps every output file. With inputs, it ends with the public folder mirroring the output folder. |
| `BuildImages.LegacyRunShape` | scripts/build-images.mjs:158-265 | A run with inputs writes an index sorted by `createdAt`, then id, which is a permutation of the inputs' records. The counts are four times the number of formats times the number of inputs, and the public folder mirrors the output folder. |
| `BuildImages.LegacyRunStops` | scripts/build-images.mjs:155-162 | A `null` prior record makes the run throw. The run exits writing nothing iff there is no `null` record and there are no inputs. |
| `BuildImages.LegacyJsonFields` | scripts/build-images.mjs:239-253 | The written record holds id, `createdAt`, `rights`, `sizes` and every hand-edited field under its own name. |
| `BuildImages.LegacyRerunKeeps` | scripts/build-images.mjs:177-189 | A record whose id is its file stem is found again on the next run and keeps its id, `createdAt`, hand-edited fields and `rights`. |
| `BuildImages.UlidHasNoSeparators` | scripts/build-images.mjs:97 | A ULID contains no `/` and no `.`. |
| `BuildImages.NoOtherStemInUrl` | scripts/build-images.mjs:178 | `/assets/s/<id>.webp` never contains `/<stem>.webp` for a stem other than the id (when neither has `/`, and the id has no `.`). |
| `BuildImages.SmallWebpUrl` | scripts/build-images.mjs:228 | The small WebP URL written for an id is `/assets/s/<id>.webp`. |
| `BuildImages.MintedRecordLost` | scripts/build-images.mjs:177-189 | As written: a record whose id was minted for a file whose name is not a ULID is not found on the next run, even when it is the only record. |
| `Upscale.FlatNameBelow` | scripts/upscale-images.mjs:64 | Below the source folder, the flat name is the remaining segments joined by `_`. |
| `Upscale.MaxSide` | scripts/upscale-images.mjs:66 | The longer side, a missing side counting as 0. |
| `Upscale.TmpPathsDistinct` | scripts/upscale-images.mjs:242-243 | The two temporary names differ from each other and from the output. |
| `Upscale.Columns` | scripts/upscale-images.mjs:90-99 | A report line has seven columns. |
| `Upscale.LineRoundTrip` | scripts/upscale-images.mjs:91-99 | One line's text, newline dropped, splits back at tabs into its columns when no column holds a tab. |
| `Upscale.ReportRoundTrip` | scripts/upscale-images.mjs:91-99 | A report of entries whose columns hold no tab and no newline has one line per entry, plus the empty text after the last newline. Each line splits at tabs back into its entry's columns. |
| `Upscale.NewlineSplitsEntry` | scripts/upscale-images.mjs:91-99 | As written, the entry `x<newline>y`, `z` becomes two report lines: `x` alone, then `y<tab>z`. |
| `Upscale.HeaderMatchesColumns` | scripts/upscale-images.mjs:321-323 | The header has as many columns as every report line. |
| `Upscale.HeaderRoundTrip` | scripts/upscale-images.mjs:322 | The header line reads back as its seven column names, `timestamp` to `extra`. |
| `Upscale.SkipAtTarget` | scripts/upscale-images.mjs:217-221 | At or above the target: skipped and logged `Skip` with `target>=<target>`. Nothing runs, nothing is written, and only `skipped` moves. |
| `Upscale.SkipWhenExists` | scripts/upscale-images.mjs:223-228 | Below the target with the output present: skipped and logged `Skip`/`exists`. Nothing runs, and `total` does not move. |
| `Upscale.UnreadableThrows` | scripts/upscale-images.mjs:212-214 | An unreadable size, or a longest side of 0, throws before anything is counted or run. |
| `Upscale.SmartFollowsPlan` | scripts/upscale-images.mjs:230-293 | Below the target, with no output and no run failing: the image gets exactly its tier's runs, and the counters move as the tier says. The output exists and the temporaries are gone. |
| `Upscale.EasyFollowsPlan` | scripts/upscale-images.mjs:233-240 | When the pass succeeds, the easy tier runs exactly its plan, one Waifu2x pass with noise 1. It writes the output and counts `total` and `w2xOnce`. |
| `Upscale.HardFollowsPlan` | scripts/upscale-images.mjs:245-269 | When no pass fails, the hard tier runs exactly its plan and writes the output. Both temporaries are gone afterwards, and the counters move as the tier says. |
| `Upscale.MidFollowsPlan` | scripts/upscale-images.mjs:272-293 | When no pass fails, the mid tier runs exactly its plan and writes the output. The first temporary is gone afterwards, and the counters move as the tier says. |
| `Upscale.TierMonotone` | scripts/upscale-images.mjs:234-272 | A longer side never lands in a harder tier. |
| `Upscale.PassesNeverGrow` | scripts/upscale-images.mjs:234-293 | A longer side never gets more upscaler runs. |
| `Upscale.MissingModelThrows` | scripts/upscale-images.mjs:173-178 | With the model folder missing, an image that reaches Real-ESRGAN throws that error after its Waifu2x passes, and only `Waifu2x` lines are logged before it. |
| `Upscale.SmartAccounts` | scripts/upscale-images.mjs:211-294 | No counter goes down, and `errors` does not move. A finished image was skipped or started, exactly one of the two. A thrown one was started at most once and not skipped. |
| `Upscale.HardGrows` | scripts/upscale-images.mjs:246-270 | The hard tier only raises the pass counters. |
| `Upscale.MidGrows` | scripts/upscale-images.mjs:272-293 | The mid tier only raises the pass counters. |
| `Upscale.WalkAccounts` | scripts/upscale-images.mjs:296-318 | One image's error never stops the walk. Every selected file is skipped, started or counted as an error, and no counter goes down. `errors` grows by exactly the number of selected files whose upscaling throws. |
| `Upscale.VisitAccounts` | scripts/upscale-images.mjs:298-316 | The same for one entry: a folder is walked, a selected file is accounted for, and `errors` grows by exactly that entry's failures. |
| `Upscale.VisitCatches` | scripts/upscale-images.mjs:307-315 | The `catch` around `upscaleSmart`. A finished image leaves the state `upscaleSmart` left. A thrown one adds exactly one to `errors` and an `Error` line with its message, and changes nothing else. |
| `Upscale.VisitMissingModel` | scripts/upscale-images.mjs:173-178 | With the model folder missing, a selected image that reaches Real-ESRGAN costs the walk one error. The log then ends with that image's `Error` line holding the model error. |
| `Upscale.Upscaler.constructor` | scripts/upscale-images.mjs:61 | Counters start at zero, the log and the runs empty. |
| `Upscale.Upscaler.RunWaifu2x` | scripts/upscale-images.mjs:148-169 | One Waifu2x run: logged and written on success, rethrown on failure. |
| `Upscale.Upscaler.RunRealEsrgan` | scripts/upscale-images.mjs:171-209 | Throws the model error before running. On success it logs and counts the run. On failure it logs `Error` and rethrows. |
| `Upscale.Upscaler.Fallback` | scripts/upscale-images.mjs:257-262 | The near-black check and the Waifu2x fallback. |
| `Upscale.Upscaler.Easy` | scripts/upscale-images.mjs:234-240 | The new state and the error are those of `EasyTier`. |
| `Upscale.Upscaler.Hard` | scripts/upscale-images.mjs:246-270 | The hard tier as specified by `HardTier`. |
| `Upscale.Upscaler.Mid` | scripts/upscale-images.mjs:272-293 | The mid tier as specified by `MidTier`. |
| `Upscale.Upscaler.UpscaleSmart` | scripts/upscale-images.mjs:211-294 | `upscaleSmart` as specified by `Smart`. |
| `Upscale.Upscaler.Tiered` | scripts/upscale-images.mjs:231-293 | Counts `total`, then takes the easy, hard or mid branch. The new state and the error are those of `TierStep`. |
| `Upscale.Upscaler.WalkAndProcess` | scripts/upscale-images.mjs:296-318 | `walkAndProcess` as specified by `Walk`. |
| `Upscale.Upscaler.VisitEntry` | scripts/upscale-images.mjs:299-315 | One entry of the walk as specified by `Visit`. |
| `UpscaleModels.EnvModelsDir` | scripts/upscale-images.mjs:106 | `REALESRGAN_MODELS \|\| REAL_ESRGAN_MODELS`: the first variable set to a non-empty value. |
| `UpscaleModels.SubDirs` | scripts/upscale-images.mjs:120-127 | The sub-folders of the base, in `readdir` order, and no more than its entries. |
| `UpscaleModels.FindModelsDir` | scripts/upscale-images.mjs:104-129 | The candidates start with the folder `EnvModelsDir` gives for the two environment variables. Three outcomes. The first candidate holding both `.param` and `.bin` of the model. Null when none does. The `readdir` error when the base cannot be read and no earlier candidate matched. |
| `UpscaleModels.ScanSubDirs` | scripts/upscale-images.mjs:119-128 | When no earlier candidate holds the model: the first sub-folder of `base` holding both files is the first candidate overall that does. Null when none does. |
| `UpscaleModels.FoundAt` | scripts/upscale-images.mjs:121-126 | The i-th folder entry is the candidate tried right after those before it. |
| `UpscaleModels.StripParam` | scripts/upscale-images.mjs:142 | `path.basename(f, ".param")`: the name is exactly the result followed by `.param`, so a file named just `.param` offers the empty name, as Node's `basename` returns `""` when the name equals the suffix. |
| `UpscaleModels.BelowIsTotalPreorder` | scripts/upscale-images.mjs:145 | The order of `sort()` is a total preorder. |
| `UpscaleModels.ListAvailableModels` | scripts/upscale-images.mjs:131-146 | Every model name offered by the readable model folders, once each, in ascending order, and nothing else. |
| `UpscaleModels.AddStems` | scripts/upscale-images.mjs:141-142 | One folder adds its `.param` names not yet found. There are no repeats. |
| `UpscaleModels.DistinctSorted` | scripts/upscale-images.mjs:145 | Sorting a list without repeats keeps it without repeats. |
| `CopyImages.SanitizeForWin` | copy-images.mjs:21-24 | Same length. Each reserved or control character becomes `_`, and every other character stays in place. |
| `CopyImages.SanitizedIsSafe` | copy-images.mjs:21-24 | A sanitized name holds no reserved or control character. |
| `CopyImages.SanitizeIdempotent` | copy-images.mjs:21-24 | Sanitizing twice is sanitizing once. |
| `CopyImages.SanitizeFixedPoints` | copy-images.mjs:21-24 | A name is unchanged iff it holds no unsafe character. |
| `CopyImages.ExtOfLower` | copy-images.mjs:31 | The extension of the lower-cased name is the lower-cased extension. |
| `CopyImages.IsImageIgnoresCase` | copy-images.mjs:30-32 | `isImage` does not depend on the case of the file name. |
| `CopyImages.FlatNameBelowRoot` | copy-images.mjs:35-41 | Below the root, the flat name is the sanitized `_`-join of the remaining segments, and holds no `/` or `\`. |
| `CopyImages.NumberedInjective` | copy-images.mjs:48 | Different counters give different alternative names. |
| `CopyImages.NumberedIsNew` | copy-images.mjs:48 | An alternative name is never the file name itself, and differs from it even up to case. |
| `CopyImages.LowerNumbered` | copy-images.mjs:48 | Case-folding `<name>_<i><ext>` folds the name and the extension and leaves `_<i>` as it is. |
| `CopyImages.FoldedNumberedInjective` | copy-images.mjs:48 | Different counters give alternative names that differ even up to case. |
| `CopyImages.NextUntried` | copy-images.mjs:46-50 | The next alternative the loop tries differs, up to case, from the file name and from every earlier alternative. |
| `CopyImages.FirstFree` | copy-images.mjs:43-52 | The name `uniquePath` picks on a case-insensitive destination. It never matches a present name in any case. It is the file name itself when that is free in every case. Otherwise it is `<name>_<i><ext>`, with every smaller counter from 1 taken in some case. |
| `CopyImages.UniquePath` | copy-images.mjs:43-52 | The loop returns exactly `FirstFree`. Names are compared case-folded, as `existsSync` does on the Windows destination. The result is never a present name in any case. It is the file name when that is free, otherwise `<name>_<i><ext>` for the smallest free `i >= 1`. |
| `CopyImages.FreshCopiesDistinct` | copy-images.mjs:54-69 | Fresh copies never hit a name that was there, and never share a name, even up to case. |
| `CopyImages.Copier.constructor` | copy-images.mjs:71-74 | A copier starts with the case-folded names of the destination's files and no copies. |
| `CopyImages.Copier.WalkAndCopy` | copy-images.mjs:54-69 | The walk copies exactly the regular image files below the folder, in order. Each copy goes to exactly the name `uniquePath` picks for its source's flat name among the names present at that moment, compared case-folded, and the destination gains exactly those names. |
| `CopyImages.Copier.Visit` | copy-images.mjs:57-67 | A folder is walked. A regular image file is copied to exactly the name `uniquePath` picks for its flat name, which was free in every case. Anything else is passed over. |
| `CopyImages.WalkNeverOverwrites` | copy-images.mjs:54-69 | A walk adds one copy per image file, from that file. No copy's name matches a file that was in the destination, even up to case. No two copies' names match, even up to case, so none overwrites another. |
| `GreedyLayout.OrElse` | src/scripts/greedy-layout.ts:15-16 | `a \|\| b \|\| fallback` over numbers: the first truthy one, else the fallback. |
| `GreedyLayout.GetWHNeverZero` | src/scripts/greedy-layout.ts:23-28 | Neither side is ever 0, so `h / w` is always defined. A non-zero `data-w`/`data-h` wins. |
| `GreedyLayout.GetGaps` | src/scripts/greedy-layout.ts:13-18 | The CSS variable wins. The defaults 12 and 10 apply when neither variable nor option is set. No gap is ever 0. |
| `GreedyLayout.MaxByWidth` | src/scripts/greedy-layout.ts:34-37 | At least one column. |
| `GreedyLayout.MaxByWidthIsLargest` | src/scripts/greedy-layout.ts:31-37 | When one column fits, `maxByWidth` columns fit and one more does not. |
| `GreedyLayout.ComputeCols` | src/scripts/greedy-layout.ts:31-39 | Never below `minCols`. Never above `maxCols` when the bounds are ordered. Exactly `maxByWidth` when it lies between them. At least 1 when `maxCols` is. |
| `GreedyLayout.ColWidth` | src/scripts/greedy-layout.ts:48 | The floor of the width left after `cols - 1` gaps, shared between the columns. |
| `GreedyLayout.Lowest` | src/scripts/greedy-layout.ts:64-65 | The column of least height, the leftmost among equals. |
| `GreedyLayout.LowestColumn` | src/scripts/greedy-layout.ts:64-65 | The scan over the height array finds `Lowest` of the heights. |
| `GreedyLayout.PlaceCard` | src/scripts/greedy-layout.ts:64-75 | One turn of the loop leaves the height array and the placement that `PlaceOne` gives for the old heights. |
| `GreedyLayout.PlaceAll` | src/scripts/greedy-layout.ts:59-76 | One placement per card, and the same number of columns at the end. |
| `GreedyLayout.MaxOf` | src/scripts/greedy-layout.ts:79 | `Math.max(...heights)`: no column is higher, and some column is that high. |
| `GreedyLayout.PlacementOfCard` | src/scripts/greedy-layout.ts:63-75 | Card k goes into the lowest column at `x = col * (colW + gx)`, `y` = that column's height, with width `colW`. The column then grows by the card and the gap. |
| `GreedyLayout.HeightsNeverDecrease` | src/scripts/greedy-layout.ts:75 | With non-negative `outH + gy`, no column ever gets shorter. |
| `GreedyLayout.HeightsAddUp` | src/scripts/greedy-layout.ts:56-76 | The columns together hold every card plus one gap per card. |
| `GreedyLayout.NoOverlap` | src/scripts/greedy-layout.ts:59-76 | Two cards in the same column never overlap: the later one starts below the earlier one and its gap. |
| `GreedyLayout.Layout` | src/scripts/greedy-layout.ts:42-80 | The loop over the height array computes exactly `PlaceAll` from all-zero heights. The container height is the highest column less one gap. |
| `JsonValues.Get` | scripts/pipeline/stills.mjs:167 | `v?.key` is defined iff `v` is an object with that key. |
| `JsonValues.OrElse` | scripts/pipeline/stills.mjs:173 | `v ?? d`: `undefined` and `null` give the default, anything else is kept. |
| `JsonValues.Apply` | scripts/pipeline/stills.mjs:261-269 | `{...base, ...patch}`: the patch wins, its `undefined` properties drop the key, and base keys outside the patch are kept. |
| `Paths.StemExt` | copy-images.mjs:44 | `path.parse`: name plus extension gives the file name back. The extension is empty or a dot followed by dot-free text. |
| `Paths.RelativeToAncestor` | scripts/upscale-images.mjs:64 | `path.relative` from an ancestor is the list of remaining segments. |
| `Strings.NatToStringDigits` | copy-images.mjs:48 | The decimal form of a counter holds only the digits `0`-`9`. |
| `Strings.LowerAppend` | copy-images.mjs:47 | Lower-casing distributes over concatenation. |
| `Strings.ContainsAt` | scripts/build-images.mjs:178 | `includes` holds iff the text occurs at some index. |
| `Strings.UnitRankIsUtf16Order` | scripts/upscale-images.mjs:145 | `sort()` compares UTF-16 code units. `Below` compares characters by a rank that follows that order exactly: one character ranks below another iff its code units are lexicographically smaller, and equal ranks mean equal characters. Characters from U+10000 up therefore sort between U+D7FF and U+E000. |
| `Sorting.SortBy` | scripts/build-images.mjs:260-265 | The sort returns a list ordered by the comparator that is a permutation of its input. |

## Findings

| source | as written | input that shows it | evidently intended | confidence | as-written member | corrected member |
|---|---|---|---|---|---|---|
| scripts/build-images.mjs:68 | `resolveExisting` gets a single candidate, so there is no fallback: when `originals/originals_upscaled` is absent the script globs a missing folder, finds no inputs and exits | no `originals/originals_upscaled` folder, an `originals` folder holding `cat.png` | the header comment's order: `originals/originals_upscaled`, then `originals`, then `src/originals` | medium, not executed | `BuildImages.OriginalsAsWritten` | `BuildImages.OriginalsWithFallbacks` |
| scripts/build-images.mjs:177-189 | a prior record is looked up only by `id === stem` or by `/<stem>.webp` in its small WebP URL; an id minted for a file whose name is not a ULID matches neither, so every run mints a new id, orphans the old outputs and drops the hand edits | `cat.png` with a prior record `{id: <minted ULID>, sizes: <its URLs>, title: "Cat"}` | the record is found again (as the newer `stills.mjs` does, by `source` path) | medium, not executed | `BuildImages.MintedRecordLost` | `Stills.ResolveBySource` |

## Left out

- The upscaler is spawned as a child process at scripts/build-images.mjs:49-65. Process spawning is not modelled; the model starts after it.
- sharp's image work is not modelled: resizing, widths, quality, the LQIP data URI, metadata. Each original's modification time, width, height and LQIP are given by a parameter; `getMeta` failures are `None` widths and heights.
- An encoder failure other than an unsupported format is not modelled.
- The size of an encoded file is a parameter. Files whose size the encoder changes without changing their time are not tracked.
- The pixel statistics of `isBlackImage` are not modelled; the near-black decision is a parameter.
- `FLATTEN_BEFORE` and `dumpTemp` are not modelled. Both are debugging and preprocessing side paths that write extra files only.
- `findModelsDir` is re-run for every image in the source; the model does it once per run. The folders it reads do not change while images are upscaled.
- The wording of the model-not-found message is a parameter; the list of models in it is `UpscaleModels.ListAvailableModels`.
- Removing the temporary files always succeeds in the model. The source ignores those errors: the `unlink` calls at scripts/upscale-images.mjs:263 and 267 sit in empty `catch` blocks.
- Renaming the second Waifu2x result into place always succeeds in the model. A failed `rename` at scripts/upscale-images.mjs:265 would be caught by `walkAndProcess` (lines 309-315) as an error for that image, counted in `errors` and written as an `Error` line.
- Failures that end the whole script are not modelled, because nothing catches them: `readdir` in `walkAndProcess` (scripts/upscale-images.mjs:297), `readdir` in `walkAndCopy` (copy-images.mjs:55) and `copyFile` (copy-images.mjs:64). In the model, listings are given and copies succeed.
- ULID minting, ISO formatting and `Date.parse` are parameters of a clock. `NaN` dates are not modelled.
- Numbers are integers. Fractional `mtimeMs` and non-integer `sortKey` values are not modelled.
- The sort is modelled with `localeCompare` taken as code-unit order. Locale collation rules are not part of the model.
- Stills.Lowers: lower-cases only the ASCII capitals `A`-`Z`. `toLowerCase` (scripts/pipeline/stills.mjs:102) also maps every other cased character by Unicode's tables, for example `É` to `é` and the Kelvin sign U+212A to ASCII `k`; the model leaves those characters unchanged, so a format name holding one is not lowered as the script lowers it.
- Strings.Lower: the same ASCII-only lower-casing stands for `toLowerCase` at scripts/build-images.mjs:43, scripts/upscale-images.mjs:303 and copy-images.mjs:31. An extension or format holding a non-ASCII cased character can therefore match the script's list in the script and not in the model.
- CopyImages.FirstFree: the case-insensitive name comparison of the Windows destination (`existsSync` at copy-images.mjs:47) is modelled by the same ASCII-only folding. Windows also treats non-ASCII case variants, such as `É` and `é`, as one name. The model treats those as different names, so for them `FirstFree`, `CopyImages.UniquePath` and `CopyImages.WalkNeverOverwrites` promise distinct names only up to ASCII case.
- Upscale.LineRoundTrip: the round trip is for one line's own text. Columns are written as they are, so an entry whose column holds a newline spans several lines of the report file. Error texts can hold one: Real-ESRGAN's `stderr` (scripts/upscale-images.mjs:206) and the `Command failed` message caught at line 314. `Upscale.ReportRoundTrip` reads a report back entry by entry only when no column holds a newline; `Upscale.NewlineSplitsEntry` shows an entry that does not read back.
- The sorting algorithm itself is not the engine's: the model sorts by insertion and proves only what any correct sort gives, a sorted permutation.
- Key order of written JSON objects is not modelled: objects are maps. Properties whose value is `undefined` are dropped, as `JSON.stringify` drops them.
- Reading and writing `images.json` is not modelled; the prior index is a list of JSON values. A parse failure giving `[]` is not modelled.
- A non-array `formats` or prior index is not modelled: both are sequences.
- Ids containing `/` are not modelled: path segments never contain a separator.
- The output and public folders of `build-images.mjs` are taken to be disjoint. `stat` failures inside `mirrorDir` are not modelled; they mean "copy".
- Directories, `ensureDir` and empty folders left behind by pruning are not modelled: trees are maps of files.
- `fast-glob` and `readdir` results are parameters. The extension filter of the glob is applied by the caller.
- Console output is not modelled: the effective-config logs, progress lines, the summary and timing (`ms`, `durationMs`).
- Loading `site.config.json` is not modelled; its values are configuration parameters.
- The DOM side of the greedy layout is not modelled: CSS variables, `querySelectorAll`, style writes, the resize debounce, and the `Math.round(colW * h / w)` height, which is floating point. Card heights arrive as integers.
- `peek.js`, `peek-agent.js`, `astro.config.mjs` and `robots.txt.ts` are not part of this model.
- GreedyLayout.ComputeCols: requires `minWidth + gx > 0`, because the source divides by it. A zero divisor is not modelled.
- GreedyLayout.ColWidth / GreedyLayout.Layout: both require `cols >= 1`. `computeCols` gives that whenever `minCols >= 1` or `maxCols >= 1`, but the options come from the caller, and the source does not check them. With both bounds at most 0, `computeCols` returns a column count of 0 or less. At 0, line 48 of src/scripts/greedy-layout.ts divides by zero. The column width is then infinite or `NaN`, every card is placed at `x = NaN` and `y = undefined`, and the container height is `-Infinity`. Below 0, `new Array(cols)` at line 56 throws a `RangeError`. Neither case is modelled.
