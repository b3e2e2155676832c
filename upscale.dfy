/** The upscaler (`upscale-images.mjs`): walks the low-resolution originals
    and brings each image towards the target longest side with Waifu2x
    passes and an optional Real-ESRGAN pass, keeping counters and a
    tab-separated report.

    The tools, the image probe and the black-frame test are an oracle; the
    destination folder is the set of paths that exist; the report is the
    list of its entries. `World` is that state as a value, the functions
    below say what each step does to it, and the `Upscaler` class does the
    same steps in place. */
module Upscale {
  import opened Wrappers
  import opened Strings
  import opened Paths

  // -----------------------------------------------------------------------
  // configuration, oracle and state

  /** The settings the script reads once, with the defaults of the script:
      target 2000, easy from 700, hard up to 250, extensions
      .jpg .jpeg .png .webp, model `realesr-animevideov3-x2`. */
  datatype Config = Config(
    target: int,
    minForEasy: int,
    minForHard: int,
    exts: set<string>,
    src: Path,
    dst: Path,
    /** `fs.existsSync(REALESRGAN)`: the Real-ESRGAN program is installed. */
    hasRealEsrgan: bool,
    /** `debug.detectBlack`. */
    detectBlack: bool,
    rgModel: string,
    /** What looking for the model gives: its folder, or the message of the
        error thrown when it is missing. */
    models: Result<Path, string>)

  function DefaultConfig(src: Path, dst: Path, hasRealEsrgan: bool, models: Result<Path, string>): Config
  {
    Config(2000, 700, 250, {".jpg", ".jpeg", ".png", ".webp"}, src, dst,
           hasRealEsrgan, false, "realesr-animevideov3-x2", models)
  }

  /** What `image-size` reports for a file: its sides when it can read them
      (either may be missing), or the message it throws. */
  datatype Probe = Size(width: Option<nat>, height: Option<nat>) | ProbeError(message: string)

  /** An external program run: Waifu2x (always 2x, model `models-cunet`) with
      its noise level, or Real-ESRGAN (2x) with its models folder. */
  datatype Run =
    | Waifu2x(input: Path, output: Path, noise: int)
    | RealEsrgan(input: Path, output: Path, modelsDir: Path)

  /** How a failed run ends: its standard error and the error's message. */
  datatype ToolError = ToolError(stderr: string, message: string)

  /** Everything the script learns from outside. */
  datatype Oracle = Oracle(
    probe: Path -> Probe,
    fails: Run -> Option<ToolError>,
    black: Path -> bool)

  /** The counters printed at the end. */
  datatype Stats = Stats(total: nat, skipped: nat, w2xOnce: nat, w2xTwice: nat, realesrganUsed: nat, errors: nat)

  /** One report line before formatting (the timestamp is added on output). */
  datatype LogEntry = LogEntry(src: Path, out: Path, methodName: string, model: string, scale: string, extra: string)

  datatype World = World(stats: Stats, log: seq<LogEntry>, files: set<Path>, runs: seq<Run>)

  /** The end of a step: it finished, or it threw with a message; either way
      with what it had done by then. */
  datatype Outcome = Done(world: World) | Thrown(world: World, message: string)
  {
    predicate IsFailure() { Thrown? }

    function PropagateFailure(): Outcome
      requires Thrown?
    {
      this
    }

    function Extract(): World
      requires Done?
    {
      world
    }
  }

  // -----------------------------------------------------------------------
  // small helpers of the script

  /** `flatName`: the path relative to `base`, segments joined with `_`. */
  function FlatName(base: Path, full: Path): string
  {
    Join(Relative(base, full), "_")
  }

  /** Below `base` the flat name is the remaining segments joined by `_`. */
  lemma FlatNameBelow(base: Path, rest: Path)
    ensures FlatName(base, base + rest) == Join(rest, "_")
  {
    RelativeToAncestor(base, rest);
  }

  /** `maxSide`: the longer side, a missing side counting as 0. */
  function MaxSide(width: Option<nat>, height: Option<nat>): (m: nat)
    ensures m >= width.GetOr(0) && m >= height.GetOr(0)
    ensures m == width.GetOr(0) || m == height.GetOr(0)
  {
    var w, h := width.GetOr(0), height.GetOr(0);
    if w >= h then w else h
  }

  /** `name.replace(/(\.[^.]+)$/, tag + "$1")` on the last segment: the tag
      goes in front of a final extension, and a name without one is left as
      it is. */
  function InsertBeforeExt(name: string, tag: string): string
  {
    var d := LastIndexOf(name, '.');
    if 0 <= d < |name| - 1 then name[..d] + tag + name[d..] else name
  }

  /** The name has a final extension that the pattern `\.[^.]+$` finds. */
  predicate HasFinalExt(name: string)
  {
    0 <= LastIndexOf(name, '.') < |name| - 1
  }

  function TmpPath(out: Path, tag: string): Path
    requires |out| >= 1
  {
    out[..|out| - 1] + [InsertBeforeExt(out[|out| - 1], tag)]
  }

  const Tmp1 := "_tmp1"
  const Tmp2 := "_tmp2"

  /** The two temporary names differ from each other and from the output. */
  lemma TmpPathsDistinct(out: Path)
    requires |out| >= 1 && HasFinalExt(out[|out| - 1])
    ensures TmpPath(out, Tmp1) != out && TmpPath(out, Tmp2) != out
    ensures TmpPath(out, Tmp1) != TmpPath(out, Tmp2)
  {
    var n := out[|out| - 1];
    var d := LastIndexOf(n, '.');
    assert |InsertBeforeExt(n, Tmp1)| == |n| + 5;
    assert TmpPath(out, Tmp1)[|out| - 1] != n;
    assert TmpPath(out, Tmp2)[|out| - 1] != n;
    assert InsertBeforeExt(n, Tmp1)[d + 4] == '1';
    assert InsertBeforeExt(n, Tmp2)[d + 4] == '2';
    assert TmpPath(out, Tmp1)[|out| - 1] != TmpPath(out, Tmp2)[|out| - 1];
  }

  // -----------------------------------------------------------------------
  // the report

  /** The seven columns of a report line, the paths written with `sep`. */
  function Columns(timestamp: string, sep: string, e: LogEntry): (cols: seq<string>)
    ensures |cols| == 7
  {
    [timestamp, Join(e.src, sep), Join(e.out, sep), e.methodName, e.model, e.scale, e.extra]
  }

  /** `logLine`: the columns joined with tabs, ending in a newline. */
  function Line(cols: seq<string>): string
  {
    Join(cols, "\t") + "\n"
  }

  /** Reading a report line back: drop the newline, split at tabs. */
  function ParseLine(line: string): Option<seq<string>>
  {
    if |line| > 0 && line[|line| - 1] == '\n' then Some(Split(line[..|line| - 1], '\t')) else None
  }

  /** The column names of the header the script writes into a new report. */
  const HeaderColumns: seq<string> := ["timestamp", "src", "out", "method", "model", "scale", "extra"]

  /** The header line: `timestamp\tsrc\tout\tmethod\tmodel\tscale\textra\n`. */
  const Header := Line(HeaderColumns)

  /** A line gives its columns back when no column holds a tab. */
  lemma LineRoundTrip(cols: seq<string>)
    requires |cols| >= 1
    requires forall i :: 0 <= i < |cols| ==> '\t' !in cols[i]
    ensures ParseLine(Line(cols)) == Some(cols)
  {
    var l := Line(cols);
    assert l[..|l| - 1] == Join(cols, "\t");
    SplitJoin(cols, '\t');
  }

  /** The report file's text after the lines of `rows` were appended, in order. */
  function ReportText(rows: seq<seq<string>>): string
  {
    if |rows| == 0 then "" else Line(rows[0]) + ReportText(rows[1..])
  }

  /** A separator that no part holds and the joining string does not hold
      is not in the joined text. */
  lemma {:induction false} NotInJoin(parts: seq<string>, sep: string, c: char)
    requires forall i :: 0 <= i < |parts| ==> c !in parts[i]
    requires c !in sep
    ensures c !in Join(parts, sep)
  {
    if |parts| > 1 {
      NotInJoin(parts[1..], sep, c);
    }
  }

  /** A report whose columns hold no tab and no newline reads back entry by
      entry: split at newlines it has one line per entry (and the empty text
      after the last newline), and each line split at tabs is that entry's
      columns. */
  lemma {:induction false} ReportRoundTrip(rows: seq<seq<string>>)
    requires forall i :: 0 <= i < |rows| ==> |rows[i]| >= 1
    requires forall i, j :: 0 <= i < |rows| && 0 <= j < |rows[i]| ==> '\t' !in rows[i][j] && '\n' !in rows[i][j]
    ensures |Split(ReportText(rows), '\n')| == |rows| + 1
    ensures Split(ReportText(rows), '\n')[|rows|] == ""
    ensures forall i :: 0 <= i < |rows| ==> Split(Split(ReportText(rows), '\n')[i], '\t') == rows[i]
  {
    if |rows| > 0 {
      var p := Join(rows[0], "\t");
      var rest := rows[1..];
      ReportRoundTrip(rest);
      NotInJoin(rows[0], "\t", '\n');
      assert ReportText(rows) == p + ['\n'] + ReportText(rest);
      SplitAfterField(p, ReportText(rest), '\n');
      SplitJoin(rows[0], '\t');
      var lines := Split(ReportText(rows), '\n');
      forall i | 1 <= i < |rows| ensures Split(lines[i], '\t') == rows[i] {
        assert rows[i] == rest[i - 1];
      }
    } else {
      assert ReportText(rows) == "";
    }
  }

  /** As written, an entry whose column holds a newline (an error text with
      a tool's `stderr`, say) is not one line of the report: the entry
      `x<newline>y`, `z` reads back as a line holding the one column `x` and
      a line holding `y`, `z`. */
  lemma NewlineSplitsEntry()
    ensures Split(ReportText([["x\ny", "z"]]), '\n') == ["x", "y\tz", ""]
    ensures Split("x", '\t') == ["x"]
  {
    assert ReportText([["x\ny", "z"]]) == "x" + ['\n'] + "y\tz\n" by {
      assert ReportText([["x\ny", "z"]]) == Line(["x\ny", "z"]) + ReportText([]);
    }
    SplitAfterField("x", "y\tz\n", '\n');
    assert "y\tz\n" == "y\tz" + ['\n'] + "";
    SplitAfterField("y\tz", "", '\n');
    SplitNoSeparator("x", '\t');
  }

  /** Every entry fills the header's seven columns. */
  lemma HeaderMatchesColumns(timestamp: string, sep: string, e: LogEntry)
    ensures ParseLine(Header).Some? && |ParseLine(Header).value| == |Columns(timestamp, sep, e)|
  {
    HeaderRoundTrip();
  }

  /** The header reads back as its seven column names. */
  lemma HeaderRoundTrip()
    ensures ParseLine(Header) == Some(HeaderColumns)
  {
    forall i | 0 <= i < |HeaderColumns| ensures '\t' !in HeaderColumns[i] {
      NoTabInName(HeaderColumns[i]);
    }
    LineRoundTrip(HeaderColumns);
  }

  lemma NoTabInName(name: string)
    requires name in HeaderColumns
    ensures '\t' !in name
  {
  }

  // -----------------------------------------------------------------------
  // the steps

  const W2xModel := "models-cunet"
  const BlackNote := "black_detected_after_realesr"

  /** `runWaifu2x`: the run is made; when it succeeds its output exists and
      a `Waifu2x` line is written; when it fails the error goes on up
      without a line. */
  function RunW2x(o: Oracle, w: World, input: Path, output: Path, noise: int): Outcome
  {
    var run := Waifu2x(input, output, noise);
    var w1 := w.(runs := w.runs + [run]);
    match o.fails(run)
    case Some(e) => Thrown(w1, e.message)
    case None =>
      Done(w1.(files := w1.files + {output},
               log := w1.log + [LogEntry(input, output, "Waifu2x", W2xModel, "2x", "")]))
  }

  /** `stderr || message`. */
  function ErrorText(e: ToolError): string
  {
    if e.stderr != "" then e.stderr else e.message
  }

  /** `runRealESRGAN`: a missing model throws before anything runs; a failed
      run writes an `Error` line and throws; a good run writes a
      `RealESRGAN` line and counts itself. */
  function RunRe(cfg: Config, o: Oracle, w: World, input: Path, output: Path): Outcome
  {
    match cfg.models
    case Err(msg) => Thrown(w, msg)
    case Ok(dir) =>
      var run := RealEsrgan(input, output, dir);
      var w1 := w.(runs := w.runs + [run]);
      match o.fails(run)
      case Some(e) =>
        Thrown(w1.(log := w1.log + [LogEntry(input, output, "Error", cfg.rgModel, "", ErrorText(e))]), e.message)
      case None =>
        Done(w1.(files := w1.files + {output},
                 log := w1.log + [LogEntry(input, output, "RealESRGAN", cfg.rgModel, "2x", "")],
                 stats := w1.stats.(realesrganUsed := w1.stats.realesrganUsed + 1)))
  }

  /** After Real-ESRGAN: when black frames are looked for and the output is
      black, a `Fallback` line and one more Waifu2x pass from `tmp` over it. */
  function BlackFallback(cfg: Config, o: Oracle, w: World, tmp: Path, out: Path): Outcome
  {
    if cfg.detectBlack && o.black(out) then
      var w1 := w.(log := w.log + [LogEntry(tmp, out, "Fallback", "Waifu2x", "", BlackNote)]);
      RunW2x(o, w1, tmp, out, 0)
    else Done(w)
  }

  /** `try { unlink(a); unlink(b) } catch {}`: when `a` is missing the first
      unlink throws and `b` stays. */
  function Unlink2(files: set<Path>, a: Path, b: Path): set<Path>
  {
    if a in files then files - {a, b} else files
  }

  function Unlink(files: set<Path>, a: Path): set<Path>
  {
    files - {a}
  }

  function Bump(w: World, s: Stats): World
  {
    w.(stats := s)
  }

  /** The tiers below the target. */
  datatype Tier = Easy | Mid | Hard

  function TierOf(cfg: Config, m: int): Tier
  {
    if m >= cfg.minForEasy then Easy else if m <= cfg.minForHard then Hard else Mid
  }

  /** Easy tier: one Waifu2x pass with noise 1 straight to the output. */
  function EasyTier(o: Oracle, w: World, full: Path, out: Path): Outcome
  {
    var w1 :- RunW2x(o, w, full, out, 1);
    Done(Bump(w1, w1.stats.(w2xOnce := w1.stats.w2xOnce + 1)))
  }

  /** Hard tier: two Waifu2x passes through `tmp1` and `tmp2`, then
      Real-ESRGAN from `tmp2` with the black fallback and both temporaries
      removed, or, without Real-ESRGAN, `tmp2` renamed to the output. */
  function HardTier(cfg: Config, o: Oracle, w: World, full: Path, out: Path, tmp1: Path, tmp2: Path): Outcome
  {
    var w1 :- RunW2x(o, w, full, tmp1, 1);
    var w2 :- RunW2x(o, w1, tmp1, tmp2, 0);
    var w3 := Bump(w2, w2.stats.(w2xTwice := w2.stats.w2xTwice + 1));
    if cfg.hasRealEsrgan then
      var w4 :- RunRe(cfg, o, w3, tmp2, out);
      var w5 :- BlackFallback(cfg, o, w4, tmp2, out);
      Done(w5.(files := Unlink2(w5.files, tmp1, tmp2)))
    else
      Done(w3.(files := Unlink(w3.files - {tmp2} + {out}, tmp1)))
  }

  /** Mid tier: one Waifu2x pass into `tmp1`, then Real-ESRGAN with the black
      fallback, or a second Waifu2x pass; `tmp1` removed. */
  function MidTier(cfg: Config, o: Oracle, w: World, full: Path, out: Path, tmp1: Path): Outcome
  {
    var w1 :- RunW2x(o, w, full, tmp1, 1);
    var w2 := Bump(w1, w1.stats.(w2xOnce := w1.stats.w2xOnce + 1));
    if cfg.hasRealEsrgan then
      var w3 :- RunRe(cfg, o, w2, tmp1, out);
      var w4 :- BlackFallback(cfg, o, w3, tmp1, out);
      Done(w4.(files := Unlink(w4.files, tmp1)))
    else
      var w3 :- RunW2x(o, w2, tmp1, out, 0);
      var w4 := Bump(w3, w3.stats.(w2xTwice := w3.stats.w2xTwice + 1));
      Done(w4.(files := Unlink(w4.files, tmp1)))
  }

  /** A `Skip` line and one more skipped image. */
  function Skip(w: World, full: Path, out: Path, why: string): World
  {
    World(w.stats.(skipped := w.stats.skipped + 1),
          w.log + [LogEntry(full, out, "Skip", "", "", why)], w.files, w.runs)
  }

  /** `upscaleSmart` for the image `full` and the output `out`. */
  function Smart(cfg: Config, o: Oracle, w: World, full: Path, out: Path): Outcome
    requires |out| >= 1
  {
    match o.probe(full)
    case ProbeError(msg) => Thrown(w, msg)
    case Size(width, height) =>
      var m := MaxSide(width, height);
      if m == 0 then Thrown(w, "size read failed")
      else if m >= cfg.target then Done(Skip(w, full, out, "target>=" + IntToString(cfg.target)))
      else if out in w.files then Done(Skip(w, full, out, "exists"))
      else
        TierStep(cfg, o, w, full, out, m)
  }

  /** Below the target with no output yet: `total` counted, then the
      tier's passes. */
  function TierStep(cfg: Config, o: Oracle, w: World, full: Path, out: Path, m: int): Outcome
    requires |out| >= 1
  {
    var w0 := Started(w);
    match TierOf(cfg, m)
    case Easy => EasyTier(o, w0, full, out)
    case Hard => HardTier(cfg, o, w0, full, out, TmpPath(out, Tmp1), TmpPath(out, Tmp2))
    case Mid => MidTier(cfg, o, w0, full, out, TmpPath(out, Tmp1))
  }

  /** Does the walk take up a file with this name? */
  predicate Selected(cfg: Config, name: string)
  {
    Lower(Ext(name)) in cfg.exts
  }

  /** `walkAndProcess`: every entry in order; a directory is walked; any
      other entry whose lower-cased extension is selected is upscaled, and
      an error it throws is counted and written as an `Error` line before
      the walk goes on. */
  function Walk(cfg: Config, o: Oracle, w: World, dir: Path, entries: seq<Entry<()>>): World
    decreases entries
  {
    if |entries| == 0 then w
    else Walk(cfg, o, Visit(cfg, o, w, dir, entries[0]), dir, entries[1..])
  }

  function Visit(cfg: Config, o: Oracle, w: World, dir: Path, e: Entry<()>): World
    decreases e
  {
    match e
    case Dir(n, children) => Walk(cfg, o, w, dir + [n], children)
    case File(n, _, _) =>
      if !Selected(cfg, n) then w
      else
        var full := dir + [n];
        var out := cfg.dst + [FlatName(cfg.src, full)];
        match Smart(cfg, o, w, full, out)
        case Done(w1) => w1
        case Thrown(w1, msg) => Caught(w1, full, out, msg)
  }

  /** The walk's `catch`: one more error and an `Error` line with the message. */
  function Caught(w: World, full: Path, out: Path, msg: string): World
  {
    World(w.stats.(errors := w.stats.errors + 1),
          w.log + [LogEntry(full, out, "Error", "", "", msg)], w.files, w.runs)
  }

  // -----------------------------------------------------------------------
  // what upscaleSmart promises

  /** The runs an image below the target gets when none of them fails: the
      plan of its tier. */
  function Plan(cfg: Config, tier: Tier, dir: Path, full: Path, out: Path, black: bool): seq<Run>
    requires |out| >= 1
  {
    var tmp1, tmp2 := TmpPath(out, Tmp1), TmpPath(out, Tmp2);
    var fallback := cfg.detectBlack && black;
    match tier
    case Easy => [Waifu2x(full, out, 1)]
    case Hard =>
      [Waifu2x(full, tmp1, 1), Waifu2x(tmp1, tmp2, 0)]
      + (if cfg.hasRealEsrgan then [RealEsrgan(tmp2, out, dir)] + (if fallback then [Waifu2x(tmp2, out, 0)] else []) else [])
    case Mid =>
      [Waifu2x(full, tmp1, 1)]
      + (if cfg.hasRealEsrgan then [RealEsrgan(tmp1, out, dir)] + (if fallback then [Waifu2x(tmp1, out, 0)] else [])
         else [Waifu2x(tmp1, out, 0)])
  }

  /** An image at or above the target is skipped before anything else is
      looked at, whether or not its output exists: no run, no file. */
  lemma SkipAtTarget(cfg: Config, o: Oracle, w: World, full: Path, out: Path)
    requires |out| >= 1 && o.probe(full).Size?
    requires MaxSide(o.probe(full).width, o.probe(full).height) >= cfg.target
    requires MaxSide(o.probe(full).width, o.probe(full).height) > 0
    ensures var r := Smart(cfg, o, w, full, out);
            && r.Done? && r.world.runs == w.runs && r.world.files == w.files
            && r.world.stats == w.stats.(skipped := w.stats.skipped + 1)
            && r.world.log == w.log + [LogEntry(full, out, "Skip", "", "", "target>=" + IntToString(cfg.target))]
  {
  }

  /** Below the target, an output that exists is skipped: no run, and the
      image is not counted in `total`. */
  lemma SkipWhenExists(cfg: Config, o: Oracle, w: World, full: Path, out: Path)
    requires |out| >= 1 && o.probe(full).Size?
    requires 0 < MaxSide(o.probe(full).width, o.probe(full).height) < cfg.target
    requires out in w.files
    ensures var r := Smart(cfg, o, w, full, out);
            && r.Done? && r.world.runs == w.runs && r.world.files == w.files
            && r.world.stats == w.stats.(skipped := w.stats.skipped + 1)
            && r.world.log == w.log + [LogEntry(full, out, "Skip", "", "", "exists")]
  {
  }

  /** An image whose size cannot be read throws before anything is counted or run. */
  lemma UnreadableThrows(cfg: Config, o: Oracle, w: World, full: Path, out: Path)
    requires |out| >= 1
    requires o.probe(full).ProbeError? || MaxSide(o.probe(full).width, o.probe(full).height) == 0
    ensures Smart(cfg, o, w, full, out) == Thrown(w, if o.probe(full).ProbeError? then o.probe(full).message else "size read failed")
  {
  }

  /** The counters an image below the target moves when every run succeeds. */
  function Counted(cfg: Config, s: Stats, tier: Tier): Stats
  {
    var re := if cfg.hasRealEsrgan then 1 else 0;
    match tier
    case Easy => s.(total := s.total + 1, w2xOnce := s.w2xOnce + 1)
    case Hard => s.(total := s.total + 1, w2xTwice := s.w2xTwice + 1, realesrganUsed := s.realesrganUsed + re)
    case Mid => s.(total := s.total + 1, w2xOnce := s.w2xOnce + 1, w2xTwice := s.w2xTwice + 1 - re,
                   realesrganUsed := s.realesrganUsed + re)
  }

  /** Below the target with no output yet, and no run failing: the image gets
      exactly the runs of its tier's plan, its output exists, the
      temporaries are gone, and the counters move as the tier says. */
  lemma SmartFollowsPlan(cfg: Config, o: Oracle, w: World, full: Path, out: Path, dir: Path)
    requires |out| >= 1 && HasFinalExt(out[|out| - 1]) && o.probe(full).Size?
    requires 0 < MaxSide(o.probe(full).width, o.probe(full).height) < cfg.target
    requires out !in w.files
    requires cfg.hasRealEsrgan ==> cfg.models == Ok(dir)
    requires var tier := TierOf(cfg, MaxSide(o.probe(full).width, o.probe(full).height));
             forall i :: 0 <= i < |Plan(cfg, tier, dir, full, out, o.black(out))| ==>
               o.fails(Plan(cfg, tier, dir, full, out, o.black(out))[i]).None?
    ensures var tier := TierOf(cfg, MaxSide(o.probe(full).width, o.probe(full).height));
            var r := Smart(cfg, o, w, full, out);
            && r.Done?
            && r.world.runs == w.runs + Plan(cfg, tier, dir, full, out, o.black(out))
            && r.world.stats == Counted(cfg, w.stats, tier)
            && out in r.world.files
            && (tier != Easy ==> TmpPath(out, Tmp1) !in r.world.files)
            && (tier == Hard ==> TmpPath(out, Tmp2) !in r.world.files)
  {
    var m := MaxSide(o.probe(full).width, o.probe(full).height);
    var tier := TierOf(cfg, m);
    match tier {
      case Easy => EasyFollowsPlan(cfg, o, w, full, out, dir);
      case Hard => HardFollowsPlan(cfg, o, w, full, out, dir);
      case Mid => MidFollowsPlan(cfg, o, w, full, out, dir);
    }
  }

  /** `total` counted, as `upscaleSmart` does before it picks a tier. */
  function Started(w: World): World
  {
    Bump(w, w.stats.(total := w.stats.total + 1))
  }

  lemma EasyFollowsPlan(cfg: Config, o: Oracle, w: World, full: Path, out: Path, dir: Path)
    requires |out| >= 1
    requires forall i :: 0 <= i < |Plan(cfg, Easy, dir, full, out, o.black(out))| ==>
               o.fails(Plan(cfg, Easy, dir, full, out, o.black(out))[i]).None?
    ensures var r := EasyTier(o, Started(w), full, out);
            && r.Done?
            && r.world.runs == w.runs + Plan(cfg, Easy, dir, full, out, o.black(out))
            && r.world.stats == Counted(cfg, w.stats, Easy)
            && out in r.world.files
  {
    var p := Plan(cfg, Easy, dir, full, out, o.black(out));
    assert o.fails(p[0]).None?;
  }

  lemma HardFollowsPlan(cfg: Config, o: Oracle, w: World, full: Path, out: Path, dir: Path)
    requires |out| >= 1 && HasFinalExt(out[|out| - 1])
    requires cfg.hasRealEsrgan ==> cfg.models == Ok(dir)
    requires forall i :: 0 <= i < |Plan(cfg, Hard, dir, full, out, o.black(out))| ==>
               o.fails(Plan(cfg, Hard, dir, full, out, o.black(out))[i]).None?
    ensures var r := HardTier(cfg, o, Started(w), full, out, TmpPath(out, Tmp1), TmpPath(out, Tmp2));
            && r.Done?
            && r.world.runs == w.runs + Plan(cfg, Hard, dir, full, out, o.black(out))
            && r.world.stats == Counted(cfg, w.stats, Hard)
            && out in r.world.files
            && TmpPath(out, Tmp1) !in r.world.files
            && TmpPath(out, Tmp2) !in r.world.files
  {
    var p := Plan(cfg, Hard, dir, full, out, o.black(out));
    TmpPathsDistinct(out);
    assert o.fails(p[0]).None? && o.fails(p[1]).None?;
    if cfg.hasRealEsrgan {
      assert o.fails(p[2]).None?;
      if cfg.detectBlack && o.black(out) {
        assert o.fails(p[3]).None?;
      }
    }
  }

  lemma MidFollowsPlan(cfg: Config, o: Oracle, w: World, full: Path, out: Path, dir: Path)
    requires |out| >= 1 && HasFinalExt(out[|out| - 1])
    requires cfg.hasRealEsrgan ==> cfg.models == Ok(dir)
    requires forall i :: 0 <= i < |Plan(cfg, Mid, dir, full, out, o.black(out))| ==>
               o.fails(Plan(cfg, Mid, dir, full, out, o.black(out))[i]).None?
    ensures var r := MidTier(cfg, o, Started(w), full, out, TmpPath(out, Tmp1));
            && r.Done?
            && r.world.runs == w.runs + Plan(cfg, Mid, dir, full, out, o.black(out))
            && r.world.stats == Counted(cfg, w.stats, Mid)
            && out in r.world.files
            && TmpPath(out, Tmp1) !in r.world.files
  {
    var p := Plan(cfg, Mid, dir, full, out, o.black(out));
    TmpPathsDistinct(out);
    assert o.fails(p[0]).None? && o.fails(p[1]).None?;
    if cfg.hasRealEsrgan && cfg.detectBlack && o.black(out) {
      assert o.fails(p[2]).None?;
    }
  }

  /** How far a tier goes to reach the target: Easy least, Hard most. */
  function Rank(t: Tier): nat
  {
    match t
    case Easy => 0
    case Mid => 1
    case Hard => 2
  }

  /** A longer side never lands in a harder tier. */
  lemma TierMonotone(cfg: Config, m1: int, m2: int)
    requires m1 <= m2
    ensures Rank(TierOf(cfg, m1)) >= Rank(TierOf(cfg, m2))
  {
  }

  /** A longer side never gets more passes: the hard plan is at least as long
      as the mid plan, which is at least as long as the easy one. */
  lemma PassesNeverGrow(cfg: Config, m1: int, m2: int, dir: Path, full: Path, out: Path, black: bool)
    requires |out| >= 1 && m1 <= m2
    ensures |Plan(cfg, TierOf(cfg, m1), dir, full, out, black)| >= |Plan(cfg, TierOf(cfg, m2), dir, full, out, black)|
  {
    TierMonotone(cfg, m1, m2);
  }

  /** When the model cannot be found, an image that reaches Real-ESRGAN
      throws that error after its Waifu2x passes, and no `Error` line is
      written before the walk writes its own. */
  lemma MissingModelThrows(cfg: Config, o: Oracle, w: World, full: Path, out: Path)
    requires |out| >= 1 && o.probe(full).Size?
    requires 0 < MaxSide(o.probe(full).width, o.probe(full).height) < cfg.target
    requires TierOf(cfg, MaxSide(o.probe(full).width, o.probe(full).height)) != Easy
    requires out !in w.files && cfg.hasRealEsrgan && cfg.models.Err?
    requires forall r: Run :: r.Waifu2x? ==> o.fails(r).None?
    ensures var r := Smart(cfg, o, w, full, out);
            && r == Thrown(r.world, cfg.models.error)
            && |r.world.log| > |w.log|
            && forall i :: |w.log| <= i < |r.world.log| ==> r.world.log[i].methodName == "Waifu2x"
  {
  }

  // -----------------------------------------------------------------------
  // what the walk promises

  /** The entries the walk upscales. */
  function Images(cfg: Config, dir: Path, entries: seq<Entry<()>>): nat
    decreases entries
  {
    if |entries| == 0 then 0 else ImagesAt(cfg, dir, entries[0]) + Images(cfg, dir, entries[1..])
  }

  function ImagesAt(cfg: Config, dir: Path, e: Entry<()>): nat
    decreases e
  {
    match e
    case Dir(n, children) => Images(cfg, dir + [n], children)
    case File(n, _, _) => if Selected(cfg, n) then 1 else 0
  }

  /** No counter goes down. */
  predicate Grows(a: Stats, b: Stats)
  {
    a.total <= b.total && a.skipped <= b.skipped && a.w2xOnce <= b.w2xOnce
    && a.w2xTwice <= b.w2xTwice && a.realesrganUsed <= b.realesrganUsed && a.errors <= b.errors
  }

  /** Every image is accounted for: each one is skipped or started (never
      both), and one that is neither is counted as an error. */
  predicate Accounts(a: Stats, b: Stats, n: nat)
  {
    Grows(a, b)
    && (b.skipped - a.skipped) + (b.total - a.total) <= n
    && b.errors - a.errors <= n
    && n <= (b.skipped - a.skipped) + (b.total - a.total) + (b.errors - a.errors)
  }

  lemma {:induction false} GrowsTrans(a: Stats, b: Stats, c: Stats)
    requires Grows(a, b) && Grows(b, c)
    ensures Grows(a, c)
  {
  }

  /** One image: a finished image was skipped or started, a thrown one may
      have been started, and nothing goes down. */
  lemma SmartAccounts(cfg: Config, o: Oracle, w: World, full: Path, out: Path)
    requires |out| >= 1
    ensures var r := Smart(cfg, o, w, full, out);
            var a, b := w.stats, r.world.stats;
            && Grows(a, b) && a.errors == b.errors
            && (r.Done? ==> (b.skipped - a.skipped) + (b.total - a.total) == 1)
            && (r.Thrown? ==> a.skipped == b.skipped && b.total - a.total <= 1)
  {
    match o.probe(full)
    case ProbeError(_) =>
    case Size(width, height) =>
      var m := MaxSide(width, height);
      if 0 < m < cfg.target && out !in w.files {
        var w0 := Bump(w, w.stats.(total := w.stats.total + 1));
        var tmp1, tmp2 := TmpPath(out, Tmp1), TmpPath(out, Tmp2);
        match TierOf(cfg, m)
        case Easy =>
        case Hard => HardGrows(cfg, o, w0, full, out, tmp1, tmp2);
        case Mid => MidGrows(cfg, o, w0, full, out, tmp1);
      }
  }

  lemma HardGrows(cfg: Config, o: Oracle, w: World, full: Path, out: Path, tmp1: Path, tmp2: Path)
    ensures var r := HardTier(cfg, o, w, full, out, tmp1, tmp2);
            Grows(w.stats, r.world.stats) && r.world.stats.total == w.stats.total
            && r.world.stats.skipped == w.stats.skipped && r.world.stats.errors == w.stats.errors
  {
  }

  lemma MidGrows(cfg: Config, o: Oracle, w: World, full: Path, out: Path, tmp1: Path)
    ensures var r := MidTier(cfg, o, w, full, out, tmp1);
            Grows(w.stats, r.world.stats) && r.world.stats.total == w.stats.total
            && r.world.stats.skipped == w.stats.skipped && r.world.stats.errors == w.stats.errors
  {
  }

  /** An error in one image never stops the walk: every selected file below
      `dir` is skipped, started, or counted as an error. */
  lemma {:induction false} WalkAccounts(cfg: Config, o: Oracle, w: World, dir: Path, entries: seq<Entry<()>>)
    ensures Accounts(w.stats, Walk(cfg, o, w, dir, entries).stats, Images(cfg, dir, entries))
    ensures Walk(cfg, o, w, dir, entries).stats.errors == w.stats.errors + Failures(cfg, o, w, dir, entries)
    decreases entries
  {
    if |entries| > 0 {
      var w1 := Visit(cfg, o, w, dir, entries[0]);
      VisitAccounts(cfg, o, w, dir, entries[0]);
      WalkAccounts(cfg, o, w1, dir, entries[1..]);
    }
  }

  lemma {:induction false} VisitAccounts(cfg: Config, o: Oracle, w: World, dir: Path, e: Entry<()>)
    ensures Accounts(w.stats, Visit(cfg, o, w, dir, e).stats, ImagesAt(cfg, dir, e))
    ensures Visit(cfg, o, w, dir, e).stats.errors == w.stats.errors + FailuresAt(cfg, o, w, dir, e)
    decreases e
  {
    match e
    case Dir(n, children) =>
      WalkAccounts(cfg, o, w, dir + [n], children);
    case File(n, _, _) =>
      if Selected(cfg, n) {
        var full := dir + [n];
        var out := cfg.dst + [FlatName(cfg.src, full)];
        SmartAccounts(cfg, o, w, full, out);
        VisitCatches(cfg, o, w, dir, e);
      }
  }

  /** The selected files below `dir` whose upscaling throws, each one judged
      in the state the walk has reached when it comes to that file. */
  function Failures(cfg: Config, o: Oracle, w: World, dir: Path, entries: seq<Entry<()>>): nat
    decreases entries
  {
    if |entries| == 0 then 0
    else FailuresAt(cfg, o, w, dir, entries[0]) + Failures(cfg, o, Visit(cfg, o, w, dir, entries[0]), dir, entries[1..])
  }

  function FailuresAt(cfg: Config, o: Oracle, w: World, dir: Path, e: Entry<()>): nat
    decreases e
  {
    match e
    case Dir(n, children) => Failures(cfg, o, w, dir + [n], children)
    case File(n, _, _) =>
      if !Selected(cfg, n) then 0
      else
        var full := dir + [n];
        if Smart(cfg, o, w, full, cfg.dst + [FlatName(cfg.src, full)]).Thrown? then 1 else 0
  }

  /** The walk's `catch` for one selected file. An image that finishes
      leaves the state `upscaleSmart` left and no new error. One that throws
      adds exactly one to `errors` and an `Error` line with its message to
      what `upscaleSmart` left, and changes nothing else. */
  lemma VisitCatches(cfg: Config, o: Oracle, w: World, dir: Path, e: Entry<()>)
    requires e.File? && Selected(cfg, e.name)
    ensures var full := dir + [e.name];
            var out := cfg.dst + [FlatName(cfg.src, full)];
            var r := Smart(cfg, o, w, full, out);
            var v := Visit(cfg, o, w, dir, e);
            && v.stats.errors == w.stats.errors + (if r.Thrown? then 1 else 0)
            && (r.Done? ==> v == r.world)
            && (r.Thrown? ==>
                  && v.log == r.world.log + [LogEntry(full, out, "Error", "", "", r.message)]
                  && v.stats == r.world.stats.(errors := r.world.stats.errors + 1)
                  && v.files == r.world.files && v.runs == r.world.runs)
  {
    var full := dir + [e.name];
    SmartAccounts(cfg, o, w, full, cfg.dst + [FlatName(cfg.src, full)]);
  }

  /** With the model folder missing, a selected image that reaches
      Real-ESRGAN costs the walk exactly one error, and the log ends with an
      `Error` line for that image holding the model error. */
  lemma VisitMissingModel(cfg: Config, o: Oracle, w: World, dir: Path, e: Entry<()>)
    requires e.File? && Selected(cfg, e.name)
    requires var full := dir + [e.name];
             && o.probe(full).Size?
             && 0 < MaxSide(o.probe(full).width, o.probe(full).height) < cfg.target
             && TierOf(cfg, MaxSide(o.probe(full).width, o.probe(full).height)) != Easy
             && cfg.dst + [FlatName(cfg.src, full)] !in w.files
    requires cfg.hasRealEsrgan && cfg.models.Err?
    requires forall r: Run :: r.Waifu2x? ==> o.fails(r).None?
    ensures var full := dir + [e.name];
            var v := Visit(cfg, o, w, dir, e);
            && v.stats.errors == w.stats.errors + 1
            && |v.log| > |w.log|
            && v.log[|v.log| - 1] == LogEntry(full, cfg.dst + [FlatName(cfg.src, full)], "Error", "", "", cfg.models.error)
  {
    var full := dir + [e.name];
    var out := cfg.dst + [FlatName(cfg.src, full)];
    MissingModelThrows(cfg, o, w, full, out);
    VisitCatches(cfg, o, w, dir, e);
  }

  // -----------------------------------------------------------------------
  // the script, step by step

  /** The outcome of a method that returns the message it threw, if any. */
  function Close(w: World, err: Option<string>): Outcome
  {
    if err.Some? then Thrown(w, err.value) else Done(w)
  }

  class Upscaler {
    const cfg: Config
    const oracle: Oracle
    var stats: Stats
    var log: seq<LogEntry>
    var files: set<Path>
    var runs: seq<Run>

    function Now(): World
      reads this
    {
      World(stats, log, files, runs)
    }

    constructor (cfg: Config, oracle: Oracle, files: set<Path>)
      ensures this.cfg == cfg && this.oracle == oracle
      ensures Now() == World(Stats(0, 0, 0, 0, 0, 0), [], files, [])
    {
      this.cfg := cfg;
      this.oracle := oracle;
      stats := Stats(0, 0, 0, 0, 0, 0);
      log := [];
      this.files := files;
      runs := [];
    }

    method RunWaifu2x(input: Path, output: Path, noise: int) returns (err: Option<string>)
      modifies this
      ensures Close(Now(), err) == RunW2x(oracle, old(Now()), input, output, noise)
    {
      var run := Waifu2x(input, output, noise);
      runs := runs + [run];
      match oracle.fails(run) {
        case Some(e) =>
          return Some(e.message);
        case None =>
      }
      log := log + [LogEntry(input, output, "Waifu2x", W2xModel, "2x", "")];
      files := files + {output};
      return None;
    }

    method RunRealEsrgan(input: Path, output: Path) returns (err: Option<string>)
      modifies this
      ensures Close(Now(), err) == RunRe(cfg, oracle, old(Now()), input, output)
    {
      if cfg.models.Err? {
        return Some(cfg.models.error);
      }
      var run := RealEsrgan(input, output, cfg.models.value);
      runs := runs + [run];
      match oracle.fails(run) {
        case Some(e) =>
          log := log + [LogEntry(input, output, "Error", cfg.rgModel, "", ErrorText(e))];
          return Some(e.message);
        case None =>
      }
      log := log + [LogEntry(input, output, "RealESRGAN", cfg.rgModel, "2x", "")];
      stats := stats.(realesrganUsed := stats.realesrganUsed + 1);
      files := files + {output};
      return None;
    }

    method Fallback(tmp: Path, out: Path) returns (err: Option<string>)
      modifies this
      ensures Close(Now(), err) == BlackFallback(cfg, oracle, old(Now()), tmp, out)
    {
      err := None;
      if cfg.detectBlack && oracle.black(out) {
        log := log + [LogEntry(tmp, out, "Fallback", "Waifu2x", "", BlackNote)];
        err := RunWaifu2x(tmp, out, 0);
      }
    }

    method Easy(full: Path, out: Path) returns (err: Option<string>)
      modifies this
      ensures Close(Now(), err) == EasyTier(oracle, old(Now()), full, out)
    {
      err := RunWaifu2x(full, out, 1);
      if err.Some? { return; }
      stats := stats.(w2xOnce := stats.w2xOnce + 1);
    }

    method Hard(full: Path, out: Path, tmp1: Path, tmp2: Path) returns (err: Option<string>)
      modifies this
      ensures Close(Now(), err) == HardTier(cfg, oracle, old(Now()), full, out, tmp1, tmp2)
    {
      err := RunWaifu2x(full, tmp1, 1);
      if err.Some? { return; }
      err := RunWaifu2x(tmp1, tmp2, 0);
      if err.Some? { return; }
      stats := stats.(w2xTwice := stats.w2xTwice + 1);
      if cfg.hasRealEsrgan {
        err := RunRealEsrgan(tmp2, out);
        if err.Some? { return; }
        err := Fallback(tmp2, out);
        if err.Some? { return; }
        files := Unlink2(files, tmp1, tmp2);
      } else {
        files := files - {tmp2} + {out};
        files := Unlink(files, tmp1);
      }
    }

    method Mid(full: Path, out: Path, tmp1: Path) returns (err: Option<string>)
      modifies this
      ensures Close(Now(), err) == MidTier(cfg, oracle, old(Now()), full, out, tmp1)
    {
      err := RunWaifu2x(full, tmp1, 1);
      if err.Some? { return; }
      stats := stats.(w2xOnce := stats.w2xOnce + 1);
      if cfg.hasRealEsrgan {
        err := RunRealEsrgan(tmp1, out);
        if err.Some? { return; }
        err := Fallback(tmp1, out);
        if err.Some? { return; }
      } else {
        err := RunWaifu2x(tmp1, out, 0);
        if err.Some? { return; }
        stats := stats.(w2xTwice := stats.w2xTwice + 1);
      }
      files := Unlink(files, tmp1);
    }

    /** `upscaleSmart`. */
    method UpscaleSmart(full: Path, out: Path) returns (err: Option<string>)
      requires |out| >= 1
      modifies this
      ensures Close(Now(), err) == Smart(cfg, oracle, old(Now()), full, out)
    {
      if oracle.probe(full).ProbeError? {
        return Some(oracle.probe(full).message);
      }
      var m := MaxSide(oracle.probe(full).width, oracle.probe(full).height);
      if m == 0 {
        return Some("size read failed");
      }
      if m >= cfg.target {
        stats := stats.(skipped := stats.skipped + 1);
        log := log + [LogEntry(full, out, "Skip", "", "", "target>=" + IntToString(cfg.target))];
        return None;
      }
      if out in files {
        stats := stats.(skipped := stats.skipped + 1);
        log := log + [LogEntry(full, out, "Skip", "", "", "exists")];
        return None;
      }
      err := Tiered(full, out, m);
    }

    /** The part of `upscaleSmart` below the target with no output yet. */
    method Tiered(full: Path, out: Path, m: int) returns (err: Option<string>)
      requires |out| >= 1
      modifies this
      ensures Close(Now(), err) == TierStep(cfg, oracle, old(Now()), full, out, m)
    {
      stats := stats.(total := stats.total + 1);
      if m >= cfg.minForEasy {
        err := Easy(full, out);
        return;
      }
      var tmp1 := TmpPath(out, Tmp1);
      var tmp2 := TmpPath(out, Tmp2);
      if m <= cfg.minForHard {
        err := Hard(full, out, tmp1, tmp2);
      } else {
        err := Mid(full, out, tmp1);
      }
    }

    /** `walkAndProcess`. */
    method WalkAndProcess(dir: Path, entries: seq<Entry<()>>)
      modifies this
      ensures Now() == Walk(cfg, oracle, old(Now()), dir, entries)
      decreases entries
    {
      var i := 0;
      while i < |entries|
        invariant 0 <= i <= |entries|
        invariant Walk(cfg, oracle, old(Now()), dir, entries) == Walk(cfg, oracle, Now(), dir, entries[i..])
      {
        assert entries[i..][0] == entries[i];
        assert entries[i..][1..] == entries[i + 1..];
        VisitEntry(dir, entries[i]);
        i := i + 1;
      }
    }

    method VisitEntry(dir: Path, e: Entry<()>)
      modifies this
      ensures Now() == Visit(cfg, oracle, old(Now()), dir, e)
      decreases e
    {
      match e {
        case Dir(n, children) =>
          WalkAndProcess(dir + [n], children);
        case File(n, _, _) =>
          if Selected(cfg, n) {
            var full := dir + [n];
            var out := cfg.dst + [FlatName(cfg.src, full)];
            var err := UpscaleSmart(full, out);
            if err.Some? {
              stats := stats.(errors := stats.errors + 1);
              log := log + [LogEntry(full, out, "Error", "", "", err.value)];
            }
          }
      }
    }
  }
}
