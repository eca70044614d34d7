/**
 * The generator's command line and configuration choices: `parseCliArgs`, `normalizeBoolean`,
 * `readEnvSeparateOverride`, `resolveSeparateBuild`, and the output directories of `buildConfig`.
 */
module Cli {
  import opened Wrappers
  import opened Text
  import opened Paths

  // ---------------------------------------------------------------------------
  // parseCliArgs

  /** What the command line asks for; the three paths and the mode stay unset unless given. */
  datatype CliOptions = CliOptions(
    versions: seq<string>, quiet: bool, showHelp: bool,
    dataRoot: Option<string>, basePath: Option<string>, outDir: Option<string>,
    separateBuild: Option<bool>)

  const DefaultCliOptions := CliOptions([], false, false, None, None, None, None)

  /** The flags that read the argument after them as their value. */
  predicate TakesValue(arg: string)
  {
    arg == "--version" || arg == "-v" || arg == "--data" || arg == "--data-root"
    || arg == "--base" || arg == "--base-path" || arg == "--out" || arg == "--out-dir"
  }

  /** A value flag with the argument after it, absent when the flag is the last argument. */
  function ApplyValue(arg: string, next: Option<string>, o: CliOptions): CliOptions
  {
    if arg == "--version" || arg == "-v" then
      (if next.Some? && next.value != "" then o.(versions := o.versions + [next.value]) else o)
    else if arg == "--data" || arg == "--data-root" then o.(dataRoot := if next.Some? then next else o.dataRoot)
    else if arg == "--base" || arg == "--base-path" then o.(basePath := if next.Some? then next else o.basePath)
    else o.(outDir := if next.Some? then next else o.outDir)
  }

  /** Any other argument: the `=` forms, the switches, and nothing for an unknown one. */
  function ApplyFlag(arg: string, o: CliOptions): CliOptions
  {
    if StartsWith(arg, "--version=") then o.(versions := o.versions + [SplitSecond(arg, '=')])
    else if StartsWith(arg, "--data=") then o.(dataRoot := Some(SplitSecond(arg, '=')))
    else if StartsWith(arg, "--base=") then o.(basePath := Some(SplitSecond(arg, '=')))
    else if StartsWith(arg, "--out=") then o.(outDir := Some(SplitSecond(arg, '=')))
    else if arg == "--inline" then o.(separateBuild := Some(false))
    else if arg == "--separate-build" then o.(separateBuild := Some(true))
    else if arg == "--quiet" then o.(quiet := true)
    else if arg == "--no-quiet" then o.(quiet := false)
    else if arg == "--help" || arg == "-h" then o.(showHelp := true)
    else o
  }

  /** The effect of the argument at `i`. */
  function Apply(raw: seq<string>, i: nat, o: CliOptions): CliOptions
    requires i < |raw|
  {
    if TakesValue(raw[i]) then ApplyValue(raw[i], if i + 1 < |raw| then Some(raw[i + 1]) else None, o)
    else ApplyFlag(raw[i], o)
  }

  /** Where the loop goes next: past the argument, and past its value for a value flag. */
  function NextIndex(raw: seq<string>, i: nat): nat
    requires i < |raw|
  {
    if TakesValue(raw[i]) then i + 2 else i + 1
  }

  /** The options after the loop has run from `i` with options `o`. */
  function ParseFrom(raw: seq<string>, i: nat, o: CliOptions): CliOptions
    decreases |raw| - i
  {
    if i >= |raw| then o else ParseFrom(raw, NextIndex(raw, i), Apply(raw, i, o))
  }

  /** `parseCliArgs(raw)`. */
  function ParseCli(raw: seq<string>): CliOptions
  {
    ParseFrom(raw, 0, DefaultCliOptions)
  }

  /** `parseCliArgs`: one pass over the arguments; a value flag also consumes the argument after it. */
  method ParseCliArgs(raw: seq<string>) returns (options: CliOptions)
    ensures options == ParseCli(raw)
  {
    options := DefaultCliOptions;
    var i := 0;
    while i < |raw|
      invariant i <= |raw| + 1
      invariant ParseFrom(raw, i, options) == ParseCli(raw)
      decreases |raw| + 1 - i
    {
      ghost var start, before := i, options;
      assert ParseFrom(raw, start, before) == ParseFrom(raw, NextIndex(raw, start), Apply(raw, start, before));
      var arg := raw[i];
      if arg == "--version" || arg == "-v" {
        i := i + 1;
        if i < |raw| && raw[i] != "" {
          options := options.(versions := options.versions + [raw[i]]);
        }
      } else if arg == "--data" || arg == "--data-root" {
        i := i + 1;
        if i < |raw| {
          options := options.(dataRoot := Some(raw[i]));
        }
      } else if arg == "--base" || arg == "--base-path" {
        i := i + 1;
        if i < |raw| {
          options := options.(basePath := Some(raw[i]));
        }
      } else if arg == "--out" || arg == "--out-dir" {
        i := i + 1;
        if i < |raw| {
          options := options.(outDir := Some(raw[i]));
        }
      } else if StartsWith(arg, "--version=") {
        options := options.(versions := options.versions + [SplitSecond(arg, '=')]);
      } else if StartsWith(arg, "--data=") {
        options := options.(dataRoot := Some(SplitSecond(arg, '=')));
      } else if StartsWith(arg, "--base=") {
        options := options.(basePath := Some(SplitSecond(arg, '=')));
      } else if StartsWith(arg, "--out=") {
        options := options.(outDir := Some(SplitSecond(arg, '=')));
      } else if arg == "--inline" {
        options := options.(separateBuild := Some(false));
      } else if arg == "--separate-build" {
        options := options.(separateBuild := Some(true));
      } else if arg == "--quiet" {
        options := options.(quiet := true);
      } else if arg == "--no-quiet" {
        options := options.(quiet := false);
      } else if arg == "--help" || arg == "-h" {
        options := options.(showHelp := true);
      }
      i := i + 1;
      assert i == NextIndex(raw, start) && options == Apply(raw, start, before);
    }
  }

  /** Whether the loop, started at `i`, steps exactly onto the end: no value flag waits for a value. */
  predicate Lands(raw: seq<string>, i: nat)
    decreases |raw| - i
  {
    if i >= |raw| then i == |raw| else Lands(raw, NextIndex(raw, i))
  }

  /** An argument that is not a value flag reads nothing after it. */
  lemma ApplyIgnoresTail(raw: seq<string>, tail: seq<string>, i: nat, o: CliOptions)
    requires i < |raw| && (TakesValue(raw[i]) ==> i + 1 < |raw|)
    ensures Apply(raw + tail, i, o) == Apply(raw, i, o) && NextIndex(raw + tail, i) == NextIndex(raw, i)
  {
    assert (raw + tail)[i] == raw[i];
    if i + 1 < |raw| {
      assert (raw + tail)[i + 1] == raw[i + 1];
    }
  }

  /** Arguments put in front shift the loop without changing what it does. */
  lemma {:induction false} ParseShift(p: seq<string>, raw: seq<string>, i: nat, o: CliOptions)
    ensures ParseFrom(p + raw, |p| + i, o) == ParseFrom(raw, i, o)
    ensures Lands(p + raw, |p| + i) == Lands(raw, i)
    decreases |raw| - i
  {
    if i < |raw| {
      assert (p + raw)[|p| + i] == raw[i];
      if i + 1 < |raw| {
        assert (p + raw)[|p| + i + 1] == raw[i + 1];
      }
      assert Apply(p + raw, |p| + i, o) == Apply(raw, i, o);
      assert NextIndex(p + raw, |p| + i) == |p| + NextIndex(raw, i);
      ParseShift(p, raw, NextIndex(raw, i), Apply(raw, i, o));
    }
  }

  /** When the loop lands on the end of `raw`, it reaches `|raw|` in `raw + tail` with the same options. */
  lemma {:induction false} ParseSplits(raw: seq<string>, tail: seq<string>, i: nat, o: CliOptions)
    requires Lands(raw, i)
    ensures ParseFrom(raw + tail, i, o) == ParseFrom(raw + tail, |raw|, ParseFrom(raw, i, o))
    ensures Lands(tail, 0) ==> Lands(raw + tail, i)
    decreases |raw| - i
  {
    if i < |raw| {
      ApplyIgnoresTail(raw, tail, i, o);
      ParseSplits(raw, tail, NextIndex(raw, i), Apply(raw, i, o));
    } else {
      ParseShift(raw, tail, 0, o);
    }
  }

  /**
   * Parsing arguments that end cleanly, then more arguments, is parsing the second part from
   * the options of the first: the parser is a left fold over the command line.
   */
  lemma ParseAppend(raw: seq<string>, tail: seq<string>)
    requires Lands(raw, 0)
    ensures ParseCli(raw + tail) == ParseFrom(tail, 0, ParseCli(raw))
    ensures Lands(tail, 0) ==> Lands(raw + tail, 0)
  {
    var o := ParseCli(raw);
    ParseSplits(raw, tail, 0, DefaultCliOptions);
    assert ParseCli(raw + tail) == ParseFrom(raw + tail, |raw|, o);
    ParseShift(raw, tail, 0, o);
    assert ParseFrom(raw + tail, |raw| + 0, o) == ParseFrom(tail, 0, o);
  }

  /** An argument that reads no value acts on the options the arguments before it produced. */
  lemma FlagAppends(raw: seq<string>, arg: string)
    requires Lands(raw, 0) && !TakesValue(arg)
    ensures ParseCli(raw + [arg]) == ApplyFlag(arg, ParseCli(raw))
  {
    ParseAppend(raw, [arg]);
  }

  /** A switch is none of the `=` forms: they differ at the third character. */
  lemma NotAssignment(arg: string)
    requires |arg| >= 3 && arg[2] !in "vdbo"
    ensures !StartsWith(arg, "--version=") && !StartsWith(arg, "--data=")
    ensures !StartsWith(arg, "--base=") && !StartsWith(arg, "--out=")
  {
    DiffersAt(arg, "--version=", 2);
    DiffersAt(arg, "--data=", 2);
    DiffersAt(arg, "--base=", 2);
    DiffersAt(arg, "--out=", 2);
  }

  /** A switch acts on the options the arguments before it produced. */
  lemma SwitchAppends(raw: seq<string>, arg: string)
    requires Lands(raw, 0) && |arg| >= 3 && arg[2] !in "vdbo" && !TakesValue(arg)
    ensures var o := ParseCli(raw);
      ParseCli(raw + [arg]) ==
        if arg == "--inline" then o.(separateBuild := Some(false))
        else if arg == "--separate-build" then o.(separateBuild := Some(true))
        else if arg == "--quiet" then o.(quiet := true)
        else if arg == "--no-quiet" then o.(quiet := false)
        else if arg == "--help" then o.(showHelp := true)
        else o
  {
    NotAssignment(arg);
    FlagAppends(raw, arg);
  }

  /** `--inline` and `--separate-build` set the mode; the last one wins. */
  lemma ModeLastWins(raw: seq<string>)
    requires Lands(raw, 0)
    ensures ParseCli(raw + ["--inline"]) == ParseCli(raw).(separateBuild := Some(false))
    ensures ParseCli(raw + ["--separate-build"]) == ParseCli(raw).(separateBuild := Some(true))
  {
    SwitchAppends(raw, "--inline");
    SwitchAppends(raw, "--separate-build");
  }

  /** `--quiet` and `--no-quiet` set quiet mode; the last one wins. `--help` only sets its flag. */
  lemma QuietLastWins(raw: seq<string>)
    requires Lands(raw, 0)
    ensures ParseCli(raw + ["--quiet"]) == ParseCli(raw).(quiet := true)
    ensures ParseCli(raw + ["--no-quiet"]) == ParseCli(raw).(quiet := false)
    ensures ParseCli(raw + ["--help"]) == ParseCli(raw).(showHelp := true)
  {
    SwitchAppends(raw, "--quiet");
    SwitchAppends(raw, "--no-quiet");
    SwitchAppends(raw, "--help");
  }

  /** `--version <id>` appends a non-empty id after the ones before it; an empty or missing id is skipped. */
  lemma VersionAppends(raw: seq<string>, id: string)
    requires Lands(raw, 0)
    ensures ParseCli(raw + ["--version", id]).versions == ParseCli(raw).versions + (if id == "" then [] else [id])
    ensures ParseCli(raw + ["-v", id]) == ParseCli(raw + ["--version", id])
    ensures ParseCli(raw + ["--version"]) == ParseCli(raw)
  {
    ParseAppend(raw, ["--version", id]);
    ParseAppend(raw, ["-v", id]);
    ParseAppend(raw, ["--version"]);
  }

  /** `--version=<id>` appends the id, up to a second `=` if there is one. */
  lemma VersionEqualsAppends(raw: seq<string>, id: string, more: string)
    requires Lands(raw, 0) && '=' !in id
    ensures ParseCli(raw + ["--version=" + id]).versions == ParseCli(raw).versions + [id]
    ensures ParseCli(raw + ["--version=" + id + "=" + more]).versions == ParseCli(raw).versions + [id]
  {
    var a := "--version=" + id;
    var b := "--version=" + (id + "=" + more);
    assert "--version=" + id + "=" + more == b;
    VersionEqualsForm(id);
    VersionEqualsForm(id + "=" + more);
    SplitFree(id, '=');
    SplitAfter(id, more, '=');
    FlagAppends(raw, a);
    FlagAppends(raw, b);
  }

  /** `--version=<rest>` is no value flag, and its value is the rest up to its first `=`. */
  lemma VersionEqualsForm(rest: string)
    ensures var a := "--version=" + rest;
      !TakesValue(a) && StartsWith(a, "--version=") && SplitSecond(a, '=') == Split(rest, '=')[0]
  {
    var a := "--version=" + rest;
    assert a[..10] == "--version=";
    assert |a| >= 10 && a[2] == 'v';
    assert a == "--version" + ['='] + rest;
    SplitSecondAfter("--version", rest, '=');
  }

  /** `--data`, `--base` and `--out` take the next argument, and keep the prior value when there is none. */
  lemma PathFlagsTakeNext(raw: seq<string>, v: string)
    requires Lands(raw, 0)
    ensures ParseCli(raw + ["--data", v]) == ParseCli(raw).(dataRoot := Some(v))
    ensures ParseCli(raw + ["--base", v]) == ParseCli(raw).(basePath := Some(v))
    ensures ParseCli(raw + ["--out", v]) == ParseCli(raw).(outDir := Some(v))
    ensures ParseCli(raw + ["--data"]) == ParseCli(raw) && ParseCli(raw + ["--out-dir"]) == ParseCli(raw)
  {
    ParseAppend(raw, ["--data", v]);
    ParseAppend(raw, ["--base", v]);
    ParseAppend(raw, ["--out", v]);
    ParseAppend(raw, ["--data"]);
    ParseAppend(raw, ["--out-dir"]);
  }

  /** The arguments the parser acts on. */
  predicate Recognised(arg: string)
  {
    TakesValue(arg) || StartsWith(arg, "--version=") || StartsWith(arg, "--data=") || StartsWith(arg, "--base=")
    || StartsWith(arg, "--out=") || arg == "--inline" || arg == "--separate-build" || arg == "--quiet"
    || arg == "--no-quiet" || arg == "--help" || arg == "-h"
  }

  /** An unknown argument changes nothing. */
  lemma UnknownIgnored(raw: seq<string>, arg: string)
    requires Lands(raw, 0) && !Recognised(arg)
    ensures ParseCli(raw + [arg]) == ParseCli(raw)
  {
    ParseAppend(raw, [arg]);
  }

  // ---------------------------------------------------------------------------
  // The separate-build mode

  const TrueWords: set<string> := {"true", "1", "yes", "on"}
  const FalseWords: set<string> := {"false", "0", "no", "off"}

  /** The boolean a normalised word stands for. */
  function WordValue(normalized: string): Option<bool>
  {
    if normalized in TrueWords then Some(true)
    else if normalized in FalseWords then Some(false)
    else None
  }

  /** `normalizeBoolean(value)`: trimmed and lower-cased, one of the recognised words or nothing. */
  function NormalizeBoolean(value: string): Option<bool>
  {
    WordValue(ToLower(Trim(value)))
  }

  /** Lower-casing neither makes nor unmakes white space. */
  lemma LowerKeepsWhiteSpace(ch: char)
    ensures IsWhiteSpace(LowerChar(ch)) == IsWhiteSpace(ch)
  {
  }

  /** Lower-casing commutes with trimming at the front. */
  lemma {:induction false} TrimStartLower(s: string)
    ensures TrimStart(ToLower(s)) == ToLower(TrimStart(s))
  {
    if s != [] {
      LowerKeepsWhiteSpace(s[0]);
      assert ToLower(s)[1..] == ToLower(s[1..]);
      TrimStartLower(s[1..]);
    }
  }

  /** Lower-casing commutes with trimming at the end. */
  lemma {:induction false} TrimEndLower(s: string)
    ensures TrimEnd(ToLower(s)) == ToLower(TrimEnd(s))
  {
    if s != [] {
      LowerKeepsWhiteSpace(s[|s| - 1]);
      assert ToLower(s)[..|s| - 1] == ToLower(s[..|s| - 1]);
      TrimEndLower(s[..|s| - 1]);
    }
  }

  /** Trimming twice is trimming once. */
  lemma TrimIdempotent(s: string)
    ensures Trim(Trim(s)) == Trim(s)
  {
    var t := TrimStart(s);
    var r := TrimEnd(t);
    if r != [] {
      assert r[0] == t[0];
    }
  }

  /** Case does not matter. */
  lemma NormalizeBooleanCaseBlind(value: string)
    ensures NormalizeBoolean(ToLower(value)) == NormalizeBoolean(value)
  {
    TrimStartLower(value);
    TrimEndLower(TrimStart(value));
    ToLowerIdempotent(Trim(value));
  }

  /** Surrounding white space does not matter. */
  lemma NormalizeBooleanTrimBlind(value: string)
    ensures NormalizeBoolean(Trim(value)) == NormalizeBoolean(value)
  {
    TrimIdempotent(value);
  }

  /** A string that neither starts nor ends with white space is its own trim. */
  lemma TrimFixed(w: string)
    requires w != [] && !IsWhiteSpace(w[0]) && !IsWhiteSpace(w[|w| - 1])
    ensures Trim(w) == w
  {
  }

  /** A string without upper-case ASCII letters is its own lower case. */
  lemma ToLowerFixed(w: string)
    requires forall i :: 0 <= i < |w| ==> !('A' <= w[i] <= 'Z')
    ensures ToLower(w) == w
  {
  }

  /** A word without surrounding white space or upper-case letters is read as itself. */
  lemma NormalizePlainWord(w: string)
    requires w != [] && !IsWhiteSpace(w[0]) && !IsWhiteSpace(w[|w| - 1])
    requires forall i :: 0 <= i < |w| ==> !('A' <= w[i] <= 'Z')
    ensures NormalizeBoolean(w) == WordValue(w)
  {
    TrimFixed(w);
    ToLowerFixed(w);
  }

  /** The words `String(b)` writes read back as `b`. */
  lemma NormalizeBooleanRoundTrip(b: bool)
    ensures NormalizeBoolean(if b then "true" else "false") == Some(b)
  {
    NormalizePlainWord(if b then "true" else "false");
  }

  /** The environment variables read for the mode, in the order they are tried. */
  const SeparateBuildEnvKeys: seq<string> := ["SEPARATE_BUILD_FOR_HTML_GENERATOR", "separateBuildForHtmlGenerator"]

  /** The boolean a variable is set to, if it is set to a recognised word. */
  function EnvValue(env: map<string, string>, key: string): Option<bool>
  {
    if key in env then NormalizeBoolean(env[key]) else None
  }

  /** The first set value in `vals`. */
  function FirstSome(vals: seq<Option<bool>>): (r: Option<bool>)
  {
    if vals == [] then None
    else if vals[0].Some? then vals[0]
    else FirstSome(vals[1..])
  }

  /** `FirstSome` is nothing exactly when every value is, and otherwise the value at the first set position. */
  lemma {:induction false} FirstSomeIsFirst(vals: seq<Option<bool>>)
    ensures var r := FirstSome(vals);
      (r.None? <==> forall i :: 0 <= i < |vals| ==> vals[i].None?)
      && (r.Some? ==> exists i :: 0 <= i < |vals| && vals[i] == r && forall j :: 0 <= j < i ==> vals[j].None?)
  {
    if vals != [] && vals[0].None? {
      FirstSomeIsFirst(vals[1..]);
      var r := FirstSome(vals);
      if r.Some? {
        var i :| 0 <= i < |vals[1..]| && vals[1..][i] == r && forall j :: 0 <= j < i ==> vals[1..][j].None?;
        assert vals[i + 1] == r && forall j :: 0 <= j < i + 1 ==> vals[j].None?;
      } else {
        assert forall i :: 1 <= i < |vals| ==> vals[i] == vals[1..][i - 1];
      }
    }
  }

  /** The values of `keys` in `env`, in order. */
  function EnvValues(env: map<string, string>, keys: seq<string>): (vals: seq<Option<bool>>)
    ensures |vals| == |keys|
  {
    seq(|keys|, i requires 0 <= i < |keys| => EnvValue(env, keys[i]))
  }

  /**
   * The override: the value of the first key that is set to a recognised word; unset keys and
   * unrecognised words are skipped.
   */
  function EnvOverride(env: map<string, string>, keys: seq<string>): (r: Option<bool>)
  {
    FirstSome(EnvValues(env, keys))
  }

  /** `readEnvSeparateOverride()` over the given environment. */
  method ReadEnvSeparateOverride(env: map<string, string>) returns (r: Option<bool>)
    ensures r == EnvOverride(env, SeparateBuildEnvKeys)
  {
    var keys := SeparateBuildEnvKeys;
    ghost var vals := EnvValues(env, keys);
    for i := 0 to |keys|
      invariant FirstSome(vals[i..]) == FirstSome(vals)
    {
      assert vals[i..][1..] == vals[i + 1..];
      assert vals[i..][0] == EnvValue(env, keys[i]);
      var key := keys[i];
      if key in env {
        var b := NormalizeBoolean(env[key]);
        if b.Some? {
          return b;
        }
      }
    }
    assert vals[|keys|..] == [];
    return None;
  }

  /** `resolveSeparateBuild`: the command line, then the environment, then the settings file, then off. */
  function ResolveSeparateBuild(cli: Option<bool>, env: map<string, string>, settings: Option<bool>): (r: bool)
  {
    var envOverride := EnvOverride(env, SeparateBuildEnvKeys);
    if cli.Some? then cli.value
    else if envOverride.Some? then envOverride.value
    else if settings.Some? then settings.value
    else false
  }

  /**
   * Each source decides when set and shadows every source after it; with nothing set the mode is off.
   */
  lemma SeparateBuildPrecedence(cli: Option<bool>, env: map<string, string>, env': map<string, string>,
                                settings: Option<bool>, settings': Option<bool>)
    ensures cli.Some? ==> ResolveSeparateBuild(cli, env, settings) == cli.value == ResolveSeparateBuild(cli, env', settings')
    ensures cli.None? && EnvOverride(env, SeparateBuildEnvKeys).Some? ==>
      ResolveSeparateBuild(cli, env, settings) == EnvOverride(env, SeparateBuildEnvKeys).value == ResolveSeparateBuild(cli, env, settings')
    ensures cli.None? && (forall k :: k in SeparateBuildEnvKeys ==> EnvValue(env, k).None?) ==>
      ResolveSeparateBuild(cli, env, settings) == (settings == Some(true))
  {
    FirstSomeIsFirst(EnvValues(env, SeparateBuildEnvKeys));
  }

  // ---------------------------------------------------------------------------
  // Output directories

  const DefaultOutDir := "dist/html"
  const StaticStylesDir := "static-styles"

  /** The directories `buildConfig` settles on, and whether it warns that `--out` is ignored. */
  datatype OutputDirs = OutputDirs(baseOutDir: string, outDir: Path, staticAssetsDir: Path, ignoresOut: bool)

  /**
   * `--out`, else the settings file's output directory, else `dist/html`, resolved against the
   * project root in a separate build; the data directory itself otherwise. The shared styles go
   * in `static-styles` below the output directory.
   */
  function BuildDirs(projectRoot: Path, fsDataPath: Path, cliOut: Option<string>, settingsOut: Option<string>,
                     separateBuild: bool): (d: OutputDirs)
  {
    var baseOutDir := if cliOut.Some? then cliOut.value else if settingsOut.Some? then settingsOut.value else DefaultOutDir;
    var outDir := if separateBuild then Resolve(projectRoot, baseOutDir) else fsDataPath;
    var staticAssetsDir := if separateBuild then Resolve(outDir, StaticStylesDir) else Resolve(fsDataPath, StaticStylesDir);
    OutputDirs(baseOutDir, outDir, staticAssetsDir, !separateBuild && cliOut.Some? && Trim(cliOut.value) != "")
  }

  /** `static-styles` is one name, appended as it is. */
  lemma StaticStylesAppended(base: Path)
    ensures Resolve(base, StaticStylesDir) == base + [StaticStylesDir]
  {
    SplitFree(StaticStylesDir, '/');
    ResolveNames(base, [StaticStylesDir]);
  }

  /**
   * Inline, pages go into the data directory whatever `--out` says (a non-blank one is warned
   * about); in a separate build they go to the chosen directory. Either way the shared styles
   * are `static-styles` directly below the output directory.
   */
  lemma OutputDirsChoice(projectRoot: Path, fsDataPath: Path, cliOut: Option<string>, settingsOut: Option<string>,
                         separateBuild: bool)
    ensures var d := BuildDirs(projectRoot, fsDataPath, cliOut, settingsOut, separateBuild);
      d.staticAssetsDir == d.outDir + [StaticStylesDir]
      && (!separateBuild ==> d.outDir == fsDataPath && (d.ignoresOut <==> cliOut.Some? && Trim(cliOut.value) != ""))
      && (separateBuild ==> d.outDir == Resolve(projectRoot, d.baseOutDir) && !d.ignoresOut)
      && d.baseOutDir == (if cliOut.Some? then cliOut.value else if settingsOut.Some? then settingsOut.value else DefaultOutDir)
  {
    var d := BuildDirs(projectRoot, fsDataPath, cliOut, settingsOut, separateBuild);
    StaticStylesAppended(d.outDir);
  }
}
