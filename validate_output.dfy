/**
 * The output validator (`validateOutput.ts`): its argument parser, the `<script` test it applies
 * to every generated HTML file, and the outcome and exit code of a run over a listed directory.
 */
module ValidateOutput {
  import opened Wrappers
  import opened Text

  // ---------------------------------------------------------------------------
  // parseArgs

  /** What the validator is asked to do. */
  datatype Options = Options(outDir: string, allowScripts: bool, failOnMissing: bool)

  const DefaultOptions := Options("dist-static", false, true)

  /** The parser either yields options or prints the usage text and ends the process. */
  datatype Parsed = Proceed(options: Options) | ShowHelp

  predicate IsHelp(arg: string)
  {
    arg == "--help" || arg == "-h"
  }

  /** The flags that read the argument after them. */
  predicate IsOutFlag(arg: string)
  {
    arg == "--out" || arg == "--out-dir"
  }

  /** The effect of an argument other than a help flag. */
  function Step(args: seq<string>, i: nat, o: Options): Options
    requires i < |args|
  {
    var arg := args[i];
    if IsOutFlag(arg) then o.(outDir := if i + 1 < |args| then args[i + 1] else o.outDir)
    else if StartsWith(arg, "--out=") then o.(outDir := SplitSecond(arg, '='))
    else if arg == "--allow-scripts" then o.(allowScripts := true)
    else if arg == "--no-fail-on-missing" then o.(failOnMissing := false)
    else o
  }

  /** Where the loop goes next: past the argument, and past its value for `--out`. */
  function NextIndex(args: seq<string>, i: nat): nat
    requires i < |args|
  {
    if IsOutFlag(args[i]) then i + 2 else i + 1
  }

  /** The result of the loop run from `i` with options `o`; a help flag ends it at once. */
  function ParseFrom(args: seq<string>, i: nat, o: Options): Parsed
    decreases |args| - i
  {
    if i >= |args| then Proceed(o)
    else if IsHelp(args[i]) then ShowHelp
    else ParseFrom(args, NextIndex(args, i), Step(args, i, o))
  }

  /** `parseArgs()` over the arguments after the script name. */
  function Parse(args: seq<string>): Parsed
  {
    ParseFrom(args, 0, DefaultOptions)
  }

  /** The help flags are not `--out=` forms. */
  lemma HelpIsNoAssignment()
    ensures !StartsWith("--help", "--out=") && !StartsWith("-h", "--out=")
  {
    DiffersAt("--help", "--out=", 2);
  }

  /** `parseArgs`: one pass over the arguments; `--out` also consumes the argument after it. */
  method ParseArgs(args: seq<string>) returns (parsed: Parsed)
    ensures parsed == Parse(args)
  {
    HelpIsNoAssignment();
    var options := DefaultOptions;
    var i := 0;
    while i < |args|
      invariant i <= |args| + 1
      invariant ParseFrom(args, i, options) == Parse(args)
      decreases |args| + 1 - i
    {
      var arg := args[i];
      if arg == "--out" || arg == "--out-dir" {
        i := i + 1;
        if i < |args| {
          options := options.(outDir := args[i]);
        }
      } else if StartsWith(arg, "--out=") {
        options := options.(outDir := SplitSecond(arg, '='));
      } else if arg == "--allow-scripts" {
        options := options.(allowScripts := true);
      } else if arg == "--no-fail-on-missing" {
        options := options.(failOnMissing := false);
      } else if arg == "--help" || arg == "-h" {
        return ShowHelp;
      }
      i := i + 1;
    }
    return Proceed(options);
  }

  /** Whether the loop, started at `i`, steps exactly onto the end: no `--out` waits for a value. */
  predicate Lands(args: seq<string>, i: nat)
    decreases |args| - i
  {
    if i >= |args| then i == |args| else Lands(args, NextIndex(args, i))
  }

  /** Arguments put in front shift the loop without changing what it does. */
  lemma {:induction false} ParseShift(p: seq<string>, args: seq<string>, i: nat, o: Options)
    ensures ParseFrom(p + args, |p| + i, o) == ParseFrom(args, i, o)
    decreases |args| - i
  {
    if i < |args| {
      assert (p + args)[|p| + i] == args[i];
      if i + 1 < |args| {
        assert (p + args)[|p| + i + 1] == args[i + 1];
      }
      assert Step(p + args, |p| + i, o) == Step(args, i, o);
      ParseShift(p, args, NextIndex(args, i), Step(args, i, o));
    }
  }

  /** When the loop lands on the end of `args`, what follows is parsed from the options reached there. */
  lemma {:induction false} ParseSplits(args: seq<string>, tail: seq<string>, i: nat, o: Options)
    requires Lands(args, i)
    ensures var r := ParseFrom(args, i, o);
      ParseFrom(args + tail, i, o) == if r.ShowHelp? then ShowHelp else ParseFrom(tail, 0, r.options)
    decreases |args| - i
  {
    if i < |args| {
      assert (args + tail)[i] == args[i];
      if i + 1 < |args| {
        assert (args + tail)[i + 1] == args[i + 1];
      }
      if !IsHelp(args[i]) {
        assert Step(args + tail, i, o) == Step(args, i, o);
        ParseSplits(args, tail, NextIndex(args, i), Step(args, i, o));
      }
    } else {
      ParseShift(args, tail, 0, o);
    }
  }

  /** A help flag the loop reaches ends parsing, whatever follows it. */
  lemma HelpStops(args: seq<string>, rest: seq<string>)
    requires Lands(args, 0)
    ensures Parse(args + ["--help"] + rest) == ShowHelp
    ensures Parse(args + ["-h"] + rest) == ShowHelp
  {
    ParseSplits(args, ["--help"] + rest, 0, DefaultOptions);
    ParseSplits(args, ["-h"] + rest, 0, DefaultOptions);
    assert args + ["--help"] + rest == args + (["--help"] + rest);
    assert args + ["-h"] + rest == args + (["-h"] + rest);
  }

  /** `--out <dir>` and `--out=<dir>` set the directory; a trailing `--out` keeps the one before. */
  lemma OutFlagsSetDir(args: seq<string>, dir: string)
    requires Lands(args, 0) && Parse(args).Proceed? && '=' !in dir
    ensures Parse(args + ["--out", dir]) == Proceed(Parse(args).options.(outDir := dir))
    ensures Parse(args + ["--out-dir", dir]) == Proceed(Parse(args).options.(outDir := dir))
    ensures Parse(args + ["--out=" + dir]) == Proceed(Parse(args).options.(outDir := dir))
    ensures Parse(args + ["--out"]) == Parse(args)
  {
    var a := "--out=" + dir;
    assert a[..6] == "--out=";
    assert a == "--out" + ['='] + dir;
    SplitSecondAfter("--out", dir, '=');
    assert a[2] == 'o' && a[5] == '=';
    assert !IsHelp(a) && !IsOutFlag(a);
    ParseSplits(args, ["--out", dir], 0, DefaultOptions);
    ParseSplits(args, ["--out-dir", dir], 0, DefaultOptions);
    ParseSplits(args, [a], 0, DefaultOptions);
    ParseSplits(args, ["--out"], 0, DefaultOptions);
  }

  /**
   * Once allowed, scripts stay allowed and once waived, the missing-directory failure stays
   * waived; and neither changes unless its own flag is among the arguments from `i` on. (The
   * converse fails: `--out --allow-scripts` reads the flag as a directory.)
   */
  lemma {:induction false} SwitchesOneWay(args: seq<string>, i: nat, o: Options)
    ensures var r := ParseFrom(args, i, o);
      r.Proceed? ==>
        (o.allowScripts ==> r.options.allowScripts)
        && (!o.failOnMissing ==> !r.options.failOnMissing)
        && (r.options.allowScripts ==> o.allowScripts || exists k :: i <= k < |args| && args[k] == "--allow-scripts")
        && (!r.options.failOnMissing ==> !o.failOnMissing || exists k :: i <= k < |args| && args[k] == "--no-fail-on-missing")
    decreases |args| - i
  {
    if i < |args| && !IsHelp(args[i]) {
      SwitchesOneWay(args, NextIndex(args, i), Step(args, i, o));
    }
  }

  /** A help result comes from a help flag among the arguments. */
  lemma {:induction false} HelpNeedsFlag(args: seq<string>, i: nat, o: Options)
    requires ParseFrom(args, i, o).ShowHelp?
    ensures exists k :: i <= k < |args| && IsHelp(args[k])
    decreases |args| - i
  {
    if !IsHelp(args[i]) {
      HelpNeedsFlag(args, NextIndex(args, i), Step(args, i, o));
    }
  }

  // ---------------------------------------------------------------------------
  // The `/<script\b/i` test

  /** A character `\b` treats as part of a word. */
  predicate IsWordChar(ch: char)
  {
    'a' <= ch <= 'z' || 'A' <= ch <= 'Z' || '0' <= ch <= '9' || ch == '_'
  }

  /** `w` is `script` in any case. */
  predicate IsScriptWord(w: string)
  {
    |w| == 6 && forall j :: 0 <= j < 6 ==> LowerChar(w[j]) == "script"[j]
  }

  /** `<script`, in any case, starts at `k` and is not followed by a word character. */
  predicate ScriptTagAt(s: string, k: nat)
  {
    k + 7 <= |s| && s[k] == '<' && IsScriptWord(s[k + 1..k + 7])
    && (k + 7 == |s| || !IsWordChar(s[k + 7]))
  }

  /** `/<script\b/i.test(s)`. */
  predicate HasScriptTag(s: string)
  {
    exists k: nat | k < |s| :: ScriptTagAt(s, k)
  }

  /** Lower-casing an ASCII character keeps it a word character or not. */
  lemma LowerKeepsWordChar(ch: char)
    ensures IsWordChar(LowerChar(ch)) == IsWordChar(ch)
    ensures LowerChar(LowerChar(ch)) == LowerChar(ch)
    ensures (LowerChar(ch) == '<') == (ch == '<')
  {
  }

  /** The test does not depend on case. */
  lemma ScriptTagCaseBlind(s: string)
    ensures HasScriptTag(ToLower(s)) == HasScriptTag(s)
  {
    var t := ToLower(s);
    forall k: nat | k < |s|
      ensures ScriptTagAt(t, k) == ScriptTagAt(s, k)
    {
      if k + 7 <= |s| {
        LowerKeepsWordChar(s[k]);
        if k + 7 < |s| {
          LowerKeepsWordChar(s[k + 7]);
        }
        ScriptWordCaseBlind(s[k + 1..k + 7]);
        assert t[k + 1..k + 7] == ToLower(s[k + 1..k + 7]);
      }
    }
  }

  /** Whether a word is `script` does not depend on its case. */
  lemma ScriptWordCaseBlind(w: string)
    ensures IsScriptWord(ToLower(w)) == IsScriptWord(w)
  {
    forall j | 0 <= j < |w|
      ensures LowerChar(ToLower(w)[j]) == LowerChar(w[j])
    {
      LowerKeepsWordChar(w[j]);
    }
  }

  /** `<script` followed by the end of the text or by a non-word character is found anywhere. */
  lemma ScriptTagFound(before: string, tag: string, after: string)
    requires |tag| == 7 && tag[0] == '<' && ToLower(tag[1..]) == "script"
    requires after == [] || !IsWordChar(after[0])
    ensures HasScriptTag(before + tag + after)
  {
    var s := before + tag + after;
    var k := |before|;
    assert s[k + 1..k + 7] == tag[1..];
    ScriptWordCaseBlind(tag[1..]);
    if after != [] {
      assert s[k + 7] == after[0];
    }
    assert ScriptTagAt(s, k);
  }

  /** A word character right after `<script` (as in `<scripts` or `<script1`) is no match there. */
  lemma WordCharBlocks(s: string, k: nat)
    requires k + 7 < |s| && IsWordChar(s[k + 7])
    ensures !ScriptTagAt(s, k)
  {
  }

  /** Text put in front keeps a match. */
  lemma ScriptTagKeptByPrefix(p: string, s: string)
    requires HasScriptTag(s)
    ensures HasScriptTag(p + s)
  {
    var k: nat :| k < |s| && ScriptTagAt(s, k);
    var t := p + s;
    var m := |p| + k;
    assert t[m] == s[k];
    assert t[m + 1..m + 7] == s[k + 1..k + 7];
    if k + 7 < |s| {
      assert t[m + 7] == s[k + 7];
    }
    assert ScriptTagAt(t, m);
  }

  /** Text without `<` has no match. */
  lemma NoAngleNoTag(s: string)
    requires '<' !in s
    ensures !HasScriptTag(s)
  {
  }

  // ---------------------------------------------------------------------------
  // run

  /** A generated HTML file as the glob lists it; `contents` is absent when it cannot be read. */
  datatype HtmlFile = HtmlFile(path: string, contents: Option<string>)

  /** How a run ends. */
  datatype Outcome =
    | MissingOutDir(failed: bool)
    | NoHtmlFiles
    | ReadFailed(path: string)
    | Violations(found: seq<string>)
    | Validated(count: nat)

  /** The process exit code of each outcome; a successful run ends with 0. */
  function ExitCode(r: Outcome): int
  {
    match r
    case MissingOutDir(failed) => if failed then 1 else 0
    case NoHtmlFiles => 0
    case ReadFailed(_) => 1
    case Violations(_) => 1
    case Validated(_) => 0
  }

  /** The violation reported for one readable file. */
  function FileViolations(path: string, contents: string, allowScripts: bool): seq<string>
  {
    if !allowScripts && HasScriptTag(contents) then [path + ": contains <script> tag"] else []
  }

  /** Where the scan of the files stands: the violations so far, or the file that could not be read. */
  datatype Scan = Scanned(violations: seq<string>) | Unreadable(path: string)

  /** The scan of `files`, in order; the first unreadable file ends it. */
  function ScanFiles(files: seq<HtmlFile>, allowScripts: bool): Scan
  {
    if files == [] then Scanned([])
    else
      var last := files[|files| - 1];
      match ScanFiles(files[..|files| - 1], allowScripts)
      case Unreadable(p) => Unreadable(p)
      case Scanned(v) =>
        if last.contents.None? then Unreadable(last.path)
        else Scanned(v + FileViolations(last.path, last.contents.value, allowScripts))
  }

  /** `run()` once the directory check and the glob have been answered. */
  function RunOutcome(options: Options, dirExists: bool, files: seq<HtmlFile>): Outcome
  {
    if !dirExists then MissingOutDir(options.failOnMissing)
    else if files == [] then NoHtmlFiles
    else match ScanFiles(files, options.allowScripts)
      case Unreadable(p) => ReadFailed(p)
      case Scanned(v) => if v != [] then Violations(v) else Validated(|files|)
  }

  /** `run()`: the directory check, the listing, and the loop over the files. */
  method Run(options: Options, dirExists: bool, files: seq<HtmlFile>) returns (outcome: Outcome)
    ensures outcome == RunOutcome(options, dirExists, files)
  {
    if !dirExists {
      return MissingOutDir(options.failOnMissing);
    }
    if |files| == 0 {
      return NoHtmlFiles;
    }
    var violations: seq<string> := [];
    for i := 0 to |files|
      invariant ScanFiles(files[..i], options.allowScripts) == Scanned(violations)
    {
      assert files[..i + 1][..i] == files[..i];
      var file := files[i];
      if file.contents.None? {
        assert ScanFiles(files[..i + 1], options.allowScripts) == Unreadable(file.path);
        ScanStopsAtUnreadable(files, i + 1, options.allowScripts);
        return ReadFailed(file.path);
      }
      if !options.allowScripts && HasScriptTag(file.contents.value) {
        violations := violations + [file.path + ": contains <script> tag"];
      }
    }
    assert files[..|files|] == files;
    if |violations| > 0 {
      return Violations(violations);
    }
    return Validated(|files|);
  }

  /** Once the scan meets an unreadable file, the files after it do not matter. */
  lemma {:induction false} ScanStopsAtUnreadable(files: seq<HtmlFile>, n: nat, allowScripts: bool)
    requires n <= |files| && ScanFiles(files[..n], allowScripts).Unreadable?
    ensures ScanFiles(files, allowScripts) == ScanFiles(files[..n], allowScripts)
    decreases |files| - n
  {
    if n < |files| {
      assert files[..n + 1][..n] == files[..n];
      ScanStopsAtUnreadable(files, n + 1, allowScripts);
    } else {
      assert files[..n] == files;
    }
  }

  /**
   * The scan fails exactly when some file is unreadable, naming the first one; otherwise it
   * reports exactly the readable files that contain a script tag, unless scripts are allowed.
   */
  lemma {:induction false} ScanFilesMeaning(files: seq<HtmlFile>, allowScripts: bool)
    ensures var r := ScanFiles(files, allowScripts);
      (r.Scanned? <==> forall i :: 0 <= i < |files| ==> files[i].contents.Some?)
      && (r.Unreadable? ==> exists i :: 0 <= i < |files| && files[i].contents.None? && files[i].path == r.path
                                        && forall j :: 0 <= j < i ==> files[j].contents.Some?)
      && (r.Scanned? ==> (r.violations == [] <==>
            allowScripts || forall i :: 0 <= i < |files| ==> !HasScriptTag(files[i].contents.value)))
  {
    if files != [] {
      var n := |files| - 1;
      var init := files[..n];
      ScanFilesMeaning(init, allowScripts);
      assert forall i :: 0 <= i < n ==> init[i] == files[i];
      var r := ScanFiles(files, allowScripts);
      if ScanFiles(init, allowScripts).Unreadable? {
        var i :| 0 <= i < |init| && init[i].contents.None? && init[i].path == r.path
                 && forall j :: 0 <= j < i ==> init[j].contents.Some?;
        assert files[i].contents.None? && forall j :: 0 <= j < i ==> files[j].contents.Some?;
      } else if files[n].contents.None? {
        assert forall j :: 0 <= j < n ==> files[j].contents.Some?;
      }
    }
  }

  /**
   * A run exits with 0 exactly when the directory is missing and that is waived, when it holds
   * no HTML files, or when every file was read and none has a script tag (or scripts are allowed).
   */
  lemma RunSucceeds(options: Options, dirExists: bool, files: seq<HtmlFile>)
    ensures ExitCode(RunOutcome(options, dirExists, files)) == 0 <==>
      (!dirExists && !options.failOnMissing)
      || (dirExists && files == [])
      || (dirExists && (forall i :: 0 <= i < |files| ==> files[i].contents.Some?)
          && (options.allowScripts || forall i :: 0 <= i < |files| ==> !HasScriptTag(files[i].contents.value)))
  {
    ScanFilesMeaning(files, options.allowScripts);
  }

  // ---------------------------------------------------------------------------
  // the whole process: parseArgs, then run

  /**
   * The validator's exit code: `parseArgs` ends the process with 0 after printing the usage
   * text; otherwise `run` goes on with the parsed options and ends with its outcome's code.
   */
  function ValidatorExit(args: seq<string>, dirExists: bool, files: seq<HtmlFile>): (code: int)
    ensures code == 0 || code == 1
  {
    match Parse(args)
    case ShowHelp => 0
    case Proceed(options) => ExitCode(RunOutcome(options, dirExists, files))
  }

  /** A help flag the loop reaches ends the process with 0, whatever the directory holds. */
  lemma HelpExitsZero(args: seq<string>, rest: seq<string>, dirExists: bool, files: seq<HtmlFile>)
    requires Lands(args, 0)
    ensures ValidatorExit(args + ["--help"] + rest, dirExists, files) == 0
    ensures ValidatorExit(args + ["-h"] + rest, dirExists, files) == 0
  {
    HelpStops(args, rest);
  }

  /**
   * The process exits with 0 exactly when help was asked for, or when the run with the parsed
   * options succeeds: a waived missing directory, no HTML files, or every file read and none
   * with a script tag (or scripts allowed).
   */
  lemma ValidatorExitZero(args: seq<string>, dirExists: bool, files: seq<HtmlFile>)
    ensures ValidatorExit(args, dirExists, files) == 0 <==>
      Parse(args).ShowHelp?
      || (var o := Parse(args).options;
          (!dirExists && !o.failOnMissing)
          || (dirExists && files == [])
          || (dirExists && (forall i :: 0 <= i < |files| ==> files[i].contents.Some?)
              && (o.allowScripts || forall i :: 0 <= i < |files| ==> !HasScriptTag(files[i].contents.value))))
  {
    if Parse(args).Proceed? {
      RunSucceeds(Parse(args).options, dirExists, files);
    }
  }
}
