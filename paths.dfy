/**
 * URL joining (`joinUrl`) and file paths as lists of segments.
 *
 * Node's `path.resolve`, `path.relative`, `path.dirname` and `path.join` are replaced by
 * functions on segment lists: an absolute path is the list of its directory and file
 * names below the root.
 */
module Paths {
  import opened Text

  // ---------------------------------------------------------------------------
  // joinUrl

  /** The string with its run of leading slashes removed. */
  function StripLeadingSlashes(s: string): (r: string)
    ensures |r| <= |s|
    ensures r != [] ==> r[0] != '/'
    ensures forall i :: 0 <= i < |s| - |r| ==> s[i] == '/'
  {
    if s != [] && s[0] == '/' then StripLeadingSlashes(s[1..]) else s
  }

  /** The string with its run of trailing slashes removed. */
  function StripTrailingSlashes(s: string): (r: string)
    ensures |r| <= |s|
    ensures r != [] ==> r[|r| - 1] != '/'
    ensures forall i :: |r| <= i < |s| ==> s[i] == '/'
  {
    if s != [] && s[|s| - 1] == '/' then StripTrailingSlashes(s[..|s| - 1]) else s
  }

  /** Stripping leading slashes leaves a suffix of the string. */
  lemma {:induction false} StripLeadingSuffix(s: string)
    ensures var r := StripLeadingSlashes(s); s[|s| - |r|..] == r
  {
    if s != [] && s[0] == '/' {
      StripLeadingSuffix(s[1..]);
      var r := StripLeadingSlashes(s[1..]);
      assert s[1..][|s| - 1 - |r|..] == s[|s| - |r|..];
    }
  }

  /** Stripping trailing slashes leaves a prefix of the string. */
  lemma {:induction false} StripTrailingPrefix(s: string)
    ensures var r := StripTrailingSlashes(s); s[..|r|] == r
  {
    if s != [] && s[|s| - 1] == '/' {
      StripTrailingPrefix(s[..|s| - 1]);
      var r := StripTrailingSlashes(s[..|s| - 1]);
      assert s[..|s| - 1][..|r|] == s[..|r|];
    }
  }

  /** `segment.replace(/^\/+|\/+$/g, "")`. */
  function StripSlashes(s: string): string
  {
    StripTrailingSlashes(StripLeadingSlashes(s))
  }

  predicate SlashesOnly(s: string)
  {
    forall i :: 0 <= i < |s| ==> s[i] == '/'
  }

  /** A segment loses everything exactly when it is made only of slashes. */
  lemma StripSlashesEmpty(s: string)
    ensures StripSlashes(s) == "" <==> SlashesOnly(s)
  {
    var l := StripLeadingSlashes(s);
    StripLeadingSuffix(s);
    if l != [] {
      assert s[|s| - |l|] == l[0] != '/';
    }
  }

  /** A stripped segment neither starts nor ends with a slash. */
  lemma StripSlashesTrimmed(s: string)
    ensures var r := StripSlashes(s); r != "" ==> r[0] != '/' && r[|r| - 1] != '/'
  {
    var l := StripLeadingSlashes(s);
    var r := StripTrailingSlashes(l);
    StripTrailingPrefix(l);
    if r != "" {
      assert r[0] == l[0];
    }
  }

  /** A string with no slash at either end is unchanged by stripping. */
  lemma StripSlashesFixed(s: string)
    requires s != "" && s[0] != '/' && s[|s| - 1] != '/'
    ensures StripSlashes(s) == s
  {
  }

  /** The cleaned parts of `joinUrl`: each part stripped of its slashes, empty ones dropped. */
  function CleanParts(parts: seq<string>): seq<string>
  {
    if parts == [] then []
    else if StripSlashes(parts[0]) == "" then CleanParts(parts[1..])
    else [StripSlashes(parts[0])] + CleanParts(parts[1..])
  }

  /** A cleaned part: non-empty, with no slash at either end. */
  predicate Trimmed(x: string)
  {
    x != "" && x[0] != '/' && x[|x| - 1] != '/'
  }

  /** Every cleaned part is trimmed. */
  lemma {:induction false} CleanPartsTrimmed(parts: seq<string>)
    ensures forall i :: 0 <= i < |CleanParts(parts)| ==> Trimmed(CleanParts(parts)[i])
  {
    if parts != [] {
      StripSlashesTrimmed(parts[0]);
      CleanPartsTrimmed(parts[1..]);
      var rest := CleanParts(parts[1..]);
      var head := StripSlashes(parts[0]);
      if head != "" {
        assert CleanParts(parts) == [head] + rest;
        assert Trimmed(head);
      }
    }
  }

  /** No part survives exactly when every part is made only of slashes. */
  lemma {:induction false} CleanPartsEmpty(parts: seq<string>)
    ensures CleanParts(parts) == [] <==> forall i :: 0 <= i < |parts| ==> SlashesOnly(parts[i])
  {
    if parts != [] {
      StripSlashesEmpty(parts[0]);
      CleanPartsEmpty(parts[1..]);
      assert forall i :: 1 <= i < |parts| ==> parts[i] == parts[1..][i - 1];
    }
  }

  /** `joinUrl(...parts)`. */
  function JoinUrl(parts: seq<string>): (r: string)
    ensures |r| >= 1 && r[0] == '/' && r[|r| - 1] == '/'
  {
    var cleaned := CleanParts(parts);
    if cleaned == [] then "/" else "/" + Join(cleaned, "/") + "/"
  }

  /** The result is exactly `/` when every part is empty or made only of slashes. */
  lemma JoinUrlRoot(parts: seq<string>)
    ensures JoinUrl(parts) == "/" <==> forall i :: 0 <= i < |parts| ==> SlashesOnly(parts[i])
  {
    CleanPartsEmpty(parts);
    if CleanParts(parts) != [] {
      assert |JoinUrl(parts)| >= 2;
    }
  }

  /** Joining non-empty pieces keeps the first character of the first piece and the last of the last. */
  lemma {:induction false} JoinEnds(pieces: seq<string>, sep: string)
    requires pieces != [] && forall i :: 0 <= i < |pieces| ==> pieces[i] != ""
    ensures var j := Join(pieces, sep);
      j != "" && j[0] == pieces[0][0] && j[|j| - 1] == pieces[|pieces| - 1][|pieces[|pieces| - 1]| - 1]
  {
    if |pieces| > 1 {
      JoinEnds(pieces[1..], sep);
      assert pieces[1..][|pieces| - 2] == pieces[|pieces| - 1];
    }
  }

  /** Cleaning a single part. */
  lemma CleanSingle(x: string)
    ensures CleanParts([x]) == if StripSlashes(x) == "" then [] else [StripSlashes(x)]
  {
    assert [x][1..] == [];
  }

  /** Wrapping a trimmed string in slashes and stripping them again gives it back. */
  lemma StripWrapped(j: string)
    requires Trimmed(j)
    ensures StripSlashes("/" + j + "/") == j
  {
    var w := "/" + j + "/";
    assert StripLeadingSlashes(w) == j + "/" by {
      assert w[1..] == j + "/";
      assert (j + "/")[0] == j[0];
    }
    assert StripTrailingSlashes(j + "/") == j by {
      assert (j + "/")[..|j|] == j;
      assert (j + "/")[|j| - 1] == j[|j| - 1];
    }
  }

  /** `joinUrl` applied to its own output returns that output. */
  lemma JoinUrlIdempotent(parts: seq<string>)
    ensures JoinUrl([JoinUrl(parts)]) == JoinUrl(parts)
  {
    var out := JoinUrl(parts);
    var cleaned := CleanParts(parts);
    CleanSingle(out);
    if cleaned == [] {
      assert StripLeadingSlashes("/") == "";
    } else {
      var j := Join(cleaned, "/");
      CleanPartsTrimmed(parts);
      JoinEnds(cleaned, "/");
      assert Trimmed(j);
      StripWrapped(j);
      assert Join([j], "/") == j;
    }
  }

  // ---------------------------------------------------------------------------
  // Segment paths

  /** An absolute file path: the names below the root, outermost first. */
  type Path = seq<string>

  /** A segment that `path.resolve` keeps as a name. */
  predicate IsName(s: string)
  {
    s != "" && s != "." && s != ".."
  }

  /** A resolved path: every segment is a name. */
  predicate Normalised(p: Path)
  {
    forall i :: 0 <= i < |p| ==> IsName(p[i])
  }

  /** One step of `path.resolve`: skip empty and `.` segments, let `..` climb (never above the root). */
  function Step(base: Path, seg: string): Path
  {
    if seg == "" || seg == "." then base
    else if seg == ".." then (if base == [] then [] else base[..|base| - 1])
    else base + [seg]
  }

  /** `path.resolve(base, ...)` applied to relative segments. */
  function ResolveSegments(base: Path, segs: seq<string>): (r: Path)
    ensures Normalised(base) ==> Normalised(r)
    decreases |segs|
  {
    if segs == [] then base else ResolveSegments(Step(base, segs[0]), segs[1..])
  }

  /** `path.resolve(base, rel)` for a `/`-separated `rel`; a rel starting with `/` restarts at the root. */
  function Resolve(base: Path, rel: string): Path
  {
    if rel != [] && rel[0] == '/' then ResolveSegments([], Split(rel, '/'))
    else ResolveSegments(base, Split(rel, '/'))
  }

  /** Resolving a concatenation is resolving one part after the other. */
  lemma {:induction false} ResolveAppend(base: Path, xs: seq<string>, ys: seq<string>)
    ensures ResolveSegments(base, xs + ys) == ResolveSegments(ResolveSegments(base, xs), ys)
    decreases |xs|
  {
    if xs != [] {
      assert (xs + ys)[0] == xs[0];
      assert (xs + ys)[1..] == xs[1..] + ys;
      ResolveAppend(Step(base, xs[0]), xs[1..], ys);
    } else {
      assert xs + ys == ys;
    }
  }

  /** Names are appended as they are. */
  lemma {:induction false} ResolveNames(base: Path, names: seq<string>)
    requires Normalised(names)
    ensures ResolveSegments(base, names) == base + names
    decreases |names|
  {
    if names != [] {
      ResolveNames(base + [names[0]], names[1..]);
      assert base + [names[0]] + names[1..] == base + names;
    }
  }

  /** `k` copies of `..`. */
  function Ups(k: nat): (r: seq<string>)
    ensures |r| == k && forall i :: 0 <= i < k ==> r[i] == ".."
  {
    if k == 0 then [] else [".."] + Ups(k - 1)
  }

  /** `k` times `..` removes the last `k` segments. */
  lemma {:induction false} ResolveUps(base: Path, k: nat)
    requires k <= |base|
    ensures ResolveSegments(base, Ups(k)) == base[..|base| - k]
  {
    if k > 0 {
      ResolveUps(base[..|base| - 1], k - 1);
      assert Ups(k)[1..] == Ups(k - 1);
      assert base[..|base| - 1][..|base| - 1 - (k - 1)] == base[..|base| - k];
    }
  }

  /** Length of the longest common prefix. */
  function CommonPrefix(a: Path, b: Path): (n: nat)
    ensures n <= |a| && n <= |b| && a[..n] == b[..n]
    ensures n < |a| && n < |b| ==> a[n] != b[n]
  {
    if a == [] || b == [] || a[0] != b[0] then 0
    else
      var m := CommonPrefix(a[1..], b[1..]);
      assert a[1..][..m] == b[1..][..m];
      assert a[..m + 1] == [a[0]] + a[1..][..m];
      assert b[..m + 1] == [b[0]] + b[1..][..m];
      1 + m
  }

  /**
   * `path.relative(from, to)` as segments: strip the common prefix, climb once for each
   * remaining segment of `from`, then descend into the rest of `to`.
   */
  function Relative(from: Path, to: Path): Path
  {
    var n := CommonPrefix(from, to);
    Ups(|from| - n) + to[n..]
  }

  /** A suffix of a normalised path is normalised. */
  lemma NormalisedSuffix(p: Path, n: nat)
    requires Normalised(p) && n <= |p|
    ensures Normalised(p[n..])
  {
    forall i | 0 <= i < |p| - n
      ensures IsName(p[n..][i])
    {
      assert p[n..][i] == p[n + i];
    }
  }

  /** Resolving the relative path from `from` leads back to `to`. */
  lemma RelativeRoundTrip(from: Path, to: Path)
    requires Normalised(to)
    ensures ResolveSegments(from, Relative(from, to)) == to
  {
    var n := CommonPrefix(from, to);
    var ups, rest := Ups(|from| - n), to[n..];
    NormalisedSuffix(to, n);
    calc {
      ResolveSegments(from, Relative(from, to));
      ResolveSegments(from, ups + rest);
      { ResolveAppend(from, ups, rest); }
      ResolveSegments(ResolveSegments(from, ups), rest);
      { ResolveUps(from, |from| - n);
        assert from[..|from| - (|from| - n)] == to[..n]; }
      ResolveSegments(to[..n], rest);
      { ResolveNames(to[..n], rest); }
      to[..n] + rest;
      { assert to[..n] + rest == to; }
      to;
    }
  }

  /** The relative path is empty exactly when the two paths are the same. */
  lemma RelativeEmpty(from: Path, to: Path)
    ensures Relative(from, to) == [] <==> from == to
  {
    var n := CommonPrefix(from, to);
    if Relative(from, to) == [] {
      assert |Ups(|from| - n)| == 0 && to[n..] == [];
      assert from == from[..n] && to == to[..n];
    }
  }

  /** `path.dirname`. */
  function Dirname(p: Path): (r: Path)
    ensures p != [] ==> r + [p[|p| - 1]] == p
  {
    if p == [] then [] else p[..|p| - 1]
  }

  /** A relative path written with `/` separators (the `.replace(/\\/g, "/")` of the source). */
  function Posix(p: Path): string
  {
    Join(p, "/")
  }

  /** The separate-build prefix rule: a relative href that does not start with `.` gets `./`. */
  function DotPrefixed(rel: string): (r: string)
    ensures r != "" && r[0] == '.'
    ensures StartsWith(rel, ".") ==> r == rel
    ensures !StartsWith(rel, ".") ==> r == "./" + rel
  {
    if StartsWith(rel, "..") || StartsWith(rel, ".") then rel else "./" + rel
  }

  // ---------------------------------------------------------------------------
  // Following a relative href

  /** No segment contains a `/`. */
  predicate SlashFree(p: Path)
  {
    forall i :: 0 <= i < |p| ==> '/' !in p[i]
  }

  /** Resolving slash-free segments from a slash-free base keeps every segment slash-free. */
  lemma {:induction false} ResolveSegmentsSlashFree(base: Path, segs: seq<string>)
    requires SlashFree(base) && SlashFree(segs)
    ensures SlashFree(ResolveSegments(base, segs))
    decreases |segs|
  {
    if segs != [] {
      var next := Step(base, segs[0]);
      assert SlashFree(next) by {
        if segs[0] != "" && segs[0] != "." && segs[0] != ".." {
          assert next == base + [segs[0]];
        }
      }
      assert SlashFree(segs[1..]) by {
        forall i | 0 <= i < |segs| - 1 ensures '/' !in segs[1..][i] { assert segs[1..][i] == segs[i + 1]; }
      }
      ResolveSegmentsSlashFree(next, segs[1..]);
    }
  }

  /** `path.resolve` from a slash-free base yields slash-free segments. */
  lemma ResolveSlashFree(base: Path, rel: string)
    requires SlashFree(base)
    ensures SlashFree(Resolve(base, rel))
  {
    SplitPiecesFree(rel, '/');
    ResolveSegmentsSlashFree([], Split(rel, '/'));
    ResolveSegmentsSlashFree(base, Split(rel, '/'));
  }

  /**
   * A non-empty relative path written with `/` does not start with `/`, and resolving it from
   * where it was computed leads back to the target.
   */
  lemma PosixRoundTrip(from: Path, to: Path)
    requires Normalised(to) && SlashFree(to)
    ensures var rel := Posix(Relative(from, to));
      (rel == "" ==> Relative(from, to) == [])
      && (rel != "" ==> rel[0] != '/' && Resolve(from, rel) == to)
  {
    var n := CommonPrefix(from, to);
    var r := Relative(from, to);
    if r != [] {
      assert forall i :: 0 <= i < |r| ==> r[i] != "" && '/' !in r[i] by {
        forall i | 0 <= i < |r| ensures r[i] != "" && '/' !in r[i] {
          if i >= |from| - n {
            assert r[i] == to[n + (i - (|from| - n))];
          }
        }
      }
      JoinEnds(r, "/");
      JoinSplit(r, '/');
      RelativeRoundTrip(from, to);
    }
  }

  /** `./` in front of a path that does not start with `/` changes nothing it resolves to. */
  lemma ResolveDotSlash(base: Path, rel: string)
    requires rel == "" || rel[0] != '/'
    ensures Resolve(base, "./" + rel) == ResolveSegments(base, Split(rel, '/'))
  {
    assert "./" + rel == "." + ['/'] + rel;
    SplitAfter(".", rel, '/');
  }

  /**
   * The separate-build href (`./` added unless it starts with `.`) leads from `from` to `to`:
   * an href to the page's own directory is `./`.
   */
  lemma DotPrefixedRoundTrip(from: Path, to: Path)
    requires Normalised(to) && SlashFree(to)
    ensures Resolve(from, DotPrefixed(Posix(Relative(from, to)))) == to
  {
    var rel := Posix(Relative(from, to));
    PosixRoundTrip(from, to);
    if rel == "" {
      RelativeEmpty(from, to);
      ResolveDotSlash(from, "");
      assert Split("", '/') == [""];
    } else if !StartsWith(rel, ".") {
      ResolveDotSlash(from, rel);
    }
  }

  /** The inline href (`./` when empty) leads from `from` to `to` the same way. */
  lemma LogicalRoundTrip(from: Path, to: Path)
    requires Normalised(to) && SlashFree(to)
    ensures var rel := Posix(Relative(from, to));
      Resolve(from, if rel == "" then "./" else rel) == to
  {
    var rel := Posix(Relative(from, to));
    PosixRoundTrip(from, to);
    if rel == "" {
      DotPrefixedRoundTrip(from, to);
      assert DotPrefixed(rel) == "./";
    }
  }
}
