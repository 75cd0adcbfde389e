/**
 * Where a project file lands (projectFiles.ts), with the path functions of
 * Node.js for POSIX that it relies on.
 */
module ProjectPaths {
  import opened Splitting
  import opened Wrappers

  // ------------------------------------------------------------ path functions

  predicate StartsWith(s: string, prefix: string) {
    |prefix| <= |s| && s[..|prefix|] == prefix
  }

  predicate IsAbsolute(path: string) {
    path != "" && path[0] == '/'
  }

  predicate IsLetter(c: char) {
    'A' <= c <= 'Z' || 'a' <= c <= 'z'
  }

  /** win32.isAbsolute: a leading separator, or a drive letter with one. */
  predicate IsWindowsAbsolute(path: string) {
    path != "" && (path[0] == '/' || path[0] == '\\' || (|path| > 2 && IsLetter(path[0]) && path[1] == ':' && (path[2] == '/' || path[2] == '\\')))
  }

  /** Empty and dot segments go, a parent segment takes the segment before it, if there is one. */
  function Collapse(segments: seq<string>, absolute: bool, done: seq<string>): seq<string>
    decreases |segments|
  {
    if segments == [] then done
    else if segments[0] == "" || segments[0] == "." then Collapse(segments[1..], absolute, done)
    else if segments[0] == ".." then
      if done != [] && done[|done| - 1] != ".." then Collapse(segments[1..], absolute, done[..|done| - 1])
      else if absolute then Collapse(segments[1..], absolute, done)
      else Collapse(segments[1..], absolute, done + [".."])
    else Collapse(segments[1..], absolute, done + [segments[0]])
  }

  /** path.posix.normalize. */
  function Normalize(path: string): string {
    if path == "" then "."
    else
      var absolute, trailing := path[0] == '/', path[|path| - 1] == '/';
      var body := JoinOn(Collapse(SplitOn(path, '/'), absolute, []), '/');
      if body == "" then (if absolute then "/" else if trailing then "./" else ".")
      else (if absolute then "/" else "") + body + (if trailing then "/" else "")
  }

  function AbsoluteOf(segments: seq<string>): string {
    "/" + JoinOn(segments, '/')
  }

  /** path.posix.resolve of an absolute directory and one more path. */
  function ResolveFrom(root: string, path: string): string {
    if IsAbsolute(path) then AbsoluteOf(Collapse(SplitOn(path, '/'), true, []))
    else AbsoluteOf(Collapse(SplitOn(root + "/" + path, '/'), true, []))
  }

  function SegmentsOf(absolute: string): seq<string>
    requires absolute != ""
  {
    if absolute == "/" then [] else SplitOn(absolute[1..], '/')
  }

  function CommonLength(a: seq<string>, b: seq<string>): (n: nat)
    ensures n <= |a| && n <= |b| && a[..n] == b[..n] && (n < |a| && n < |b| ==> a[n] != b[n])
  {
    if a == [] || b == [] || a[0] != b[0] then 0
    else
      var n := CommonLength(a[1..], b[1..]);
      assert a[..n + 1] == [a[0]] + a[1..][..n] && b[..n + 1] == [b[0]] + b[1..][..n];
      n + 1
  }

  /** path.posix.relative of two resolved paths: up to the common directory, then down. */
  function Relative(from: string, to: string): string
    requires from != "" && to != ""
  {
    var a, b := SegmentsOf(from), SegmentsOf(to);
    var n := CommonLength(a, b);
    JoinOn(seq(|a| - n, _ => "..") + b[n..], '/')
  }

  // ---------------------------------------------------------------- operations

  datatype PathError = EmptyPath | UnsafePath | ParentTraversal | OutsideRoot

  function ValidateProjectPath(value: string): Option<PathError> {
    if value == "" then Some(EmptyPath)
    else if value == "." || value[|value| - 1] == '/' || '\0' in value || '\\' in value || IsAbsolute(value) || IsWindowsAbsolute(value) then
      Some(UnsafePath)
    else if ".." in SplitOn(value, '/') then Some(ParentTraversal)
    else None
  }

  function ResolveProjectPath(resolvedRoot: string, projectPath: string): Result<string, PathError>
    requires resolvedRoot != ""
  {
    var destination := ResolveFrom(resolvedRoot, Normalize(projectPath));
    var pathFromRoot := Relative(resolvedRoot, destination);
    if StartsWith(pathFromRoot, "..") || IsAbsolute(pathFromRoot) then Failure(OutsideRoot) else Success(destination)
  }

  // ------------------------------------------------------------ what they come to

  /** The segments that name something. */
  function Kept(segments: seq<string>): (r: seq<string>)
    ensures forall s | s in r :: s in segments && s != "" && s != "."
  {
    if segments == [] then [] else (if segments[0] == "" || segments[0] == "." then [] else [segments[0]]) + Kept(segments[1..])
  }

  /** A directory path as path.resolve returns it: absolute, with nothing left to collapse. */
  predicate ResolvedRoot(segments: seq<string>) {
    forall s | s in segments :: s != "" && s != "." && s != ".." && '/' !in s
  }

  lemma {:induction false} CollapseIsKept(segments: seq<string>, absolute: bool, done: seq<string>)
    requires ".." !in segments
    ensures Collapse(segments, absolute, done) == done + Kept(segments)
    decreases |segments|
  {
    if segments == [] {
    } else {
      var s, rest := segments[0], segments[1..];
      assert s != ".." by { assert segments[0] in segments; }
      assert ".." !in rest by { assert segments == [s] + rest; }
      if s == "" || s == "." {
        CollapseIsKept(rest, absolute, done);
        assert Kept(segments) == Kept(rest);
      } else {
        CollapseIsKept(rest, absolute, done + [s]);
        assert Kept(segments) == [s] + Kept(rest);
        assert (done + [s]) + Kept(rest) == done + ([s] + Kept(rest));
      }
    }
  }

  lemma {:induction false} KeptConcat(a: seq<string>, b: seq<string>)
    ensures Kept(a + b) == Kept(a) + Kept(b)
  {
    if a == [] {
      assert a + b == b;
    } else {
      assert (a + b)[1..] == a[1..] + b;
      KeptConcat(a[1..], b);
    }
  }

  lemma {:induction false} KeptAll(a: seq<string>)
    requires forall s | s in a :: s != "" && s != "."
    ensures Kept(a) == a
  {
    if a == [] {
    } else {
      assert a[0] in a && forall s | s in a[1..] :: s in a;
      KeptAll(a[1..]);
    }
  }

  lemma KeptOfEmpty(segments: seq<string>)
    ensures Kept([""] + segments) == Kept(segments) && Kept([]) == []
  {
  }

  lemma SplitOfAbsolute(segments: seq<string>)
    requires ResolvedRoot(segments)
    ensures SplitOn(AbsoluteOf(segments), '/') == [""] + if segments == [] then [""] else segments
    ensures segments != [] ==> SplitOn(JoinOn(segments, '/'), '/') == segments
  {
    hide JoinOn;
    var s, rest := AbsoluteOf(segments), JoinOn(segments, '/');
    assert s == "" + ['/'] + rest;
    SplitOfConcat("", rest, '/');
    assert SplitOn("", '/') == [""];
    if segments == [] {
      assert rest == "" by { EmptyJoin(); }
    } else {
      SplitOfJoin(segments, '/');
    }
  }

  lemma EmptyJoin()
    ensures JoinOn([], '/') == ""
  {
  }

  lemma SegmentsOfAbsolute(segments: seq<string>)
    requires ResolvedRoot(segments)
    ensures SegmentsOf(AbsoluteOf(segments)) == segments
    ensures ".." !in SplitOn(AbsoluteOf(segments), '/') && Kept(SplitOn(AbsoluteOf(segments), '/')) == segments
  {
    hide SplitOn, Kept;
    SplitOfAbsolute(segments);
    if segments == [] {
      KeptOfEmpty([""]);
      KeptOfEmpty([]);
      assert [""] + [] == [""];
    } else {
      KeptAll(segments);
      KeptOfEmpty(segments);
      assert segments[0] in segments;
      FirstOfJoin(segments);
      assert AbsoluteOf(segments)[1..] == JoinOn(segments, '/');
    }
  }

  lemma FirstOfJoin(segments: seq<string>)
    requires segments != [] && segments[0] != ""
    ensures |JoinOn(segments, '/')| > 0 && JoinOn(segments, '/')[0] == segments[0][0]
  {
  }

  lemma StartsWithDots(s: string)
    ensures StartsWith(s, "..") <==> |s| >= 2 && s[0] == '.' && s[1] == '.'
  {
  }

  /** A name that is not a single dot begins with two dots exactly when the whole path does. */
  lemma DotsComeFirst(segments: seq<string>)
    requires segments != [] && segments[0] != "" && segments[0] != "." && '/' !in segments[0]
    ensures StartsWith(JoinOn(segments, '/'), "..") <==> StartsWith(segments[0], "..")
    ensures !IsAbsolute(JoinOn(segments, '/'))
  {
    hide StartsWith;
    var first, all := segments[0], JoinOn(segments, '/');
    StartsWithDots(first);
    StartsWithDots(all);
    assert all == first || all == first + ['/'] + JoinOn(segments[1..], '/');
    assert all[0] == first[0];
    if |first| == 1 {
      assert first == [first[0]] && first[0] != '.';
    } else {
      assert all[1] == first[1];
    }
  }

  /** Normalizing an accepted path only takes the empty and dot segments out. */
  lemma NormalizeAccepted(value: string)
    requires ValidateProjectPath(value) == None
    ensures var kept := Kept(SplitOn(value, '/'));
            && Normalize(value) == (if kept == [] then "." else JoinOn(kept, '/'))
            && forall s | s in kept :: s != "" && s != "." && s != ".." && '/' !in s
  {
    var segments := SplitOn(value, '/');
    hide SplitOn, Kept;
    var kept := Kept(segments);
    JoinOfSplit(value, '/');
    CollapseIsKept(segments, false, []);
    assert [] + kept == kept;
    if kept != [] {
      assert kept[0] in kept;
      FirstOfJoin(kept);
    }
  }

  lemma NormalizedSegments(value: string)
    requires ValidateProjectPath(value) == None
    ensures var kept := Kept(SplitOn(value, '/')); var n := Normalize(value);
            ".." !in SplitOn(n, '/') && Kept(SplitOn(n, '/')) == kept && !IsAbsolute(n) && ResolvedRoot(kept)
  {
    hide Normalize, ValidateProjectPath;
    var kept := Kept(SplitOn(value, '/'));
    NormalizeAccepted(value);
    if kept == [] {
      SplitOfOne(".", '/');
      assert ["."][1..] == [];
    } else {
      assert kept[0] in kept;
      DotsComeFirst(kept);
      SplitOfJoin(kept, '/');
      KeptAll(kept);
    }
  }

  /**
   * For every path the validator accepts: the file lands at the root followed
   * by the segments that name something, or is refused, exactly when the first
   * of those begins with two dots.
   */
  lemma AcceptedPathResolves(root: seq<string>, value: string)
    requires ResolvedRoot(root) && ValidateProjectPath(value) == None
    ensures var kept := Kept(SplitOn(value, '/'));
            ResolveProjectPath(AbsoluteOf(root), value) ==
            if kept != [] && StartsWith(kept[0], "..") then Failure(OutsideRoot) else Success(AbsoluteOf(root + kept))
  {
    hide Normalize, ValidateProjectPath, StartsWith, AbsoluteOf, SplitOn, Kept, ResolveFrom, Relative, JoinOn;
    var kept := Kept(SplitOn(value, '/'));
    NormalizedSegments(value);
    ResolveDescends(root, Normalize(value), kept);
    RelativeOfDescendant(root, kept);
    if kept == [] {
      EmptyHasNoDots();
    } else {
      assert kept[0] in kept;
      DotsComeFirst(kept);
    }
  }

  lemma ResolveDescends(root: seq<string>, path: string, kept: seq<string>)
    requires ResolvedRoot(root) && !IsAbsolute(path) && ".." !in SplitOn(path, '/') && Kept(SplitOn(path, '/')) == kept
    ensures ResolveFrom(AbsoluteOf(root), path) == AbsoluteOf(root + kept)
  {
    hide AbsoluteOf, SplitOn, Kept, Collapse;
    var from := AbsoluteOf(root);
    SegmentsOfAbsolute(root);
    SplitOfConcat(from, path, '/');
    assert from + "/" + path == from + ['/'] + path;
    CollapseIsKept(SplitOn(from, '/') + SplitOn(path, '/'), true, []);
    KeptConcat(SplitOn(from, '/'), SplitOn(path, '/'));
    assert [] + (root + kept) == root + kept;
  }

  lemma EmptyHasNoDots()
    ensures JoinOn([], '/') == "" && !StartsWith("", "..") && !IsAbsolute("")
  {
  }

  lemma RelativeOfDescendant(root: seq<string>, kept: seq<string>)
    requires ResolvedRoot(root) && ResolvedRoot(kept)
    ensures AbsoluteOf(root) != "" && AbsoluteOf(root + kept) != ""
    ensures Relative(AbsoluteOf(root), AbsoluteOf(root + kept)) == JoinOn(kept, '/')
  {
    SegmentsOfAbsolute(root);
    SegmentsOfAbsolute(root + kept);
    var n := CommonLength(root, root + kept);
    assert forall i | 0 <= i < |root| :: (root + kept)[i] == root[i];
    assert n == |root|;
    assert seq(0, _ => "..") + (root + kept)[n..] == kept;
  }

  /** Two accepted paths land at the same place only when they name the same segments, so neither escapes into the other's. */
  lemma SamePlaceSameSegments(root: seq<string>, value: string, other: string)
    requires ResolvedRoot(root) && ValidateProjectPath(value) == None && ValidateProjectPath(other) == None
    requires ResolveProjectPath(AbsoluteOf(root), value).Success? && ResolveProjectPath(AbsoluteOf(root), other).Success?
    ensures ResolveProjectPath(AbsoluteOf(root), value) == ResolveProjectPath(AbsoluteOf(root), other) <==>
            Kept(SplitOn(value, '/')) == Kept(SplitOn(other, '/'))
  {
    hide ValidateProjectPath, AbsoluteOf, ResolveProjectPath;
    var kept, also := Kept(SplitOn(value, '/')), Kept(SplitOn(other, '/'));
    AcceptedPathResolves(root, value);
    AcceptedPathResolves(root, other);
    NormalizedSegments(value);
    NormalizedSegments(other);
    SegmentsOfAbsolute(root + kept);
    SegmentsOfAbsolute(root + also);
    if AbsoluteOf(root + kept) == AbsoluteOf(root + also) {
      assert kept == (root + kept)[|root|..] && also == (root + also)[|root|..];
    }
  }

  /** Only dots and separators: the validator refuses "." but lets "./." through, which lands on the root itself. */
  lemma DotPathLandsOnRoot(root: seq<string>)
    requires ResolvedRoot(root)
    ensures ValidateProjectPath(".") == Some(UnsafePath) && ValidateProjectPath("./.") == None
    ensures ResolveProjectPath(AbsoluteOf(root), "./.") == Success(AbsoluteOf(root))
  {
    SplitOfOne(".", '/');
    assert "./." == "." + ['/'] + ".";
    SplitOfConcat(".", ".", '/');
    assert SplitOn("./.", '/') == [".", "."];
    assert Kept([".", "."]) == [];
    assert ValidateProjectPath("./.") == None;
    AcceptedPathResolves(root, "./.");
    assert root + [] == root;
  }
}
