/**
 * The audit of /proc/self/mountinfo (sandboxPolicy.ts, validateFallbackMountInfo)
 * and the escapes of proc_pid_mountinfo(5) it undoes.
 */
module MountInfo {
  import opened Splitting
  import opened Wrappers

  // ----------------------------------------------------------------- escaping

  /** The characters the kernel writes as octal escapes. */
  predicate Escaped(c: char) {
    c == ' ' || c == '\t' || c == '\n' || c == '\\'
  }

  function EscapeOf(c: char): (e: string)
    requires Escaped(c)
    ensures |e| == 4 && e[0] == '\\'
  {
    if c == ' ' then "\\040" else if c == '\t' then "\\011" else if c == '\n' then "\\012" else "\\134"
  }

  /** How the kernel writes a path into the table. */
  function Escape(path: string): string {
    if path == "" then "" else (if Escaped(path[0]) then EscapeOf(path[0]) else [path[0]]) + Escape(path[1..])
  }

  /** The character an escape at the start of the text stands for. */
  function EscapeAt(s: string): Option<char> {
    if |s| < 4 then None
    else if s[..4] == "\\040" then Some(' ')
    else if s[..4] == "\\011" then Some('\t')
    else if s[..4] == "\\012" then Some('\n')
    else if s[..4] == "\\134" then Some('\\')
    else None
  }

  /** decodeMountInfoPath: the escapes are replaced from left to right. */
  function DecodePath(s: string): string
    decreases |s|
  {
    if s == "" then ""
    else if EscapeAt(s).Some? then [EscapeAt(s).value] + DecodePath(s[4..])
    else [s[0]] + DecodePath(s[1..])
  }

  /** Decoding undoes escaping for every path, also where escapes meet or a path contains what looks like one. */
  lemma {:induction false} DecodeUndoesEscape(path: string)
    ensures DecodePath(Escape(path)) == path
  {
    if path == "" {
    } else {
      DecodeUndoesEscape(path[1..]);
      var s := Escape(path);
      var rest := Escape(path[1..]);
      if Escaped(path[0]) {
        var e := EscapeOf(path[0]);
        assert s[..4] == e && s[4..] == rest;
        assert EscapeAt(s) == Some(path[0]);
      } else {
        assert s[0] == path[0] && s[1..] == rest;
        assert |s| >= 4 ==> s[..4][0] == path[0];
        assert EscapeAt(s) == None;
      }
      assert path == [path[0]] + path[1..];
    }
  }

  /** What the kernel can have written: nothing raw that it escapes, and no backslash but at an escape. */
  predicate KernelWritten(s: string)
    decreases |s|
  {
    s == "" || (if EscapeAt(s).Some? then KernelWritten(s[4..]) else !Escaped(s[0]) && KernelWritten(s[1..]))
  }

  /** Escaping undoes decoding on exactly what the kernel can have written. */
  lemma {:induction false} EscapeUndoesDecode(s: string)
    ensures Escape(DecodePath(s)) == s <==> KernelWritten(s)
    decreases |s|
  {
    if s == "" {
    } else {
      var d := DecodePath(s);
      if EscapeAt(s).Some? {
        EscapeUndoesDecode(s[4..]);
        assert d[1..] == DecodePath(s[4..]);
        assert s == s[..4] + s[4..] && EscapeOf(d[0]) == s[..4];
        SamePrefix(s[..4], Escape(DecodePath(s[4..])), s[4..]);
      } else {
        EscapeUndoesDecode(s[1..]);
        assert d[1..] == DecodePath(s[1..]) && d[0] == s[0];
        if Escaped(s[0]) {
          var e := Escape(d);
          assert e[..4] == EscapeOf(s[0]);
          if e == s { EscapeOfIsEscape(s[0], s); }
        } else {
          assert s == [s[0]] + s[1..];
          SamePrefix([s[0]], Escape(DecodePath(s[1..])), s[1..]);
        }
      }
    }
  }

  lemma SamePrefix(p: string, a: string, b: string)
    ensures p + a == p + b <==> a == b
  {
    if p + a == p + b { assert a == (p + a)[|p|..] && b == (p + b)[|p|..]; }
  }

  lemma EscapeOfIsEscape(c: char, s: string)
    requires Escaped(c) && |s| >= 4 && s[..4] == EscapeOf(c)
    ensures EscapeAt(s) == Some(c)
  {
  }

  // ------------------------------------------------------------------ parsing

  datatype AuditError =
    | RelativeWorkspaceRoot | RelativeCacheRoot | MalformedLine | MissingType | UnexpectedMount(mountPoint: string)
    | WorkspaceNotMounted | CacheNotMounted

  datatype Entry = Entry(mountPoint: string, filesystemType: string)

  /** The index of the first "-" field, or -1. */
  function SeparatorOf(fields: seq<string>): (r: int)
    ensures -1 <= r < |fields|
    ensures r >= 0 ==> fields[r] == "-" && forall i | 0 <= i < r :: fields[i] != "-"
    ensures r < 0 ==> forall i | 0 <= i < |fields| :: fields[i] != "-"
  {
    if fields == [] then -1
    else if fields[0] == "-" then 0
    else
      var r := SeparatorOf(fields[1..]);
      if r < 0 then -1 else r + 1
  }

  function Parse(line: string): Result<Entry, AuditError> {
    var fields := SplitOn(line, ' ');
    if |fields| < 7 then Failure(MalformedLine)
    else
      var separator := SeparatorOf(fields);
      if separator < 0 || separator + 1 >= |fields| || fields[separator + 1] == "" then Failure(MissingType)
      else Success(Entry(DecodePath(fields[4]), fields[separator + 1]))
  }

  predicate StartsWith(s: string, prefix: string) {
    |prefix| <= |s| && s[..|prefix|] == prefix
  }

  /** isStandardContainerMount: what every container mounts for itself. */
  predicate Standard(e: Entry) {
    var m, t := e.mountPoint, e.filesystemType;
    || m == "/" || (m == "/tmp" && t == "tmpfs") || m in ["/etc/hosts", "/etc/hostname", "/etc/resolv.conf"]
    || ((m == "/proc" || StartsWith(m, "/proc/")) && t in ["proc", "tmpfs"])
    || ((m == "/sys" || StartsWith(m, "/sys/")) && t in ["sysfs", "cgroup", "cgroup2", "tmpfs"])
    || (m in ["/dev", "/dev/pts", "/dev/mqueue", "/dev/shm"] && t in ["tmpfs", "devpts", "mqueue"])
  }

  // -------------------------------------------------------------------- audit

  /** An option that is there and not the empty string. */
  predicate Given(root: Option<string>) {
    root.Some? && root.value != ""
  }

  predicate IsRoot(root: Option<string>, mountPoint: string) {
    Given(root) && root.value == mountPoint
  }

  datatype Roots = Roots(workspace: Option<string>, texCache: Option<string>)

  /** What one line makes the audit refuse, if anything. */
  function Problem(line: string, roots: Roots): Option<AuditError> {
    if line == "" then None
    else match Parse(line)
         case Failure(e) => Some(e)
         case Success(entry) =>
           if Standard(entry) || IsRoot(roots.workspace, entry.mountPoint) || IsRoot(roots.texCache, entry.mountPoint) then None
           else Some(UnexpectedMount(entry.mountPoint))
  }

  /** The line mounts the path, as something other than a standard mount. */
  predicate Mounts(line: string, path: string) {
    line != "" && Parse(line).Success? && !Standard(Parse(line).value) && Parse(line).value.mountPoint == path
  }

  /**
   * The tables the audit accepts: every line parses as a standard mount or a
   * mount of a requested root, and each requested root is mounted on its own.
   */
  ghost predicate Acceptable(lines: seq<string>, roots: Roots) {
    && (Given(roots.texCache) ==> roots.texCache.value[0] == '/')
    && (forall line | line in lines :: Problem(line, roots) == None)
    && (Given(roots.workspace) ==> exists line :: line in lines && Mounts(line, roots.workspace.value))
    && (Given(roots.texCache) ==>
          !IsRoot(roots.workspace, roots.texCache.value) && exists line :: line in lines && Mounts(line, roots.texCache.value))
  }

  method ValidateFallbackMountInfo(mountInfo: string, roots: Roots) returns (r: Result<(), AuditError>)
    ensures r.Success? <==> Acceptable(SplitOn(mountInfo, '\n'), roots)
    ensures r.Failure? && r.error != RelativeCacheRoot ==>
              var lines := SplitOn(mountInfo, '\n');
              || (exists i :: 0 <= i < |lines| && Problem(lines[i], roots) == Some(r.error)
                              && forall j | 0 <= j < i :: Problem(lines[j], roots) == None)
              || ((r.error == WorkspaceNotMounted || r.error == CacheNotMounted) && forall line | line in lines :: Problem(line, roots) == None)
  {
    hide Standard, Parse;
    if Given(roots.texCache) && roots.texCache.value[0] != '/' { return Failure(RelativeCacheRoot); }
    var lines := SplitOn(mountInfo, '\n');
    var workspaceMountFound, texCacheMountFound := false, false;
    for n := 0 to |lines|
      invariant forall j | 0 <= j < n :: Problem(lines[j], roots) == None
      invariant workspaceMountFound <==>
                Given(roots.workspace) && exists j :: 0 <= j < n && Mounts(lines[j], roots.workspace.value)
      invariant texCacheMountFound <==>
                Given(roots.texCache) && !IsRoot(roots.workspace, roots.texCache.value)
                && exists j :: 0 <= j < n && Mounts(lines[j], roots.texCache.value)
    {
      var line := lines[n];
      if line == "" { continue; }
      var parsed := Parse(line);
      if parsed.Failure? {
        assert Problem(lines[n], roots) == Some(parsed.error);
        return Failure(parsed.error);
      }
      var entry := parsed.value;
      if Standard(entry) { continue; }
      if IsRoot(roots.workspace, entry.mountPoint) {
        workspaceMountFound := true;
        assert Mounts(lines[n], roots.workspace.value);
        continue;
      }
      if IsRoot(roots.texCache, entry.mountPoint) {
        texCacheMountFound := true;
        assert Mounts(lines[n], roots.texCache.value);
        continue;
      }
      assert Problem(lines[n], roots) == Some(UnexpectedMount(entry.mountPoint));
      return Failure(UnexpectedMount(entry.mountPoint));
    }
    if Given(roots.workspace) && !workspaceMountFound { return Failure(WorkspaceNotMounted); }
    if Given(roots.texCache) && !texCacheMountFound { return Failure(CacheNotMounted); }
    return Success(());
  }

  /** The trusted-workspace form: the workspace root must be absolute, and it is always asked for. */
  method ValidateTrustedWorkspace(mountInfo: string, workspaceRoot: string, texCache: Option<string>) returns (r: Result<(), AuditError>)
    ensures r.Success? <==>
            StartsWith(workspaceRoot, "/") && Acceptable(SplitOn(mountInfo, '\n'), Roots(Some(workspaceRoot), texCache))
    ensures r.Success? ==> exists line :: line in SplitOn(mountInfo, '\n') && Mounts(line, workspaceRoot)
  {
    hide Problem, Mounts;
    if !StartsWith(workspaceRoot, "/") { return Failure(RelativeWorkspaceRoot); }
    r := ValidateFallbackMountInfo(mountInfo, Roots(Some(workspaceRoot), texCache));
  }

  /** Neither the order of the lines nor a repeated line matters. */
  lemma OrderDoesNotMatter(lines: seq<string>, others: seq<string>, roots: Roots)
    requires forall line :: line in lines <==> line in others
    ensures Acceptable(lines, roots) <==> Acceptable(others, roots)
  {
    hide Problem, Mounts;
  }

  // ------------------------------------------------ the audit on real mounts

  /** A mount as the kernel knows it: its path may hold any character. */
  datatype Mount = Mount(first: seq<string>, path: string, options: string, optional: seq<string>, filesystemType: string, last: seq<string>)

  predicate Plain(field: string) {
    ' ' !in field && '\n' !in field
  }

  predicate ValidMount(m: Mount) {
    && |m.first| == 4 && |m.last| == 2 && |m.path| > 0 && m.path[0] == '/'
    && (forall f | f in m.first + [m.options] + m.optional :: Plain(f) && f != "-")
    && (forall f | f in m.last :: Plain(f))
    && Plain(m.filesystemType) && m.filesystemType != ""
  }

  /** The fields of the mount's line, in the order of proc_pid_mountinfo(5). */
  function Fields(m: Mount): seq<string> {
    m.first + [Escape(m.path), m.options] + m.optional + ["-", m.filesystemType] + m.last
  }

  function LineOf(m: Mount): string {
    JoinOn(Fields(m), ' ')
  }

  function Table(mounts: seq<Mount>): string {
    JoinOn(seq(|mounts|, i requires 0 <= i < |mounts| => LineOf(mounts[i])) + [""], '\n')
  }

  lemma {:induction false} EscapeIsPlain(path: string)
    ensures Plain(Escape(path))
    ensures path != "" && path[0] == '/' ==> Escape(path) != "-" && Escape(path) != ""
  {
    if path == "" {
    } else {
      EscapeIsPlain(path[1..]);
      if Escaped(path[0]) {
        var e := EscapeOf(path[0]);
        assert forall c | c in e :: c == '\\' || c == e[1] || c == e[2] || c == e[3];
      }
    }
  }

  lemma FieldsOfMount(m: Mount)
    requires ValidMount(m)
    ensures var fs := Fields(m);
            && |fs| >= 7 && (forall i | 0 <= i < |fs| :: Plain(fs[i])) && fs[4] == Escape(m.path)
            && fs[6 + |m.optional|] == "-" && fs[7 + |m.optional|] == m.filesystemType && m.filesystemType != "" && 7 + |m.optional| < |fs|
            && forall i | 0 <= i < 6 + |m.optional| :: fs[i] != "-"
  {
    hide Escape;
    EscapeIsPlain(m.path);
    var fs := Fields(m);
    var named := m.first + [m.options] + m.optional;
    forall i | 0 <= i < |fs| ensures Plain(fs[i]) && (i < 6 + |m.optional| ==> fs[i] != "-") {
      if i < 4 {
        assert fs[i] == m.first[i] && fs[i] in named;
      } else if i == 5 {
        assert fs[i] == m.options && fs[i] in named;
      } else if 6 <= i < 6 + |m.optional| {
        assert fs[i] == m.optional[i - 6] && fs[i] in named;
      } else if i >= 8 + |m.optional| {
        assert fs[i] == m.last[i - 8 - |m.optional|] && fs[i] in m.last;
      }
    }
  }

  /** The line of a mount reads back as its path and its type, whatever the path is. */
  lemma LineReadsBack(m: Mount)
    requires ValidMount(m)
    ensures Parse(LineOf(m)) == Success(Entry(m.path, m.filesystemType)) && LineOf(m) != "" && '\n' !in LineOf(m)
  {
    hide Escape, DecodePath, ValidMount;
    var fs := Fields(m);
    FieldsOfMount(m);
    hide Fields;
    forall i | 0 <= i < |fs| ensures ' ' !in fs[i] && '\n' !in fs[i] { assert Plain(fs[i]); }
    SplitOfJoin(fs, ' ');
    JoinMembers(fs, ' ', '\n');
    DecodeUndoesEscape(m.path);
    assert SeparatorOf(fs) == 6 + |m.optional|;
    assert SplitOn("", ' ') == [""];
  }

  predicate Allowed(m: Mount, roots: Roots) {
    Standard(Entry(m.path, m.filesystemType)) || IsRoot(roots.workspace, m.path) || IsRoot(roots.texCache, m.path)
  }

  predicate OwnMount(m: Mount, path: string) {
    m.path == path && !Standard(Entry(m.path, m.filesystemType))
  }

  /** On the table of any mounts, the audit's verdict is about the mounts: their real paths, not the text. */
  lemma AuditOfMounts(mounts: seq<Mount>, roots: Roots)
    requires forall m | m in mounts :: ValidMount(m)
    ensures Acceptable(SplitOn(Table(mounts), '\n'), roots) <==>
            && (Given(roots.texCache) ==> roots.texCache.value[0] == '/')
            && (forall m | m in mounts :: Allowed(m, roots))
            && (Given(roots.workspace) ==> exists m :: m in mounts && OwnMount(m, roots.workspace.value))
            && (Given(roots.texCache) ==>
                  !IsRoot(roots.workspace, roots.texCache.value) && exists m :: m in mounts && OwnMount(m, roots.texCache.value))
  {
    hide ValidMount, LineOf, Parse, Standard;
    var lines := seq(|mounts|, i requires 0 <= i < |mounts| => LineOf(mounts[i])) + [""];
    forall i | 0 <= i < |mounts| ensures Problem(lines[i], roots) == None <==> Allowed(mounts[i], roots)
      ensures forall p :: Mounts(lines[i], p) <==> OwnMount(mounts[i], p)
      ensures '\n' !in lines[i]
    {
      LineReadsBack(mounts[i]);
    }
    SplitOfJoin(lines, '\n');
    assert lines[|mounts|] == "";
    hide Problem, Mounts, Allowed, OwnMount;
    assert (forall line | line in lines :: Problem(line, roots) == None) <==> forall m | m in mounts :: Allowed(m, roots) by {
      if forall line | line in lines :: Problem(line, roots) == None {
        forall m | m in mounts ensures Allowed(m, roots) {
          var i :| 0 <= i < |mounts| && mounts[i] == m;
          assert lines[i] in lines;
        }
      }
      assert Problem("", roots) == None;
    }
    MountedOrNot(mounts, lines, roots.workspace);
    MountedOrNot(mounts, lines, roots.texCache);
  }

  lemma MountedOrNot(mounts: seq<Mount>, lines: seq<string>, root: Option<string>)
    requires |lines| == |mounts| + 1 && lines[|mounts|] == ""
    requires forall i, p | 0 <= i < |mounts| :: Mounts(lines[i], p) <==> OwnMount(mounts[i], p)
    ensures Given(root) ==>
              ((exists line :: line in lines && Mounts(line, root.value)) <==> exists m :: m in mounts && OwnMount(m, root.value))
  {
    hide OwnMount, Parse;
    if Given(root) {
      if exists line :: line in lines && Mounts(line, root.value) {
        var line :| line in lines && Mounts(line, root.value);
        var i :| 0 <= i < |lines| && lines[i] == line;
        assert OwnMount(mounts[i], root.value);
      }
      if exists m :: m in mounts && OwnMount(m, root.value) {
        var m :| m in mounts && OwnMount(m, root.value);
        var i :| 0 <= i < |mounts| && mounts[i] == m;
        assert lines[i] in lines && Mounts(lines[i], root.value);
      }
    }
  }
}
