/**
 * The recursive scan of the workspace (workspaceStore.ts, scan) and its
 * quotas: whether it fails does not depend on the order of the entries.
 */
module WorkspaceScan {
  import opened Wrappers
  import opened WorkspacePath
  import opened WorkspaceTree

  datatype Limits = Limits(maxFileBytes: nat, maxEntries: nat, maxWorkspaceBytes: nat)

  datatype ScanError = InvalidPath | UnsafeEntry | TooManyFiles | FileTooLarge | WorkspaceTooLarge

  datatype Tally = Tally(files: seq<FileRef>, totalBytes: nat)

  /** Entries the scan passes over: the repository and files still being written. */
  predicate Visible(name: string) {
    name != ".git" && !StartsWith(name, WRITE_PREFIX)
  }

  function SizeOf(disk: Disk, inode: nat): nat {
    if inode in disk then |disk[inode]| else 0
  }

  // ------------------------------------------------------------ specification

  /** The visible files below a directory, in the order of its entries. */
  function Files(es: seq<Entry>, prefix: Path): seq<FileRef>
    decreases es
  {
    if es == [] then [] else FilesOf(es[0], prefix) + Files(es[1..], prefix)
  }

  function FilesOf(e: Entry, prefix: Path): seq<FileRef>
    decreases e
  {
    if !Visible(e.name) then []
    else match e.node
         case File(inode) => [FileRef(prefix + [e.name], inode)]
         case Dir(sub) => Files(sub, prefix + [e.name])
         case _ => []
  }

  /** Every visible entry is a directory or regular file with a valid path. */
  predicate Clean(es: seq<Entry>, prefix: Path)
    decreases es
  {
    forall i | 0 <= i < |es| :: CleanEntry(es[i], prefix)
  }

  predicate CleanEntry(e: Entry, prefix: Path)
    decreases e
  {
    Visible(e.name) ==>
      && ValidPath(prefix + [e.name])
      && match e.node { case File(_) => true case Dir(sub) => Clean(sub, prefix + [e.name]) case _ => false }
  }

  function Total(files: seq<FileRef>, disk: Disk): nat {
    if files == [] then 0 else SizeOf(disk, files[0].inode) + Total(files[1..], disk)
  }

  predicate Small(files: seq<FileRef>, disk: Disk, limits: Limits) {
    forall i | 0 <= i < |files| :: SizeOf(disk, files[i].inode) <= limits.maxFileBytes
  }

  predicate Fits(files: seq<FileRef>, disk: Disk, limits: Limits) {
    |files| <= limits.maxEntries && Total(files, disk) <= limits.maxWorkspaceBytes && Small(files, disk, limits)
  }

  // -------------------------------------------------------------------- scan

  /** visit(): the files found so far and their total size are carried through the recursion. */
  function Visit(es: seq<Entry>, prefix: Path, disk: Disk, limits: Limits, tally: Tally): Result<Tally, ScanError>
    decreases es
  {
    if es == [] then Success(tally)
    else match VisitEntry(es[0], prefix, disk, limits, tally)
         case Failure(e) => Failure(e)
         case Success(next) => Visit(es[1..], prefix, disk, limits, next)
  }

  function VisitEntry(e: Entry, prefix: Path, disk: Disk, limits: Limits, tally: Tally): Result<Tally, ScanError>
    decreases e
  {
    if !Visible(e.name) then Success(tally)
    else
      var path := prefix + [e.name];
      if !ValidPath(path) then Failure(InvalidPath)
      else match e.node
           case Link => Failure(UnsafeEntry)
           case Device => Failure(UnsafeEntry)
           case Dir(sub) => Visit(sub, path, disk, limits, tally)
           case File(inode) => Count(FileRef(path, inode), disk, limits, tally)
  }

  function Count(file: FileRef, disk: Disk, limits: Limits, tally: Tally): Result<Tally, ScanError> {
    var size := SizeOf(disk, file.inode);
    if |tally.files| >= limits.maxEntries then Failure(TooManyFiles)
    else if size > limits.maxFileBytes then Failure(FileTooLarge)
    else if tally.totalBytes + size > limits.maxWorkspaceBytes then Failure(WorkspaceTooLarge)
    else Success(Tally(tally.files + [file], tally.totalBytes + size))
  }

  function Scan(root: seq<Entry>, disk: Disk, limits: Limits): Result<Tally, ScanError> {
    Visit(root, [], disk, limits, Tally([], 0))
  }

  lemma TotalConcat(a: seq<FileRef>, b: seq<FileRef>, disk: Disk)
    ensures Total(a + b, disk) == Total(a, disk) + Total(b, disk)
  {
    if a == [] {
      assert a + b == b;
    } else {
      assert (a + b)[1..] == a[1..] + b;
      TotalConcat(a[1..], b, disk);
    }
  }

  ghost predicate Tallied(tally: Tally, disk: Disk, limits: Limits) {
    tally.totalBytes == Total(tally.files, disk) && Fits(tally.files, disk, limits)
  }

  lemma FitsPrefix(a: seq<FileRef>, b: seq<FileRef>, disk: Disk, limits: Limits)
    requires Fits(a + b, disk, limits)
    ensures Fits(a, disk, limits)
  {
    TotalConcat(a, b, disk);
    forall i | 0 <= i < |a| ensures SizeOf(disk, a[i].inode) <= limits.maxFileBytes {
      assert (a + b)[i] == a[i];
    }
  }

  lemma CountIff(file: FileRef, disk: Disk, limits: Limits, tally: Tally)
    requires Tallied(tally, disk, limits)
    ensures var r := Count(file, disk, limits, tally);
            && (r.Success? <==> Fits(tally.files + [file], disk, limits))
            && (r.Success? ==> r.value.files == tally.files + [file] && Tallied(r.value, disk, limits))
  {
    TotalConcat(tally.files, [file], disk);
    assert (tally.files + [file])[|tally.files|] == file;
    assert Total([file], disk) == SizeOf(disk, file.inode) + Total([file][1..], disk);
  }

  /** What a visit leaves, or that it cannot succeed. */
  ghost predicate Visited(r: Result<Tally, ScanError>, clean: bool, found: seq<FileRef>, disk: Disk, limits: Limits, tally: Tally) {
    && (r.Success? <==> clean && Fits(tally.files + found, disk, limits))
    && (r.Success? ==> r.value.files == tally.files + found && Tallied(r.value, disk, limits))
  }

  lemma {:induction false} VisitEntryIff(e: Entry, prefix: Path, disk: Disk, limits: Limits, tally: Tally)
    requires Tallied(tally, disk, limits)
    ensures Visited(VisitEntry(e, prefix, disk, limits, tally), CleanEntry(e, prefix), FilesOf(e, prefix), disk, limits, tally)
    decreases e, 0
  {
    assert tally.files + [] == tally.files;
    if Visible(e.name) {
      var path := prefix + [e.name];
      match e.node {
        case File(inode) => CountIff(FileRef(path, inode), disk, limits, tally);
        case Dir(sub) => VisitIff(sub, path, disk, limits, tally);
        case _ =>
      }
    }
  }

  lemma {:induction false} VisitIff(es: seq<Entry>, prefix: Path, disk: Disk, limits: Limits, tally: Tally)
    requires Tallied(tally, disk, limits)
    ensures Visited(Visit(es, prefix, disk, limits, tally), Clean(es, prefix), Files(es, prefix), disk, limits, tally)
    decreases es, 1
  {
    if es == [] {
      assert tally.files + [] == tally.files;
    } else {
      var here, below := FilesOf(es[0], prefix), Files(es[1..], prefix);
      VisitEntryIff(es[0], prefix, disk, limits, tally);
      var r := VisitEntry(es[0], prefix, disk, limits, tally);
      assert tally.files + (here + below) == (tally.files + here) + below;
      CleanCons(es, prefix);
      if r.Success? {
        VisitIff(es[1..], prefix, disk, limits, r.value);
      } else if Fits(tally.files + here + below, disk, limits) {
        FitsPrefix(tally.files + here, below, disk, limits);
      }
    }
  }

  lemma CleanCons(es: seq<Entry>, prefix: Path)
    requires es != []
    ensures Clean(es, prefix) <==> CleanEntry(es[0], prefix) && Clean(es[1..], prefix)
  {
    assert forall i | 0 <= i < |es| - 1 :: es[1..][i] == es[i + 1];
    if CleanEntry(es[0], prefix) && Clean(es[1..], prefix) {
      forall i | 0 <= i < |es| ensures CleanEntry(es[i], prefix) {
        if i > 0 { assert CleanEntry(es[1..][i - 1], prefix); }
      }
    }
  }

  /** The scan succeeds exactly on a clean tree within the quotas, in whatever order the entries come, and lists its files. */
  lemma ScanIff(root: seq<Entry>, disk: Disk, limits: Limits)
    ensures var r := Scan(root, disk, limits);
            && (r.Success? <==> Clean(root, []) && Fits(Files(root, []), disk, limits))
            && (r.Success? ==> r.value == Tally(Files(root, []), Total(Files(root, []), disk)))
  {
    VisitIff(root, [], disk, limits, Tally([], 0));
    assert [] + Files(root, []) == Files(root, []);
  }

  /** The loop over the entries of one directory. */
  method VisitDirectory(es: seq<Entry>, prefix: Path, disk: Disk, limits: Limits, tally: Tally) returns (r: Result<Tally, ScanError>)
    ensures r == Visit(es, prefix, disk, limits, tally)
    decreases es
  {
    var current := tally;
    var i := 0;
    assert es[0..] == es;
    while i < |es|
      invariant 0 <= i <= |es|
      invariant Visit(es, prefix, disk, limits, tally) == Visit(es[i..], prefix, disk, limits, current)
    {
      var entry := es[i];
      assert es[i..][0] == entry && es[i..][1..] == es[i + 1..];
      if Visible(entry.name) {
        var path := prefix + [entry.name];
        if !ValidPath(path) { return Failure(InvalidPath); }
        var step;
        match entry.node {
          case Link => return Failure(UnsafeEntry);
          case Device => return Failure(UnsafeEntry);
          case Dir(sub) => step := VisitDirectory(sub, path, disk, limits, current);
          case File(inode) => step := Count(FileRef(path, inode), disk, limits, current);
        }
        if step.Failure? { return step; }
        current := step.value;
      }
      i := i + 1;
    }
    return Success(current);
  }

  // ----------------------------------------------------- files after a change

  lemma {:induction false} FilesConcat(a: seq<Entry>, b: seq<Entry>, prefix: Path)
    ensures Files(a + b, prefix) == Files(a, prefix) + Files(b, prefix)
  {
    if a == [] {
      assert a + b == b;
    } else {
      assert (a + b)[1..] == a[1..] + b;
      FilesConcat(a[1..], b, prefix);
    }
  }

  lemma FilesOfSingleton(e: Entry, prefix: Path)
    ensures Files([e], prefix) == FilesOf(e, prefix)
  {
  }

  lemma FilesAround(es: seq<Entry>, i: nat, e: Entry, prefix: Path)
    requires i < |es|
    ensures Files(es, prefix) == Files(es[..i], prefix) + FilesOf(es[i], prefix) + Files(es[i + 1..], prefix)
    ensures Files(es[i := e], prefix) == Files(es[..i], prefix) + FilesOf(e, prefix) + Files(es[i + 1..], prefix)
    ensures Files(es[..i] + es[i + 1..], prefix) == Files(es[..i], prefix) + Files(es[i + 1..], prefix)
  {
    hide Files, FilesOf;
    assert es == es[..i] + [es[i]] + es[i + 1..];
    assert es[i := e] == es[..i] + [e] + es[i + 1..];
    FilesConcat(es[..i] + [es[i]], es[i + 1..], prefix);
    FilesConcat(es[..i], [es[i]], prefix);
    FilesConcat(es[..i] + [e], es[i + 1..], prefix);
    FilesConcat(es[..i], [e], prefix);
    FilesConcat(es[..i], es[i + 1..], prefix);
    FilesOfSingleton(es[i], prefix);
    FilesOfSingleton(e, prefix);
  }

  predicate AllVisible(path: Path) {
    forall i | 0 <= i < |path| :: Visible(path[i])
  }

  /** What the scan lists for a node placed at `path`. */
  function Listed(node: Option<Node>, path: Path, prefix: Path): seq<FileRef> {
    match node
    case Some(File(inode)) => if AllVisible(path) then [FileRef(prefix + path, inode)] else []
    case _ => []
  }

  /** Putting a file or an empty directory replaces what the scan lists at that path and nothing else. */
  lemma {:induction false} FilesAfterPut(es: seq<Entry>, path: Path, node: Node, prefix: Path) returns (a: seq<FileRef>, b: seq<FileRef>)
    requires path != [] && HasParents(es, path) && Plain(node)
    requires Lookup(es, path) == None || FileAt(es, path).Some?
    ensures Files(es, prefix) == a + Listed(Lookup(es, path), path, prefix) + b
    ensures Files(Put(es, path, node), prefix) == a + Listed(Some(node), path, prefix) + b
    decreases |path|
  {
    hide Files, Find;
    var i := Find(es, path[0]);
    var e := Entry(path[0], node);
    if |path| == 1 {
      EntryListed(e, path, prefix);
      if i < 0 {
        a, b := Files(es, prefix), [];
        FilesConcat(es, [e], prefix);
        FilesOfSingleton(e, prefix);
      } else {
        a, b := Files(es[..i], prefix), Files(es[i + 1..], prefix);
        FilesAround(es, i, e, prefix);
        EntryListed(es[i], path, prefix);
      }
    } else {
      var sub := es[i].node.entries;
      var deeper := Entry(path[0], Dir(Put(sub, path[1..], node)));
      a, b := Files(es[..i], prefix), Files(es[i + 1..], prefix);
      FilesAround(es, i, deeper, prefix);
      VisibleTail(path, Lookup(es, path), prefix);
      VisibleTail(path, Some(node), prefix);
      if Visible(path[0]) {
        var c, d := FilesAfterPut(sub, path[1..], node, prefix + [path[0]]);
        a, b := a + c, d + b;
      }
    }
  }

  lemma EntryListed(e: Entry, path: Path, prefix: Path)
    requires path == [e.name] && (e.node.File? || e.node == Dir([]))
    ensures FilesOf(e, prefix) == Listed(Some(e.node), path, prefix)
  {
    assert AllVisible(path) <==> Visible(path[0]);
    if e.node.Dir? { assert Files(e.node.entries, prefix + [e.name]) == []; }
  }

  lemma VisibleTail(path: Path, node: Option<Node>, prefix: Path)
    requires |path| > 1
    ensures Listed(node, path, prefix) ==
            if Visible(path[0]) then Listed(node, path[1..], prefix + [path[0]]) else []
  {
    assert path == [path[0]] + path[1..];
    assert prefix + path == (prefix + [path[0]]) + path[1..];
    assert forall i | 0 <= i < |path| - 1 :: path[1..][i] == path[i + 1];
    if Visible(path[0]) && AllVisible(path[1..]) {
      forall i | 0 <= i < |path| ensures Visible(path[i]) {
        if i > 0 { assert Visible(path[1..][i - 1]); }
      }
    }
  }

  lemma {:induction false} FilesAfterRemove(es: seq<Entry>, path: Path, prefix: Path) returns (a: seq<FileRef>, b: seq<FileRef>)
    requires path != [] && HasParents(es, path) && FileAt(es, path).Some?
    ensures Files(es, prefix) == a + Listed(Lookup(es, path), path, prefix) + b
    ensures Files(Remove(es, path), prefix) == a + b
    decreases |path|
  {
    hide Files, Find;
    var i := Find(es, path[0]);
    a, b := Files(es[..i], prefix), Files(es[i + 1..], prefix);
    if |path| == 1 {
      FilesAround(es, i, es[i], prefix);
      EntryListed(es[i], path, prefix);
    } else {
      var sub := es[i].node.entries;
      FilesAround(es, i, Entry(path[0], Dir(Remove(sub, path[1..]))), prefix);
      VisibleTail(path, Lookup(es, path), prefix);
      if Visible(path[0]) {
        var c, d := FilesAfterRemove(sub, path[1..], prefix + [path[0]]);
        a, b := a + c, d + b;
      }
    }
  }

  lemma {:induction false} CleanAfterPut(es: seq<Entry>, path: Path, node: Node, prefix: Path)
    requires path != [] && HasParents(es, path) && Plain(node) && Clean(es, prefix)
    requires AllVisible(path) ==> ValidPath(prefix + path)
    ensures Clean(Put(es, path, node), prefix)
    decreases |path|
  {
    hide Find;
    var i := Find(es, path[0]);
    if |path| == 1 {
      assert path == [path[0]];
      assert Visible(path[0]) <==> AllVisible(path);
      var e := Entry(path[0], node);
      assert CleanEntry(e, prefix);
      var r := Put(es, path, node);
      forall j | 0 <= j < |r| ensures CleanEntry(r[j], prefix) {
        if r[j] != e { assert CleanEntry(es[j], prefix); }
      }
    } else {
      assert CleanEntry(es[i], prefix);
      if Visible(path[0]) {
        assert prefix + path == (prefix + [path[0]]) + path[1..];
        assert AllVisible(path[1..]) ==> AllVisible(path) by {
          if AllVisible(path[1..]) {
            forall k | 0 <= k < |path| ensures Visible(path[k]) {
              if k > 0 { assert Visible(path[1..][k - 1]); }
            }
          }
        }
        CleanAfterPut(es[i].node.entries, path[1..], node, prefix + [path[0]]);
      }
    }
  }

  lemma {:induction false} CleanAfterRemove(es: seq<Entry>, path: Path, prefix: Path)
    requires path != [] && HasParents(es, path) && Clean(es, prefix)
    ensures Clean(Remove(es, path), prefix)
    decreases |path|
  {
    hide Find;
    var i := Find(es, path[0]);
    if |path| > 1 {
      assert CleanEntry(es[i], prefix);
      if Visible(path[0]) { CleanAfterRemove(es[i].node.entries, path[1..], prefix + [path[0]]); }
    } else if i >= 0 {
      var r := es[..i] + es[i + 1..];
      assert forall j | 0 <= j < |r| :: r[j] == if j < i then es[j] else es[j + 1];
    }
  }

  lemma {:induction false} FilesBelow(es: seq<Entry>, prefix: Path, next: nat)
    requires WellFormed(es, next)
    ensures forall f | f in Files(es, prefix) :: f.inode < next
    decreases es
  {
    if es == [] {
    } else {
      assert NodeWellFormed(es[0].node, next);
      if es[0].node.Dir? { FilesBelow(es[0].node.entries, prefix + [es[0].name], next); }
      assert forall i | 0 <= i < |es| - 1 :: es[1..][i] == es[i + 1];
      FilesBelow(es[1..], prefix, next);
    }
  }

  /** The totals depend on the disk only through the listed inodes. */
  lemma {:induction false} TotalDependsOnFiles(files: seq<FileRef>, disk: Disk, later: Disk)
    requires forall f | f in files :: SizeOf(disk, f.inode) == SizeOf(later, f.inode)
    ensures Total(files, disk) == Total(files, later)
  {
    if files == [] {
    } else {
      assert files[0] in files;
      assert forall f | f in files[1..] :: f in files;
      TotalDependsOnFiles(files[1..], disk, later);
    }
  }
}
