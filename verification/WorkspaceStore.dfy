/**
 * The conditional workspace store (workspaceStore.ts) as a state machine.
 * One step is one run of a call from await to await. Writes and deletes go
 * through the promise-tail lock; reads go on beside them, unlocked.
 */
module WorkspaceStore {
  import opened Wrappers
  import opened WorkspacePath
  import opened WorkspaceTree
  import opened WorkspaceScan

  datatype Precondition = Create | Update(etag: string)

  datatype Op = Write(path: Path, content: Bytes, condition: Precondition) | Delete(path: Path, etag: string)

  datatype StoreError =
    | InvalidWorkspacePath | FileNotFound | UnsafePath | PathConflict | PreconditionFailed
    | OversizedFile | EntryLimit | SizeLimit | Unscannable(cause: ScanError) | IoFailure

  datatype Config = Config(limits: Limits, etag: Bytes -> string)

  /** Where a write or delete waits. `Done` says whether the workspace was changed by the call. */
  datatype Phase =
    | Waiting
    | Reading
    | Scanning(existing: Option<Bytes>)
    | Making(depth: nat)
    | Opening
    | Filling(token: string, inode: nat)
    | Syncing(token: string, inode: nat)
    | Renaming(token: string, inode: nat)
    | Cleaning(token: string)
    | ReadingBack
    | Unlinking
    | Done(outcome: Result<(), StoreError>, committed: bool)

  /** A call in the lock's queue; it waits for the release of the call `waitsFor`, if any. */
  datatype Ticket = Ticket(op: Op, waitsFor: Option<nat>, phase: Phase)

  /** Where an unlocked read waits. `at` counts the commits before the instant the read reports on. */
  datatype ReaderPhase =
    | Resolving(depth: nat)
    | OpeningFile
    | Fetching(inode: nat, got: Bytes, version: Bytes, at: nat)
    | Finished(outcome: Result<Bytes, StoreError>, at: nat)

  datatype Reader = Reader(path: Path, began: nat, phase: ReaderPhase)

  /** A change that became visible: the call and what its path names since. */
  datatype Commit = Commit(call: nat, path: Path, after: Option<Bytes>)

  datatype State = State(
    root: seq<Entry>,
    disk: Disk,
    nextInode: nat,
    tickets: seq<Ticket>,
    mutationTail: Option<nat>,
    readers: seq<Reader>,
    log: seq<Commit>
  )

  /** How the environment treats a step: whether its file operation works, the random name, what a broken write leaves. */
  datatype Io = Io(ok: bool, token: string, left: Bytes)

  datatype Event =
    | CallWrite(value: string, content: Bytes, condition: Precondition)
    | CallDelete(value: string, etag: string)
    | Advance(call: nat, io: Io)
    | CallRead(value: string)
    | Poll(reader: nat, io: Io, size: nat)

  // ------------------------------------------------------------------ reading

  function Content(disk: Disk, inode: nat): (r: Bytes)
    ensures |r| == SizeOf(disk, inode)
  {
    if inode in disk then disk[inode] else []
  }

  /** What a path holds, or None when it names no file. */
  function Current(s: State, path: Path): Option<Bytes>
    requires path != []
  {
    match FileAt(s.root, path)
    case None => None
    case Some(inode) => Some(Content(s.disk, inode))
  }

  /** resolveExistingFile: every name on the way is looked at before the file is opened. */
  function Resolve(es: seq<Entry>, path: Path): Result<nat, StoreError>
    requires path != []
    decreases |path|
  {
    var i := Find(es, path[0]);
    if i < 0 then Failure(FileNotFound)
    else match es[i].node
         case Link => Failure(UnsafePath)
         case Device => Failure(PathConflict)
         case File(inode) => if |path| == 1 then Success(inode) else Failure(PathConflict)
         case Dir(sub) => if |path| == 1 then Failure(PathConflict) else Resolve(sub, path[1..])
  }

  /** read() when nothing else runs: resolve, open, read, check the size. */
  function ReadNow(cfg: Config, s: State, path: Path): Result<Bytes, StoreError>
    requires path != []
  {
    match Resolve(s.root, path)
    case Failure(e) => Failure(e)
    case Success(inode) =>
      if SizeOf(s.disk, inode) > cfg.limits.maxFileBytes then Failure(OversizedFile) else Success(Content(s.disk, inode))
  }

  /** readIfExists: only a missing file counts as absent. */
  function ReadIfExists(cfg: Config, s: State, path: Path): Result<Option<Bytes>, StoreError>
    requires path != []
  {
    match ReadNow(cfg, s, path)
    case Success(content) => Success(Some(content))
    case Failure(e) => if e == FileNotFound then Success(None) else Failure(e)
  }

  predicate Matches(cfg: Config, existing: Option<Bytes>, etag: string) {
    existing.Some? && cfg.etag(existing.value) == etag
  }

  /** The precondition of a call, on what its path holds (RFC 9110, sections 13.1.1 and 13.1.2). */
  predicate Meets(cfg: Config, op: Op, existing: Option<Bytes>) {
    match op
    case Delete(_, etag) => Matches(cfg, existing, etag)
    case Write(_, _, Create) => existing.None?
    case Write(_, _, Update(etag)) => Matches(cfg, existing, etag)
  }

  // ---------------------------------------------------------- the mutation lock

  function Enqueue(s: State, op: Op): State {
    s.(tickets := s.tickets + [Ticket(op, s.mutationTail, Waiting)], mutationTail := Some(|s.tickets|))
  }

  predicate Released(s: State, waitsFor: Option<nat>) {
    waitsFor.None? || (waitsFor.value < |s.tickets| && s.tickets[waitsFor.value].phase.Done?)
  }

  function AtPhase(s: State, i: nat, phase: Phase): State
    requires i < |s.tickets|
  {
    s.(tickets := s.tickets[i := s.tickets[i].(phase := phase)])
  }

  function Fail(s: State, i: nat, error: StoreError): State
    requires i < |s.tickets|
  {
    AtPhase(s, i, Done(Failure(error), false))
  }

  // ------------------------------------------------------- inside the lock

  /** The temporary file lies beside its destination. */
  function Temporary(path: Path, token: string): (r: Path)
    requires path != []
    ensures |r| == |path|
  {
    path[..|path| - 1] + [WRITE_PREFIX + token]
  }

  function NextParent(path: Path, depth: nat): Phase {
    if depth + 1 < |path| then Making(depth) else Opening
  }

  function StepReading(cfg: Config, s: State, i: nat, io: Io): State
    requires i < |s.tickets| && s.tickets[i].op.path != []
  {
    var op := s.tickets[i].op;
    if !io.ok then Fail(s, i, IoFailure)
    else match ReadIfExists(cfg, s, op.path)
         case Failure(e) => Fail(s, i, e)
         case Success(existing) =>
           if !Meets(cfg, op, existing) then Fail(s, i, PreconditionFailed)
           else AtPhase(s, i, if op.Write? then Scanning(existing) else Unlinking)
  }

  function StepScanning(cfg: Config, s: State, i: nat, existing: Option<Bytes>, io: Io): State
    requires i < |s.tickets| && s.tickets[i].op.Write?
  {
    var op := s.tickets[i].op;
    if !io.ok then Fail(s, i, IoFailure)
    else match Scan(s.root, s.disk, cfg.limits)
         case Failure(e) => Fail(s, i, Unscannable(e))
         case Success(tally) =>
           if existing.None? && |tally.files| >= cfg.limits.maxEntries then Fail(s, i, EntryLimit)
           else if tally.totalBytes - (if existing.Some? then |existing.value| else 0) + |op.content| > cfg.limits.maxWorkspaceBytes then
             Fail(s, i, SizeLimit)
           else AtPhase(s, i, NextParent(op.path, 0))
  }

  /** One turn of the loop of resolveForWrite. */
  function StepMaking(s: State, i: nat, depth: nat, io: Io): State
    requires i < |s.tickets| && depth < |s.tickets[i].op.path|
  {
    var path := s.tickets[i].op.path;
    var parent := path[..depth + 1];
    if !io.ok || !HasParents(s.root, parent) then Fail(s, i, IoFailure)
    else match Lookup(s.root, parent)
         case None => AtPhase(s.(root := Put(s.root, parent, Dir([]))), i, NextParent(path, depth + 1))
         case Some(Dir(_)) => AtPhase(s, i, NextParent(path, depth + 1))
         case _ => Fail(s, i, PathConflict)
  }

  function StepOpening(s: State, i: nat, io: Io): State
    requires i < |s.tickets| && s.tickets[i].op.path != []
  {
    var temporary := Temporary(s.tickets[i].op.path, io.token);
    if !io.ok || !HasParents(s.root, temporary) || Lookup(s.root, temporary) != None then AtPhase(s, i, Cleaning(io.token))
    else
      var created := s.(root := Put(s.root, temporary, File(s.nextInode)), disk := s.disk[s.nextInode := []], nextInode := s.nextInode + 1);
      AtPhase(created, i, Filling(io.token, s.nextInode))
  }

  function StepFilling(s: State, i: nat, token: string, inode: nat, io: Io): State
    requires i < |s.tickets| && s.tickets[i].op.Write?
  {
    if io.ok then AtPhase(s.(disk := s.disk[inode := s.tickets[i].op.content]), i, Syncing(token, inode))
    else AtPhase(s.(disk := s.disk[inode := io.left]), i, Cleaning(token))
  }

  /** rename(2): the file leaves its temporary name and replaces the destination in one instant. */
  function StepRenaming(s: State, i: nat, token: string, io: Io): State
    requires i < |s.tickets| && s.tickets[i].op.path != []
  {
    var path := s.tickets[i].op.path;
    var temporary := Temporary(path, token);
    if !io.ok || FileAt(s.root, temporary).None? || !HasParents(s.root, temporary) then AtPhase(s, i, Cleaning(token))
    else
      var inode := FileAt(s.root, temporary).value;
      var taken := Remove(s.root, temporary);
      if !HasParents(taken, path) || !(Lookup(taken, path) == None || FileAt(taken, path).Some?) then AtPhase(s, i, Cleaning(token))
      else
        var moved := s.(root := Put(taken, path, File(inode)), log := s.log + [Commit(i, path, Some(Content(s.disk, inode)))]);
        AtPhase(moved, i, ReadingBack)
  }

  /** The finally block; what goes wrong here is ignored. */
  function StepCleaning(s: State, i: nat, token: string, io: Io): State
    requires i < |s.tickets| && s.tickets[i].op.path != []
  {
    var temporary := Temporary(s.tickets[i].op.path, token);
    if io.ok && FileAt(s.root, temporary).Some? && HasParents(s.root, temporary) then
      Fail(s.(root := Remove(s.root, temporary)), i, IoFailure)
    else Fail(s, i, IoFailure)
  }

  function StepReadingBack(cfg: Config, s: State, i: nat, io: Io): State
    requires i < |s.tickets| && s.tickets[i].op.path != []
  {
    if !io.ok then AtPhase(s, i, Done(Failure(IoFailure), true))
    else match ReadNow(cfg, s, s.tickets[i].op.path)
         case Success(_) => AtPhase(s, i, Done(Success(()), true))
         case Failure(e) => AtPhase(s, i, Done(Failure(e), true))
  }

  function StepUnlinking(s: State, i: nat, io: Io): State
    requires i < |s.tickets| && s.tickets[i].op.path != []
  {
    var path := s.tickets[i].op.path;
    match Resolve(s.root, path)
    case Failure(e) => Fail(s, i, e)
    case Success(_) =>
      if !io.ok || !HasParents(s.root, path) then Fail(s, i, IoFailure)
      else AtPhase(s.(root := Remove(s.root, path), log := s.log + [Commit(i, path, None)]), i, Done(Success(()), true))
  }

  function StepTicket(cfg: Config, s: State, i: nat, io: Io): State
    requires i < |s.tickets| && s.tickets[i].op.path != []
  {
    var t := s.tickets[i];
    match t.phase
    case Waiting => if Released(s, t.waitsFor) then AtPhase(s, i, Reading) else s
    case Reading => StepReading(cfg, s, i, io)
    case Scanning(existing) => if t.op.Write? then StepScanning(cfg, s, i, existing, io) else s
    case Making(depth) => if depth < |t.op.path| then StepMaking(s, i, depth, io) else s
    case Opening => StepOpening(s, i, io)
    case Filling(token, inode) => if t.op.Write? then StepFilling(s, i, token, inode, io) else s
    case Syncing(token, inode) => AtPhase(s, i, if io.ok then Renaming(token, inode) else Cleaning(token))
    case Renaming(token, _) => StepRenaming(s, i, token, io)
    case Cleaning(token) => StepCleaning(s, i, token, io)
    case ReadingBack => StepReadingBack(cfg, s, i, io)
    case Unlinking => StepUnlinking(s, i, io)
    case Done(_, _) => s
  }

  // ------------------------------------------------------------ unlocked reads

  function ReaderAt(s: State, j: nat, phase: ReaderPhase): State
    requires j < |s.readers|
  {
    s.(readers := s.readers[j := s.readers[j].(phase := phase)])
  }

  function Finish(s: State, j: nat, outcome: Result<Bytes, StoreError>, at: nat): State
    requires j < |s.readers|
  {
    ReaderAt(s, j, Finished(outcome, at))
  }

  /** One lstat of resolveExistingFile. */
  function StepResolving(s: State, j: nat, depth: nat): State
    requires j < |s.readers| && depth < |s.readers[j].path|
  {
    var path := s.readers[j].path;
    var last := depth + 1 == |path|;
    match Lookup(s.root, path[..depth + 1])
    case None => Finish(s, j, Failure(FileNotFound), |s.log|)
    case Some(Link) => Finish(s, j, Failure(UnsafePath), |s.log|)
    case Some(Device) => Finish(s, j, Failure(PathConflict), |s.log|)
    case Some(File(_)) => if last then ReaderAt(s, j, OpeningFile) else Finish(s, j, Failure(PathConflict), |s.log|)
    case Some(Dir(_)) => if last then Finish(s, j, Failure(PathConflict), |s.log|) else ReaderAt(s, j, Resolving(depth + 1))
  }

  function Min(a: nat, b: nat): nat {
    if a <= b then a else b
  }

  /** One more piece of the open file, or its end. */
  function StepFetching(cfg: Config, s: State, j: nat, size: nat): State
    requires j < |s.readers| && s.readers[j].phase.Fetching?
  {
    var p := s.readers[j].phase;
    var content := Content(s.disk, p.inode);
    if |p.got| < |content| then
      ReaderAt(s, j, p.(got := p.got + content[|p.got|..Min(|content|, |p.got| + 1 + size)]))
    else if |p.got| > cfg.limits.maxFileBytes then Finish(s, j, Failure(OversizedFile), p.at)
    else Finish(s, j, Success(p.got), p.at)
  }

  function StepReader(cfg: Config, s: State, j: nat, io: Io, size: nat): State
    requires j < |s.readers| && s.readers[j].path != []
  {
    var r := s.readers[j];
    match r.phase
    case Finished(_, _) => s
    case Resolving(depth) =>
      if !io.ok then Finish(s, j, Failure(IoFailure), |s.log|)
      else if depth < |r.path| then StepResolving(s, j, depth)
      else s
    case OpeningFile =>
      if !io.ok || FileAt(s.root, r.path).None? then Finish(s, j, Failure(IoFailure), |s.log|)
      else
        var inode := FileAt(s.root, r.path).value;
        ReaderAt(s, j, Fetching(inode, [], Content(s.disk, inode), |s.log|))
    case Fetching(_, _, _, at) => if !io.ok then Finish(s, j, Failure(IoFailure), at) else StepFetching(cfg, s, j, size)
  }

  // ------------------------------------------------------------------- steps

  /** write() and delete() up to the lock: the checks that need no file. */
  function AdmitWrite(cfg: Config, value: string, content: Bytes, condition: Precondition): Result<Op, StoreError> {
    match ValidateWorkspacePath(value)
    case Failure(_) => Failure(InvalidWorkspacePath)
    case Success(path) => if |content| > cfg.limits.maxFileBytes then Failure(OversizedFile) else Success(Write(path, content, condition))
  }

  function AdmitDelete(value: string, etag: string): Result<Op, StoreError> {
    match ValidateWorkspacePath(value)
    case Failure(_) => Failure(InvalidWorkspacePath)
    case Success(path) => Success(Delete(path, etag))
  }

  function Call(s: State, admitted: Result<Op, StoreError>): State {
    match admitted
    case Failure(_) => s
    case Success(op) => Enqueue(s, op)
  }

  function Step(cfg: Config, s: State, e: Event): State {
    match e
    case CallWrite(value, content, condition) => Call(s, AdmitWrite(cfg, value, content, condition))
    case CallDelete(value, etag) => Call(s, AdmitDelete(value, etag))
    case Advance(i, io) => if i < |s.tickets| && s.tickets[i].op.path != [] then StepTicket(cfg, s, i, io) else s
    case CallRead(value) =>
      (match ValidateWorkspacePath(value)
       case Failure(_) => s
       case Success(path) => s.(readers := s.readers + [Reader(path, |s.log|, Resolving(0))]))
    case Poll(j, io, size) => if j < |s.readers| && s.readers[j].path != [] then StepReader(cfg, s, j, io, size) else s
  }

  function Run(cfg: Config, start: State, events: seq<Event>): State {
    if events == [] then start else Step(cfg, Run(cfg, start, events[..|events| - 1]), events[|events| - 1])
  }

  /** A store just opened on a directory. */
  function Fresh(root: seq<Entry>, disk: Disk, nextInode: nat): State {
    State(root, disk, nextInode, [], None, [], [])
  }

  // ------------------------------------------------- the abstract CAS map

  /** What a path holds once the first `n` commits are applied, one by one, to the initial workspace. */
  function Replayed(start: State, log: seq<Commit>, n: nat, path: Path): Option<Bytes>
    requires path != [] && n <= |log|
  {
    if n == 0 then Current(start, path)
    else if log[n - 1].path == path then log[n - 1].after
    else Replayed(start, log, n - 1, path)
  }
}
