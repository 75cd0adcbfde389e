/**
 * The workspace store as the object it is, updated in place. Each method is
 * one run of a call from await to await and is proved against the function of
 * the same step, so everything proved about runs of the steps holds of it.
 */
module WorkspaceStoreObject {
  import opened Wrappers
  import opened WorkspacePath
  import opened WorkspaceTree
  import opened WorkspaceScan
  import opened WorkspaceStore

  class Store {
    const cfg: Config
    var root: seq<Entry>
    var disk: Disk
    var nextInode: nat
    var tickets: seq<Ticket>
    var mutationTail: Option<nat>
    var readers: seq<Reader>
    /** What was committed; the code does not read it, but each reader notes how far it had come. */
    var log: seq<Commit>

    ghost function View(): State
      reads this
    {
      State(root, disk, nextInode, tickets, mutationTail, readers, log)
    }

    constructor (cfg: Config, root: seq<Entry>, disk: Disk, nextInode: nat)
      ensures this.cfg == cfg && View() == Fresh(root, disk, nextInode)
    {
      this.cfg, this.root, this.disk, this.nextInode := cfg, root, disk, nextInode;
      tickets, mutationTail, readers, log := [], None, [], [];
    }

    // -------------------------------------------------------------- reading

    /** The loop over the segments of a path, one lstat each. */
    method ResolveExistingFile(path: Path) returns (r: Result<nat, StoreError>)
      requires path != []
      ensures r == Resolve(root, path)
    {
      var current := root;
      var index := 0;
      assert path[0..] == path;
      while true
        invariant index < |path|
        invariant Resolve(root, path) == Resolve(current, path[index..])
        decreases |path| - index
      {
        assert path[index..][0] == path[index] && path[index..][1..] == path[index + 1..];
        var found := Find(current, path[index]);
        if found < 0 { return Failure(FileNotFound); }
        var info := current[found].node;
        if info.Link? { return Failure(UnsafePath); }
        if index < |path| - 1 && !info.Dir? { return Failure(PathConflict); }
        if index == |path| - 1 && !info.File? { return Failure(PathConflict); }
        if index == |path| - 1 { return Success(info.inode); }
        current := info.entries;
        index := index + 1;
      }
    }

    method Read(path: Path) returns (r: Result<Bytes, StoreError>)
      requires path != []
      ensures r == ReadNow(cfg, View(), path)
    {
      var resolved := ResolveExistingFile(path);
      if resolved.Failure? { return Failure(resolved.error); }
      var content := Content(disk, resolved.value);
      if |content| > cfg.limits.maxFileBytes { return Failure(OversizedFile); }
      return Success(content);
    }

    method ReadExisting(path: Path) returns (r: Result<Option<Bytes>, StoreError>)
      requires path != []
      ensures r == ReadIfExists(cfg, View(), path)
    {
      var response := Read(path);
      if response.Success? { return Success(Some(response.value)); }
      if response.error == FileNotFound { return Success(None); }
      return Failure(response.error);
    }

    // ----------------------------------------------------- calls and the lock

    method WithMutationLock(op: Op)
      modifies this`tickets, this`mutationTail
      ensures View() == Enqueue(old(View()), op)
    {
      var previous := mutationTail;
      mutationTail := Some(|tickets|);
      tickets := tickets + [Ticket(op, previous, Waiting)];
    }

    method Write(value: string, content: Bytes, condition: Precondition) returns (r: Result<(), StoreError>)
      modifies this`tickets, this`mutationTail
      ensures View() == Step(cfg, old(View()), CallWrite(value, content, condition))
      ensures r.Failure? ==> View() == old(View())
    {
      var normalized := ValidateWorkspacePath(value);
      if normalized.Failure? { return Failure(InvalidWorkspacePath); }
      if |content| > cfg.limits.maxFileBytes { return Failure(OversizedFile); }
      WithMutationLock(WorkspaceStore.Write(normalized.value, content, condition));
      return Success(());
    }

    method Delete(value: string, etag: string) returns (r: Result<(), StoreError>)
      modifies this`tickets, this`mutationTail
      ensures View() == Step(cfg, old(View()), CallDelete(value, etag))
      ensures r.Failure? ==> View() == old(View())
    {
      var normalized := ValidateWorkspacePath(value);
      if normalized.Failure? { return Failure(InvalidWorkspacePath); }
      WithMutationLock(WorkspaceStore.Delete(normalized.value, etag));
      return Success(());
    }

    method WaitAt(i: nat, phase: Phase)
      requires i < |tickets|
      modifies this`tickets
      ensures View() == AtPhase(old(View()), i, phase)
    {
      tickets := tickets[i := tickets[i].(phase := phase)];
    }

    method Reject(i: nat, error: StoreError)
      requires i < |tickets|
      modifies this`tickets
      ensures View() == Fail(old(View()), i, error)
    {
      WaitAt(i, Done(Failure(error), false));
    }

    // ---------------------------------------------------- inside the lock

    method CheckPrecondition(i: nat, io: Io)
      requires i < |tickets| && tickets[i].op.path != []
      modifies this`tickets
      ensures View() == StepReading(cfg, old(View()), i, io)
    {
      var op := tickets[i].op;
      if !io.ok {
        Reject(i, IoFailure);
        return;
      }
      var existing := ReadExisting(op.path);
      if existing.Failure? {
        Reject(i, existing.error);
      } else if !Meets(cfg, op, existing.value) {
        Reject(i, PreconditionFailed);
      } else if op.Write? {
        WaitAt(i, Scanning(existing.value));
      } else {
        WaitAt(i, Unlinking);
      }
    }

    method CheckQuotas(i: nat, existing: Option<Bytes>, io: Io)
      requires i < |tickets| && tickets[i].op.Write?
      modifies this`tickets
      ensures View() == StepScanning(cfg, old(View()), i, existing, io)
    {
      if !io.ok {
        Reject(i, IoFailure);
        return;
      }
      var op := tickets[i].op;
      var scanned := VisitDirectory(root, [], disk, cfg.limits, Tally([], 0));
      if scanned.Failure? {
        Reject(i, Unscannable(scanned.error));
        return;
      }
      var replaced := if existing.Some? then |existing.value| else 0;
      if existing.None? && |scanned.value.files| >= cfg.limits.maxEntries {
        Reject(i, EntryLimit);
      } else if scanned.value.totalBytes - replaced + |op.content| > cfg.limits.maxWorkspaceBytes {
        Reject(i, SizeLimit);
      } else {
        WaitAt(i, NextParent(op.path, 0));
      }
    }

    method MakeParent(i: nat, depth: nat, io: Io)
      requires i < |tickets| && depth < |tickets[i].op.path|
      modifies this`tickets, this`root
      ensures View() == StepMaking(old(View()), i, depth, io)
    {
      var path := tickets[i].op.path;
      var parent := path[..depth + 1];
      if !io.ok || !HasParents(root, parent) {
        Reject(i, IoFailure);
        return;
      }
      var info := Lookup(root, parent);
      if info.Some? && !info.value.Dir? {
        Reject(i, PathConflict);
        return;
      }
      if info.None? { root := Put(root, parent, Dir([])); }
      WaitAt(i, NextParent(path, depth + 1));
    }

    method OpenTemporary(i: nat, io: Io)
      requires i < |tickets| && tickets[i].op.path != []
      modifies this`tickets, this`root, this`disk, this`nextInode
      ensures View() == StepOpening(old(View()), i, io)
    {
      var temporary := Temporary(tickets[i].op.path, io.token);
      if !io.ok || !HasParents(root, temporary) || Lookup(root, temporary) != None {
        WaitAt(i, Cleaning(io.token));
        return;
      }
      var handle := nextInode;
      root := Put(root, temporary, File(handle));
      disk := disk[handle := []];
      nextInode := handle + 1;
      WaitAt(i, Filling(io.token, handle));
    }

    method FillTemporary(i: nat, token: string, inode: nat, io: Io)
      requires i < |tickets| && tickets[i].op.Write?
      modifies this`tickets, this`disk
      ensures View() == StepFilling(old(View()), i, token, inode, io)
    {
      disk := disk[inode := if io.ok then tickets[i].op.content else io.left];
      WaitAt(i, if io.ok then Syncing(token, inode) else Cleaning(token));
    }

    method Rename(i: nat, token: string, io: Io)
      requires i < |tickets| && tickets[i].op.path != []
      modifies this
      ensures View() == StepRenaming(old(View()), i, token, io)
    {
      var path := tickets[i].op.path;
      var temporary := Temporary(path, token);
      if !io.ok || FileAt(root, temporary).None? || !HasParents(root, temporary) {
        WaitAt(i, Cleaning(token));
        return;
      }
      var inode := FileAt(root, temporary).value;
      var taken := Remove(root, temporary);
      if !HasParents(taken, path) || !(Lookup(taken, path) == None || FileAt(taken, path).Some?) {
        WaitAt(i, Cleaning(token));
        return;
      }
      root := Put(taken, path, File(inode));
      log := log + [Commit(i, path, Some(Content(disk, inode)))];
      WaitAt(i, ReadingBack);
    }

    method CleanUp(i: nat, token: string, io: Io)
      requires i < |tickets| && tickets[i].op.path != []
      modifies this`tickets, this`root
      ensures View() == StepCleaning(old(View()), i, token, io)
    {
      var temporary := Temporary(tickets[i].op.path, token);
      if io.ok && FileAt(root, temporary).Some? && HasParents(root, temporary) { root := Remove(root, temporary); }
      Reject(i, IoFailure);
    }

    method ReadBack(i: nat, io: Io)
      requires i < |tickets| && tickets[i].op.path != []
      modifies this`tickets
      ensures View() == StepReadingBack(cfg, old(View()), i, io)
    {
      if !io.ok {
        WaitAt(i, Done(Failure(IoFailure), true));
        return;
      }
      var result := Read(tickets[i].op.path);
      WaitAt(i, Done(if result.Success? then Success(()) else Failure(result.error), true));
    }

    method Unlink(i: nat, io: Io)
      requires i < |tickets| && tickets[i].op.path != []
      modifies this
      ensures View() == StepUnlinking(old(View()), i, io)
    {
      var path := tickets[i].op.path;
      var resolved := ResolveExistingFile(path);
      if resolved.Failure? {
        Reject(i, resolved.error);
      } else if !io.ok || !HasParents(root, path) {
        Reject(i, IoFailure);
      } else {
        root := Remove(root, path);
        log := log + [Commit(i, path, None)];
        WaitAt(i, Done(Success(()), true));
      }
    }

    /** A call goes on to its next await. */
    method Resume(i: nat, io: Io)
      requires i < |tickets| && tickets[i].op.path != []
      modifies this
      ensures View() == StepTicket(cfg, old(View()), i, io)
    {
      var t := tickets[i];
      match t.phase {
        case Waiting =>
          if t.waitsFor.None? || (t.waitsFor.value < |tickets| && tickets[t.waitsFor.value].phase.Done?) { WaitAt(i, Reading); }
        case Reading => CheckPrecondition(i, io);
        case Scanning(existing) => if t.op.Write? { CheckQuotas(i, existing, io); }
        case Making(depth) => if depth < |t.op.path| { MakeParent(i, depth, io); }
        case Opening => OpenTemporary(i, io);
        case Filling(token, inode) => if t.op.Write? { FillTemporary(i, token, inode, io); }
        case Syncing(token, inode) => WaitAt(i, if io.ok then Renaming(token, inode) else Cleaning(token));
        case Renaming(token, _) => Rename(i, token, io);
        case Cleaning(token) => CleanUp(i, token, io);
        case ReadingBack => ReadBack(i, io);
        case Unlinking => Unlink(i, io);
        case Done(_, _) =>
      }
    }

    // -------------------------------------------------------- unlocked reads

    method BeginRead(value: string)
      modifies this`readers
      ensures View() == Step(cfg, old(View()), CallRead(value))
    {
      var normalized := ValidateWorkspacePath(value);
      if normalized.Failure? { return; }
      readers := readers + [Reader(normalized.value, |log|, Resolving(0))];
    }

    method ReaderWaitsAt(j: nat, phase: ReaderPhase)
      requires j < |readers|
      modifies this`readers
      ensures View() == ReaderAt(old(View()), j, phase)
    {
      readers := readers[j := readers[j].(phase := phase)];
    }

    /** One lstat on the way to the file. */
    method LookAtSegment(j: nat, depth: nat)
      requires j < |readers| && depth < |readers[j].path|
      modifies this`readers
      ensures View() == StepResolving(old(View()), j, depth)
    {
      var path := readers[j].path;
      var info := Lookup(root, path[..depth + 1]);
      if info.None? {
        ReaderWaitsAt(j, Finished(Failure(FileNotFound), |log|));
      } else if info.value.Link? {
        ReaderWaitsAt(j, Finished(Failure(UnsafePath), |log|));
      } else if depth < |path| - 1 && !info.value.Dir? {
        ReaderWaitsAt(j, Finished(Failure(PathConflict), |log|));
      } else if depth == |path| - 1 && !info.value.File? {
        ReaderWaitsAt(j, Finished(Failure(PathConflict), |log|));
      } else {
        ReaderWaitsAt(j, if depth == |path| - 1 then OpeningFile else Resolving(depth + 1));
      }
    }

    /** One more piece of the open file. */
    method FetchPiece(j: nat, size: nat)
      requires j < |readers| && readers[j].phase.Fetching?
      modifies this`readers
      ensures View() == StepFetching(cfg, old(View()), j, size)
    {
      var phase := readers[j].phase;
      var content := Content(disk, phase.inode);
      if |phase.got| < |content| {
        ReaderWaitsAt(j, phase.(got := phase.got + content[|phase.got|..Min(|content|, |phase.got| + 1 + size)]));
      } else if |phase.got| > cfg.limits.maxFileBytes {
        ReaderWaitsAt(j, Finished(Failure(OversizedFile), phase.at));
      } else {
        ReaderWaitsAt(j, Finished(Success(phase.got), phase.at));
      }
    }

    method ResumeReader(j: nat, io: Io, size: nat)
      requires j < |readers| && readers[j].path != []
      modifies this`readers
      ensures View() == StepReader(cfg, old(View()), j, io, size)
    {
      var r := readers[j];
      match r.phase {
        case Finished(_, _) =>
        case Resolving(depth) =>
          if !io.ok {
            ReaderWaitsAt(j, Finished(Failure(IoFailure), |log|));
          } else if depth < |r.path| {
            LookAtSegment(j, depth);
          }
        case OpeningFile =>
          var handle := FileAt(root, r.path);
          if !io.ok || handle.None? {
            ReaderWaitsAt(j, Finished(Failure(IoFailure), |log|));
          } else {
            ReaderWaitsAt(j, Fetching(handle.value, [], Content(disk, handle.value), |log|));
          }
        case Fetching(_, _, _, at) =>
          if !io.ok {
            ReaderWaitsAt(j, Finished(Failure(IoFailure), at));
          } else {
            FetchPiece(j, size);
          }
      }
    }

    method Handle(e: Event)
      modifies this
      ensures View() == Step(cfg, old(View()), e)
    {
      hide StepTicket, StepReader, AdmitWrite, AdmitDelete, ValidateWorkspacePath;
      match e {
        case CallWrite(value, content, condition) => var _ := Write(value, content, condition);
        case CallDelete(value, etag) => var _ := Delete(value, etag);
        case Advance(i, io) => if i < |tickets| && tickets[i].op.path != [] { Resume(i, io); }
        case CallRead(value) => BeginRead(value);
        case Poll(j, io, size) => if j < |readers| && readers[j].path != [] { ResumeReader(j, io, size); }
      }
    }
  }

  /** A store from the directory it is opened on to its last event: the object is where the run is. */
  method Serve(cfg: Config, root: seq<Entry>, disk: Disk, nextInode: nat, events: seq<Event>) returns (store: Store)
    ensures fresh(store) && store.cfg == cfg && store.View() == Run(cfg, Fresh(root, disk, nextInode), events)
  {
    hide Step;
    store := new Store(cfg, root, disk, nextInode);
    for n := 0 to |events|
      invariant fresh(store) && store.cfg == cfg && store.View() == Run(cfg, Fresh(root, disk, nextInode), events[..n])
    {
      store.Handle(events[n]);
      assert events[..n + 1][..n] == events[..n];
    }
    assert events[..|events|] == events;
  }
}
