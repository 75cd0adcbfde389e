/** The temporary file, the instant a change becomes visible, the unlocked reads, and whole runs. */
module WorkspaceCommits {
  import opened Wrappers
  import opened WorkspacePath
  import opened WorkspaceTree
  import opened WorkspaceScan
  import opened WorkspaceStore
  import opened WorkspaceInvariant
  import opened WorkspaceSteps

  // ------------------------------------------------------- the temporary file

  lemma OpeningKeeps(cfg: Config, start: State, s: State, i: nat, io: Io)
    requires Invariant(cfg, start, s) && i < |s.tickets| && s.tickets[i].phase.Opening? && s.tickets[i].op.path != []
    ensures Invariant(cfg, start, StepOpening(s, i, io))
  {
    hide Invariant, HasParents, Lookup, Put, Sound, Queue, Log, ReadersOk, Ready;
    InvariantParts(cfg, start, s);
    assert TicketOk(cfg, s, s.tickets[i]);
    var t := StepOpening(s, i, io);
    if t.tickets[i].phase.Cleaning? {
      assert s.tickets[i].op.Write? by { ReadyIsPassable(cfg, s, s.tickets[i].op); }
      QuietStep(cfg, start, s, i, Cleaning(io.token));
    } else {
      OpensTemporary(cfg, start, s, t, i, io.token);
      Assemble(cfg, start, s, t, i);
    }
  }

  lemma OpensTemporary(cfg: Config, start: State, s: State, t: State, i: nat, token: string)
    requires Invariant(cfg, start, s) && i < |s.tickets| && s.tickets[i].phase.Opening? && s.tickets[i].op.path != []
    requires var p := Temporary(s.tickets[i].op.path, token);
             && HasParents(s.root, p) && Lookup(s.root, p) == None
             && t == AtPhase(s.(root := Put(s.root, p, File(s.nextInode)), disk := s.disk[s.nextInode := []], nextInode := s.nextInode + 1),
                             i, Filling(token, s.nextInode))
    ensures SameView(s, t) && WellFormed(t.root, t.nextInode) && Clean(t.root, []) && Moves(s, t, i)
    ensures TicketOk(cfg, t, t.tickets[i])
  {
    hide Invariant, Ready, HasParents, Lookup, Put, Passable, SameView, WellFormed, Clean, Fits, Log, FileAt, Replayed, Temporary, Private, ValidPath, AllVisible;
    var op := s.tickets[i].op;
    var p := Temporary(op.path, token);
    InvariantParts(cfg, start, s);
    assert TicketOk(cfg, s, s.tickets[i]);
    assert GoodOp(cfg, op);
    TemporaryIsHidden(op.path, token);
    assert forall j | 0 <= j < |s.readers| :: ReaderOk(start, s, s.readers[j]);
    HiddenPut(s, t, p, File(s.nextInode));
    ReadyIsPassable(cfg, s, op);
    MissingIsPlain(s.root, p);
    PassableAfterPut(s.root, p, File(s.nextInode), op.path);
    ReadySameView(cfg, s, t, op);
    ParentsAfterPut(s.root, p, File(s.nextInode), op.path);
    ParentsAfterPut(s.root, p, File(s.nextInode), p);
    FileAtAfterPut(s.root, p, File(s.nextInode), p);
    FreshIsPrivate(start, s, t);
  }

  lemma MissingIsPlain(es: seq<Entry>, p: Path)
    requires p != [] && Lookup(es, p) == None
    ensures Lookup(es, p) == None || FileAt(es, p).Some?
  {
  }

  lemma FreshIsPrivate(start: State, s: State, t: State)
    requires WellFormed(s.root, s.nextInode) && SameView(s, t) && t.nextInode == s.nextInode + 1 && ReadersOk(start, s)
    ensures Private(t, s.nextInode)
  {
    hide Files, FileAt, WellFormed, Replayed, Current, ValidPath;
    FilesBelow(s.root, [], s.nextInode);
    forall q: Path | ValidPath(q) ensures FileAt(t.root, q) != Some(s.nextInode) {
      if FileAt(s.root, q).Some? { InodeBelow(s.root, q, s.nextInode); }
    }
    forall j | 0 <= j < |t.readers| && t.readers[j].phase.Fetching? ensures t.readers[j].phase.inode != s.nextInode {
      assert ReaderOk(start, s, s.readers[j]);
    }
  }

  /** Filling a private file shows nowhere, whatever is written. */
  lemma HiddenFill(s: State, t: State, inode: nat, content: Bytes)
    requires Private(s, inode)
    requires t.root == s.root && t.disk == s.disk[inode := content] && t.nextInode == s.nextInode && t.log == s.log && t.readers == s.readers
    ensures SameView(s, t) && Private(t, inode)
  {
    hide Files, FileAt, Replayed, ValidPath;
    assert forall n: nat | n != inode :: Content(t.disk, n) == Content(s.disk, n);
    forall q: Path | ValidPath(q) ensures FileAt(t.root, q) == FileAt(s.root, q) && Current(t, q) == Current(s, q) {
      assert FileAt(s.root, q) != Some(inode);
    }
  }

  lemma FillingKeeps(cfg: Config, start: State, s: State, i: nat, token: string, inode: nat, io: Io)
    requires Invariant(cfg, start, s) && i < |s.tickets| && s.tickets[i].phase == Filling(token, inode)
    requires s.tickets[i].op.Write? && s.tickets[i].op.path != []
    ensures Invariant(cfg, start, StepFilling(s, i, token, inode, io))
  {
    hide Invariant, Ready, HasParents, SameView, WellFormed, Clean, Fits, Log, Queue, FileAt, ReadersOk, Temporary, Private, Passable;
    var t := StepFilling(s, i, token, inode, io);
    var op := s.tickets[i].op;
    InvariantParts(cfg, start, s);
    assert TicketOk(cfg, s, s.tickets[i]);
    HiddenFill(s, t, inode, if io.ok then op.content else io.left);
    assert GoodOp(cfg, op) by { OpIsGood(cfg, s, i); }
    ReadyIsPassable(cfg, s, op);
    ReadySameView(cfg, s, t, op);
    Assemble(cfg, start, s, t, i);
  }

  lemma OpIsGood(cfg: Config, s: State, i: nat)
    requires Queue(cfg, s) && i < |s.tickets|
    ensures GoodOp(cfg, s.tickets[i].op)
  {
  }

  lemma SyncingKeeps(cfg: Config, start: State, s: State, i: nat, token: string, inode: nat, io: Io)
    requires Invariant(cfg, start, s) && i < |s.tickets| && s.tickets[i].phase == Syncing(token, inode) && s.tickets[i].op.path != []
    ensures Invariant(cfg, start, AtPhase(s, i, if io.ok then Renaming(token, inode) else Cleaning(token)))
  {
    hide Invariant, Ready, Owns, Log, Queue, ReadersOk, Sound, Content;
    InvariantParts(cfg, start, s);
    assert TicketOk(cfg, s, s.tickets[i]);
    ReadyIsPassable(cfg, s, s.tickets[i].op);
    QuietStep(cfg, start, s, i, if io.ok then Renaming(token, inode) else Cleaning(token));
  }

  lemma CleaningKeeps(cfg: Config, start: State, s: State, i: nat, token: string, io: Io)
    requires Invariant(cfg, start, s) && i < |s.tickets| && s.tickets[i].phase == Cleaning(token) && s.tickets[i].op.path != []
    ensures Invariant(cfg, start, StepCleaning(s, i, token, io))
  {
    hide Invariant, HasParents, SameView, WellFormed, Clean, Fits, Log, Queue, FileAt, ReadersOk, Temporary, Remove, ValidPath, AllVisible;
    InvariantParts(cfg, start, s);
    var t := StepCleaning(s, i, token, io);
    var p := Temporary(s.tickets[i].op.path, token);
    TemporaryIsHidden(s.tickets[i].op.path, token);
    if io.ok && FileAt(s.root, p).Some? && HasParents(s.root, p) {
      HiddenRemove(s, t, p);
      Assemble(cfg, start, s, t, i);
    } else {
      FailStep(cfg, start, s, i, IoFailure);
    }
  }

  lemma ReadingBackKeeps(cfg: Config, start: State, s: State, i: nat, io: Io)
    requires Invariant(cfg, start, s) && i < |s.tickets| && s.tickets[i].phase.ReadingBack? && s.tickets[i].op.path != []
    ensures Invariant(cfg, start, StepReadingBack(cfg, s, i, io))
  {
    hide Invariant, ReadNow;
    QuietStep(cfg, start, s, i, StepReadingBack(cfg, s, i, io).tickets[i].phase);
  }

  // ------------------------------------------------ changes that become visible

  lemma {:induction false} ReplayedPrefix(start: State, log: seq<Commit>, more: seq<Commit>, n: nat, q: Path)
    requires q != [] && n <= |log|
    ensures Replayed(start, log + more, n, q) == Replayed(start, log, n, q)
    decreases n
  {
    if n == 0 {
    } else {
      ReplayedPrefix(start, log, more, n - 1, q);
    }
  }

  /** At one path the contents change to `after`; at every other valid path they stay. */
  ghost predicate Changes(s: State, t: State, path: Path, after: Option<Bytes>) {
    forall q: Path | ValidPath(q) :: Current(t, q) == if q == path then after else Current(s, q)
  }

  /** One call's change is appended to the log at the instant it becomes visible. */
  ghost predicate Publishes(cfg: Config, s: State, t: State, i: nat, after: Option<Bytes>) {
    && Moves(s, t, i) && t.disk == s.disk && t.nextInode == s.nextInode
    && var op := s.tickets[i].op;
       && ValidPath(op.path)
       && t.log == s.log + [Commit(i, op.path, after)]
       && after == (if op.Write? then Some(op.content) else None)
       && Meets(cfg, op, Current(s, op.path))
       && Changes(s, t, op.path, after)
       && !Committed(s.tickets[i].phase) && !s.tickets[i].phase.Waiting? && Committed(t.tickets[i].phase)
  }

  lemma LogPublishes(cfg: Config, start: State, s: State, t: State, i: nat, after: Option<Bytes>)
    requires Queue(cfg, s) && Log(cfg, start, s) && Publishes(cfg, s, t, i, after)
    ensures Log(cfg, start, t)
  {
    hide Queue, Changes, LegalCommit, Meets, Current, Replayed, ValidPath, InLog, Represents;
    CommitsStayLegal(cfg, start, s, t, i, after);
    CommitsStayInOrder(cfg, start, s, t, i, after);
    CommitsMatchTickets(cfg, start, s, t, i, after);
    ContentsFollowLog(cfg, start, s, t, i, after);
    LogFromParts(cfg, start, t);
  }

  lemma LogFromParts(cfg: Config, start: State, t: State)
    requires forall k | 0 <= k < |t.log| :: LegalCommit(cfg, start, t, k)
    requires forall k, l | 0 <= k < l < |t.log| :: t.log[k].call < t.log[l].call
    requires forall k | 0 <= k < |t.tickets| :: Committed(t.tickets[k].phase) <==> InLog(t.log, k)
    requires Represents(start, t)
    ensures Log(cfg, start, t)
  {
  }

  lemma CommitsStayLegal(cfg: Config, start: State, s: State, t: State, i: nat, after: Option<Bytes>)
    requires Log(cfg, start, s) && Publishes(cfg, s, t, i, after)
    ensures forall k | 0 <= k < |t.log| :: LegalCommit(cfg, start, t, k)
  {
    hide Meets, Current, Replayed, ValidPath, Changes, InLog;
    var c := t.log[|s.log|];
    forall k | 0 <= k < |t.log| ensures LegalCommit(cfg, start, t, k) {
      if k < |s.log| { assert LegalCommit(cfg, start, s, k); }
      ReplayedPrefix(start, s.log, [c], k, t.log[k].path);
    }
  }

  lemma CommitsStayInOrder(cfg: Config, start: State, s: State, t: State, i: nat, after: Option<Bytes>)
    requires Queue(cfg, s) && Log(cfg, start, s) && Publishes(cfg, s, t, i, after)
    ensures forall k, l | 0 <= k < l < |t.log| :: t.log[k].call < t.log[l].call
  {
    hide Meets, Current, Replayed, ValidPath, Changes, GoodOp;
    forall k | 0 <= k < |s.log| ensures s.log[k].call < i {
      assert LegalCommit(cfg, start, s, k);
      var call := s.log[k].call;
      assert InLog(s.log, call);
      assert Committed(s.tickets[call].phase) && !s.tickets[call].phase.Waiting?;
    }
  }

  lemma CommitsMatchTickets(cfg: Config, start: State, s: State, t: State, i: nat, after: Option<Bytes>)
    requires Log(cfg, start, s) && Publishes(cfg, s, t, i, after)
    ensures forall k | 0 <= k < |t.tickets| :: Committed(t.tickets[k].phase) <==> InLog(t.log, k)
  {
    hide Meets, Current, Replayed, ValidPath, Changes, LegalCommit, Represents;
    forall k | 0 <= k < |t.tickets| ensures Committed(t.tickets[k].phase) <==> InLog(t.log, k) {
      assert Committed(s.tickets[k].phase) <==> InLog(s.log, k);
      assert t.log[|s.log|].call == i;
      if InLog(s.log, k) {
        var l :| 0 <= l < |s.log| && s.log[l].call == k;
        assert t.log[l].call == k;
      }
    }
  }

  lemma ContentsFollowLog(cfg: Config, start: State, s: State, t: State, i: nat, after: Option<Bytes>)
    requires Represents(start, s) && Publishes(cfg, s, t, i, after)
    ensures Represents(start, t)
  {
    hide Meets, Current, ValidPath, Moves;
    forall q: Path | ValidPath(q) ensures Current(t, q) == Replayed(start, t.log, |t.log|, q) {
      ReplayedPrefix(start, s.log, [t.log[|s.log|]], |s.log|, q);
    }
  }

  lemma ReadersPublish(cfg: Config, start: State, s: State, t: State, i: nat, after: Option<Bytes>)
    requires ReadersOk(start, s) && Publishes(cfg, s, t, i, after)
    ensures ReadersOk(start, t)
  {
    hide Meets, Current, Replayed, ValidPath, Changes, Content;
    forall j | 0 <= j < |t.readers| ensures ReaderOk(start, t, t.readers[j]) {
      var r := s.readers[j];
      assert ReaderOk(start, s, r);
      if r.phase.Fetching? || r.phase.Finished? {
        ReplayedPrefix(start, s.log, [t.log[|s.log|]], r.phase.at, r.path);
      }
    }
  }

  lemma AssemblePublished(cfg: Config, start: State, s: State, t: State, i: nat, after: Option<Bytes>)
    requires Invariant(cfg, start, s) && Publishes(cfg, s, t, i, after) && Sound(cfg, t)
    requires t.tickets[i].op.path != [] && TicketOk(cfg, t, t.tickets[i])
    ensures Invariant(cfg, start, t)
  {
    assert Moves(s, t, i);
    hide Queue, Sound, Log, ReadersOk, Moves, TicketOk, Publishes;
    QueueMoves(cfg, s, t, i);
    LogPublishes(cfg, start, s, t, i, after);
    ReadersPublish(cfg, start, s, t, i, after);
    TicketsAfterMove(cfg, s, t, i);
  }

  // ------------------------------------------------------------------ renaming

  /** The state between leaving the temporary name and taking the destination; no other call sees it. */
  function Taken(s: State, temporary: Path): State
    requires temporary != [] && HasParents(s.root, temporary)
  {
    s.(root := Remove(s.root, temporary))
  }

  lemma TakenTemporary(cfg: Config, s: State, op: Op, token: string, inode: nat)
    requires ValidPath(op.path) && Sound(cfg, s) && Ready(cfg, s, op) && Owns(s, op.path, token, inode)
    ensures var m := Taken(s, Temporary(op.path, token));
            && Sound(cfg, m) && Ready(cfg, m, op) && SameView(s, m) && HasParents(m.root, op.path)
            && (Lookup(m.root, op.path) == None || FileAt(m.root, op.path).Some?)
  {
    hide HasParents, Lookup, Remove, Passable, SameView, WellFormed, Clean, Fits, FileAt, Content, Temporary, ValidPath, AllVisible, Private;
    var p := Temporary(op.path, token);
    var m := Taken(s, p);
    TemporaryIsHidden(op.path, token);
    HiddenRemove(s, m, p);
    SoundSameView(cfg, s, m);
    PassableAfterRemove(s.root, p, s.nextInode, op.path);
    ReadySameView(cfg, s, m, op);
    ParentsAfterRemove(s.root, p, s.nextInode, op.path);
    PassableLeadsToFile(m.root, op.path);
  }

  /** The scan after the replacement: one entry changed or was added, and the quotas still hold. */
  lemma QuotasAfterPut(cfg: Config, m: State, t: State, op: Op, inode: nat)
    requires ValidPath(op.path) && Fits(Files(m.root, []), m.disk, cfg.limits) && Ready(cfg, m, op) && HasParents(m.root, op.path)
    requires Lookup(m.root, op.path) == None || FileAt(m.root, op.path).Some?
    requires t.root == Put(m.root, op.path, File(inode)) && t.disk == m.disk
    requires Content(m.disk, inode) == op.content && |op.content| <= cfg.limits.maxFileBytes
    ensures Fits(Files(t.root, []), t.disk, cfg.limits)
  {
    hide HasParents, Lookup, Put, Passable, Files, Meets, AllVisible;
    var path := op.path;
    var a, b := FilesAfterPut(m.root, path, File(inode), []);
    ValidIsVisible(path);
    var before := Listed(Lookup(m.root, path), path, []);
    var after := [FileRef(path, inode)];
    assert Listed(Some(File(inode)), path, []) == after;
    TotalConcat(a + before, b, m.disk);
    TotalConcat(a, before, m.disk);
    TotalConcat(a + after, b, m.disk);
    TotalConcat(a, after, m.disk);
    assert Total(after, m.disk) == |op.content| by { assert after[1..] == []; }
    assert Total(before, m.disk) == SizeAt(m, path) by { if before != [] { assert before[1..] == []; } }
    forall f: FileRef | f in a + after + b ensures SizeOf(m.disk, f.inode) <= cfg.limits.maxFileBytes {
      if f in a || f in b { assert f in a + before + b; }
    }
  }

  lemma ContentsAfterPut(m: State, t: State, path: Path, inode: nat)
    requires ValidPath(path) && HasParents(m.root, path) && (Lookup(m.root, path) == None || FileAt(m.root, path).Some?)
    requires t.root == Put(m.root, path, File(inode)) && t.disk == m.disk
    ensures Changes(m, t, path, Some(Content(m.disk, inode)))
  {
    hide HasParents, Lookup, Put, FileAt, ValidPath;
    forall q: Path | ValidPath(q) ensures Current(t, q) == if q == path then Some(Content(m.disk, inode)) else Current(m, q) {
      FileAtAfterPut(m.root, path, File(inode), q);
    }
  }

  lemma SoundAfterPut(cfg: Config, m: State, t: State, op: Op, inode: nat)
    requires ValidPath(op.path) && Sound(cfg, m) && Ready(cfg, m, op) && HasParents(m.root, op.path)
    requires Lookup(m.root, op.path) == None || FileAt(m.root, op.path).Some?
    requires t.root == Put(m.root, op.path, File(inode)) && t.disk == m.disk && t.nextInode == m.nextInode && inode < m.nextInode
    requires Content(m.disk, inode) == op.content && |op.content| <= cfg.limits.maxFileBytes
    ensures Sound(cfg, t)
  {
    hide HasParents, Lookup, Put, Files, FileAt, WellFormed, Clean, Fits, Ready, Content;
    QuotasAfterPut(cfg, m, t, op, inode);
    WellFormedAfterPut(m.root, op.path, File(inode), m.nextInode);
    ValidIsVisible(op.path);
    CleanAfterPut(m.root, op.path, File(inode), []);
  }

  lemma RenamingKeeps(cfg: Config, start: State, s: State, i: nat, token: string, inode: nat, io: Io)
    requires Invariant(cfg, start, s) && i < |s.tickets| && s.tickets[i].phase == Renaming(token, inode) && s.tickets[i].op.path != []
    ensures Invariant(cfg, start, StepRenaming(s, i, token, io))
    ensures io.ok ==>
              var t := StepRenaming(s, i, token, io); var op := s.tickets[i].op;
              t.tickets[i].phase.ReadingBack? && op.Write? && t.log == s.log + [Commit(i, op.path, Some(op.content))]
  {
    hide Invariant, HasParents, Lookup, Put, Remove, Ready, SameView, WellFormed, Clean, Fits, Log, Queue, FileAt, ReadersOk,
         Temporary, ValidPath, Sound, Private, Content;
    InvariantParts(cfg, start, s);
    var op := s.tickets[i].op;
    assert TicketOk(cfg, s, s.tickets[i]);
    OpIsGood(cfg, s, i);
    ReadyIsPassable(cfg, s, op);
    TakenTemporary(cfg, s, op, token, inode);
    if io.ok {
      RenamePublishes(cfg, s, i, token, inode, io);
      AssemblePublished(cfg, start, s, StepRenaming(s, i, token, io), i, Some(op.content));
    } else {
      QuietStep(cfg, start, s, i, Cleaning(token));
    }
  }

  lemma RenamePublishes(cfg: Config, s: State, i: nat, token: string, inode: nat, io: Io)
    requires i < |s.tickets| && s.tickets[i].phase == Renaming(token, inode) && io.ok
    requires var op := s.tickets[i].op;
             && GoodOp(cfg, op) && Sound(cfg, s) && Ready(cfg, s, op) && Owns(s, op.path, token, inode) && Content(s.disk, inode) == op.content
    ensures var t := StepRenaming(s, i, token, io); var op := s.tickets[i].op;
            && Publishes(cfg, s, t, i, Some(op.content)) && Sound(cfg, t) && t.tickets[i].phase.ReadingBack?
            && TicketOk(cfg, t, t.tickets[i])
  {
    hide HasParents, Lookup, Put, Remove, Ready, WellFormed, Clean, Fits, FileAt, Temporary, ValidPath, Sound, Content, Files, Meets;
    var op := s.tickets[i].op;
    var p := Temporary(op.path, token);
    var t := StepRenaming(s, i, token, io);
    ReadyIsPassable(cfg, s, op);
    TakenTemporary(cfg, s, op, token, inode);
    var m := Taken(s, p);
    ContentsAfterPut(m, t, op.path, inode);
    SoundAfterPut(cfg, m, t, op, inode);
    assert Changes(s, t, op.path, Some(op.content));
  }

  // ------------------------------------------------------------------ unlinking

  lemma UnlinkPublishes(cfg: Config, s: State, i: nat, io: Io)
    requires i < |s.tickets| && s.tickets[i].phase.Unlinking? && io.ok
    requires var op := s.tickets[i].op;
             && GoodOp(cfg, op) && op.Delete? && Sound(cfg, s) && Meets(cfg, op, Current(s, op.path))
    ensures var t := StepUnlinking(s, i, io);
            && Publishes(cfg, s, t, i, None) && Sound(cfg, t) && t.tickets[i].phase == Done(Success(()), true)
  {
    hide HasParents, Lookup, Remove, WellFormed, Clean, Fits, FileAt, ValidPath, Content, Files, Resolve;
    var path := s.tickets[i].op.path;
    ResolveMeaning(s.root, path);
    FileHasParents(s.root, path);
    var t := StepUnlinking(s, i, io);
    WellFormedAfterRemove(s.root, path, s.nextInode);
    CleanAfterRemove(s.root, path, []);
    QuotasAfterRemove(cfg, s, t, path);
    forall q: Path | ValidPath(q) ensures Current(t, q) == if q == path then None else Current(s, q) {
      FileAtAfterRemove(s.root, path, s.nextInode, q);
    }
  }

  lemma QuotasAfterRemove(cfg: Config, s: State, t: State, path: Path)
    requires path != [] && HasParents(s.root, path) && FileAt(s.root, path).Some?
    requires Fits(Files(s.root, []), s.disk, cfg.limits) && t.root == Remove(s.root, path) && t.disk == s.disk
    ensures Fits(Files(t.root, []), t.disk, cfg.limits)
  {
    hide HasParents, Lookup, Remove, FileAt, Files, Listed;
    var a, b := FilesAfterRemove(s.root, path, []);
    var listed := Listed(Lookup(s.root, path), path, []);
    TotalConcat(a + listed, b, s.disk);
    TotalConcat(a, listed, s.disk);
    TotalConcat(a, b, s.disk);
    forall f: FileRef | f in a + b ensures SizeOf(s.disk, f.inode) <= cfg.limits.maxFileBytes {
      assert f in a + listed + b;
    }
  }

  lemma UnlinkingKeeps(cfg: Config, start: State, s: State, i: nat, io: Io)
    requires Invariant(cfg, start, s) && i < |s.tickets| && s.tickets[i].phase.Unlinking? && s.tickets[i].op.path != []
    ensures Invariant(cfg, start, StepUnlinking(s, i, io))
  {
    hide Invariant, HasParents, Remove, Meets, Log, Queue, ReadersOk, Sound, Current, Resolve, ValidPath, Publishes;
    InvariantParts(cfg, start, s);
    OpIsGood(cfg, s, i);
    assert TicketOk(cfg, s, s.tickets[i]);
    if io.ok {
      UnlinkPublishes(cfg, s, i, io);
      AssemblePublished(cfg, start, s, StepUnlinking(s, i, io), i, None);
    } else {
      FailStep(cfg, start, s, i, StepUnlinking(s, i, io).tickets[i].phase.outcome.error);
    }
  }

  lemma TicketKeeps(cfg: Config, start: State, s: State, i: nat, io: Io)
    requires Invariant(cfg, start, s) && i < |s.tickets| && s.tickets[i].op.path != []
    ensures Invariant(cfg, start, StepTicket(cfg, s, i, io))
  {
    hide Invariant, Ready, Owns, Meets, Passable, Current, HasParents, Content, StepReading, StepScanning, StepMaking, StepOpening, StepFilling,
         StepRenaming, StepCleaning, StepReadingBack, StepUnlinking, Queue, Sound, Log, ReadersOk;
    InvariantParts(cfg, start, s);
    var t := s.tickets[i];
    assert TicketOk(cfg, s, t);
    match t.phase {
      case Waiting => if Released(s, t.waitsFor) { QuietStep(cfg, start, s, i, Reading); }
      case Reading => ReadingKeeps(cfg, start, s, i, io);
      case Scanning(existing) => ScanningKeeps(cfg, start, s, i, existing, io);
      case Making(depth) => MakingKeeps(cfg, start, s, i, depth, io);
      case Opening => OpeningKeeps(cfg, start, s, i, io);
      case Filling(token, inode) => if t.op.Write? { FillingKeeps(cfg, start, s, i, token, inode, io); }
      case Syncing(token, inode) => SyncingKeeps(cfg, start, s, i, token, inode, io);
      case Renaming(token, inode) => RenamingKeeps(cfg, start, s, i, token, inode, io);
      case Cleaning(token) => CleaningKeeps(cfg, start, s, i, token, io);
      case ReadingBack => ReadingBackKeeps(cfg, start, s, i, io);
      case Unlinking => UnlinkingKeeps(cfg, start, s, i, io);
      case Done(_, _) =>
    }
  }
}
