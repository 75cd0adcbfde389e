/** What every step of the workspace store keeps, and the proof that it does. */
module WorkspaceInvariant {
  import opened Wrappers
  import opened WorkspacePath
  import opened WorkspaceTree
  import opened WorkspaceScan
  import opened WorkspaceStore

  // --------------------------------------------------------------- invariant

  predicate GoodOp(cfg: Config, op: Op) {
    ValidPath(op.path) && (op.Write? ==> |op.content| <= cfg.limits.maxFileBytes)
  }

  /** The lock is a chain in call order, and only the first unfinished call may have begun. */
  predicate Queue(cfg: Config, s: State) {
    && s.mutationTail == (if s.tickets == [] then None else Some(|s.tickets| - 1))
    && (forall i | 0 <= i < |s.tickets| :: s.tickets[i].waitsFor == if i == 0 then None else Some(i - 1))
    && (forall i, j | 0 <= i < j < |s.tickets| :: !s.tickets[j].phase.Waiting? ==> s.tickets[i].phase.Done?)
    && (forall i | 0 <= i < |s.tickets| :: GoodOp(cfg, s.tickets[i].op))
  }

  /** Names are unique, inodes were handed out, and the scan would succeed. */
  ghost predicate Sound(cfg: Config, s: State) {
    && WellFormed(s.root, s.nextInode)
    && Clean(s.root, [])
    && Fits(Files(s.root, []), s.disk, cfg.limits)
  }

  predicate Committed(phase: Phase) {
    phase.ReadingBack? || (phase.Done? && phase.committed)
  }

  /** The commit is a legal compare-and-swap on what its path held just before. */
  predicate LegalCommit(cfg: Config, start: State, s: State, k: nat)
    requires k < |s.log|
  {
    var c := s.log[k];
    && c.call < |s.tickets|
    && var op := s.tickets[c.call].op;
       && op.path == c.path && c.path != []
       && Meets(cfg, op, Replayed(start, s.log, k, c.path))
       && c.after == (if op.Write? then Some(op.content) else None)
  }

  /** The visible contents are the commits applied in order to the initial contents. */
  ghost predicate Represents(start: State, s: State) {
    forall q: Path | ValidPath(q) :: Current(s, q) == Replayed(start, s.log, |s.log|, q)
  }

  predicate InLog(log: seq<Commit>, call: nat) {
    exists k | 0 <= k < |log| :: log[k].call == call
  }

  ghost predicate Log(cfg: Config, start: State, s: State) {
    && (forall k | 0 <= k < |s.log| :: LegalCommit(cfg, start, s, k))
    && (forall k, l | 0 <= k < l < |s.log| :: s.log[k].call < s.log[l].call)
    && (forall i | 0 <= i < |s.tickets| :: Committed(s.tickets[i].phase) <==> InLog(s.log, i))
    && Represents(start, s)
  }

  ghost predicate ReaderOk(start: State, s: State, r: Reader) {
    && ValidPath(r.path) && r.began <= |s.log|
    && match r.phase
       case Resolving(depth) => depth < |r.path|
       case OpeningFile => true
       case Fetching(inode, got, version, at) =>
         && inode < s.nextInode && Content(s.disk, inode) == version && got <= version
         && r.began <= at <= |s.log| && Replayed(start, s.log, at, r.path) == Some(version)
       case Finished(outcome, at) =>
         && r.began <= at <= |s.log|
         && (outcome.Success? ==> Replayed(start, s.log, at, r.path) == Some(outcome.value))
         && (outcome == Failure(FileNotFound) ==> Replayed(start, s.log, at, r.path) == None)
  }

  ghost predicate ReadersOk(start: State, s: State) {
    forall j | 0 <= j < |s.readers| :: ReaderOk(start, s, s.readers[j])
  }

  function SizeAt(s: State, path: Path): nat
    requires path != []
  {
    if Current(s, path).Some? then |Current(s, path).value| else 0
  }

  /** The quotas allow the write. */
  predicate Room(cfg: Config, s: State, op: Op)
    requires op.Write? && op.path != []
  {
    var files := Files(s.root, []);
    && (Current(s, op.path).None? ==> |files| < cfg.limits.maxEntries)
    && Total(files, s.disk) - SizeAt(s, op.path) + |op.content| <= cfg.limits.maxWorkspaceBytes
  }

  predicate Ready(cfg: Config, s: State, op: Op)
    requires op.path != []
  {
    op.Write? && Meets(cfg, op, Current(s, op.path)) && Passable(s.root, op.path) && Room(cfg, s, op)
  }

  /** The inode is one that no visible path and no reader refers to. */
  ghost predicate Private(s: State, inode: nat) {
    && inode < s.nextInode
    && (forall f | f in Files(s.root, []) :: f.inode != inode)
    && (forall q: Path | ValidPath(q) :: FileAt(s.root, q) != Some(inode))
    && (forall j | 0 <= j < |s.readers| :: s.readers[j].phase.Fetching? ==> s.readers[j].phase.inode != inode)
  }

  ghost predicate Owns(s: State, path: Path, token: string, inode: nat)
    requires path != []
  {
    && HasParents(s.root, path) && HasParents(s.root, Temporary(path, token))
    && FileAt(s.root, Temporary(path, token)) == Some(inode)
    && Private(s, inode)
  }

  /** What the call that holds the lock knows where it waits. */
  ghost predicate TicketOk(cfg: Config, s: State, t: Ticket)
    requires t.op.path != []
  {
    match t.phase
    case Waiting => true
    case Reading => true
    case Scanning(existing) =>
      t.op.Write? && existing == Current(s, t.op.path) && Meets(cfg, t.op, existing) && Passable(s.root, t.op.path)
    case Making(depth) => Ready(cfg, s, t.op) && depth + 1 < |t.op.path| && HasParents(s.root, t.op.path[..depth + 1])
    case Opening => Ready(cfg, s, t.op) && HasParents(s.root, t.op.path)
    case Filling(token, inode) => Ready(cfg, s, t.op) && Owns(s, t.op.path, token, inode)
    case Syncing(token, inode) => Ready(cfg, s, t.op) && Owns(s, t.op.path, token, inode) && Content(s.disk, inode) == t.op.content
    case Renaming(token, inode) => Ready(cfg, s, t.op) && Owns(s, t.op.path, token, inode) && Content(s.disk, inode) == t.op.content
    case Cleaning(_) => t.op.Write?
    case ReadingBack => t.op.Write? && Current(s, t.op.path) == Some(t.op.content)
    case Unlinking => t.op.Delete? && Meets(cfg, t.op, Current(s, t.op.path))
    case Done(_, _) => true
  }

  ghost predicate Invariant(cfg: Config, start: State, s: State) {
    && Queue(cfg, s) && Sound(cfg, s) && Log(cfg, start, s) && ReadersOk(start, s)
    && forall i | 0 <= i < |s.tickets| :: TicketOk(cfg, s, s.tickets[i])
  }

  // --------------------------------------------- steps that nobody can see

  /** Nothing visible differs: same files, same contents, same readers. */
  ghost predicate SameView(s: State, t: State) {
    && t.log == s.log && t.readers == s.readers && s.nextInode <= t.nextInode
    && Files(t.root, []) == Files(s.root, [])
    && (forall f | f in Files(s.root, []) :: SizeOf(t.disk, f.inode) == SizeOf(s.disk, f.inode))
    && (forall q: Path | ValidPath(q) :: FileAt(t.root, q) == FileAt(s.root, q) && Current(t, q) == Current(s, q))
    && (forall j | 0 <= j < |s.readers| :: s.readers[j].phase.Fetching? ==>
          Content(t.disk, s.readers[j].phase.inode) == Content(s.disk, s.readers[j].phase.inode))
  }

  /** One call moves on; the lock and the readers stay as they are. */
  predicate Moves(s: State, t: State, i: nat) {
    && i < |s.tickets| && |t.tickets| == |s.tickets|
    && t.tickets == s.tickets[i := s.tickets[i].(phase := t.tickets[i].phase)]
    && t.mutationTail == s.mutationTail && t.readers == s.readers
    && !s.tickets[i].phase.Done? && !t.tickets[i].phase.Waiting?
    && (s.tickets[i].phase.Waiting? ==> Released(s, s.tickets[i].waitsFor))
  }

  lemma QueueMoves(cfg: Config, s: State, t: State, i: nat)
    requires Queue(cfg, s) && Moves(s, t, i)
    ensures Queue(cfg, t)
  {
    hide GoodOp;
    forall j, k | 0 <= j < k < |t.tickets| && !t.tickets[k].phase.Waiting? ensures t.tickets[j].phase.Done? {
      if k == i && s.tickets[i].phase.Waiting? {
        assert s.tickets[i].waitsFor == Some(i - 1) && s.tickets[i - 1].phase.Done?;
        assert s.tickets[j].phase.Done?;
      } else {
        assert !s.tickets[k].phase.Waiting?;
        assert s.tickets[j].phase.Done?;
      }
      assert t.tickets[j] == s.tickets[j];
    }
  }

  lemma SoundSameView(cfg: Config, s: State, t: State)
    requires Sound(cfg, s) && SameView(s, t) && WellFormed(t.root, t.nextInode) && Clean(t.root, [])
    ensures Sound(cfg, t) && Total(Files(t.root, []), t.disk) == Total(Files(s.root, []), s.disk)
  {
    hide WellFormed, Clean, Files, FileAt, Replayed, Current, Content;
    TotalDependsOnFiles(Files(s.root, []), s.disk, t.disk);
  }

  lemma LogSameView(cfg: Config, start: State, s: State, t: State, i: nat)
    requires Log(cfg, start, s) && SameView(s, t) && Moves(s, t, i)
    requires Committed(t.tickets[i].phase) <==> Committed(s.tickets[i].phase)
    ensures Log(cfg, start, t)
  {
    hide Files, FileAt, Replayed, Current, Content, SizeOf, Meets, InLog;
    forall k | 0 <= k < |t.log| ensures LegalCommit(cfg, start, t, k) {
      assert LegalCommit(cfg, start, s, k);
    }
    forall k | 0 <= k < |t.tickets| ensures Committed(t.tickets[k].phase) <==> InLog(t.log, k) {
      assert Committed(s.tickets[k].phase) <==> InLog(s.log, k);
    }
  }

  lemma ReadersSameView(start: State, s: State, t: State)
    requires ReadersOk(start, s) && SameView(s, t)
    ensures ReadersOk(start, t)
  {
    hide Files, FileAt, Replayed, Current, Content, SizeOf, ValidPath;
    forall j | 0 <= j < |t.readers| ensures ReaderOk(start, t, t.readers[j]) {
      assert ReaderOk(start, s, s.readers[j]);
    }
  }

  lemma IdleTicketOk(cfg: Config, s: State, t: Ticket)
    requires t.op.path != [] && (t.phase.Waiting? || t.phase.Done?)
    ensures TicketOk(cfg, s, t)
  {
  }

  lemma TicketsAfterMove(cfg: Config, s: State, t: State, i: nat)
    requires Queue(cfg, s) && Queue(cfg, t) && Moves(s, t, i)
    requires t.tickets[i].op.path != [] && TicketOk(cfg, t, t.tickets[i])
    ensures forall k | 0 <= k < |t.tickets| :: t.tickets[k].op.path != [] && TicketOk(cfg, t, t.tickets[k])
  {
    hide TicketOk, ValidPath;
    forall k | 0 <= k < |t.tickets| ensures t.tickets[k].op.path != [] && TicketOk(cfg, t, t.tickets[k]) {
      assert GoodOp(cfg, t.tickets[k].op);
      if k < i {
        assert t.tickets[k].phase.Done?;
      } else if k > i {
        assert s.tickets[k].phase.Waiting?;
      }
      if k != i { IdleTicketOk(cfg, t, t.tickets[k]); }
    }
  }
}
