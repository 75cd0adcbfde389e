/** New calls, unlocked reads and whole runs of the workspace store keep the invariant. */
module WorkspaceRuns {
  import opened Wrappers
  import opened WorkspacePath
  import opened WorkspaceTree
  import opened WorkspaceScan
  import opened WorkspaceStore
  import opened WorkspaceInvariant
  import opened WorkspaceSteps
  import opened WorkspaceCommits

  // ----------------------------------------------------------------- new calls

  lemma AdmittedIsGood(cfg: Config, e: Event)
    ensures e.CallWrite? ==>
              var r := AdmitWrite(cfg, e.value, e.content, e.condition);
              r.Success? ==> GoodOp(cfg, r.value)
    ensures e.CallDelete? ==>
              var r := AdmitDelete(e.value, e.etag);
              r.Success? ==> GoodOp(cfg, r.value)
  {
    hide ValidateWorkspacePath, ValidPath;
    if e.CallWrite? && ValidateWorkspacePath(e.value).Success? { AcceptedIffValid(e.value, ValidateWorkspacePath(e.value).value); }
    if e.CallDelete? && ValidateWorkspacePath(e.value).Success? { AcceptedIffValid(e.value, ValidateWorkspacePath(e.value).value); }
  }

  lemma EnqueueKeeps(cfg: Config, start: State, s: State, op: Op)
    requires Invariant(cfg, start, s) && GoodOp(cfg, op)
    ensures Invariant(cfg, start, Enqueue(s, op))
  {
    hide Files, FileAt, Replayed, Meets, Current, Content, Passable, Clean, WellFormed, Fits, ValidPath, TicketOk, Represents, InLog, ReaderOk;
    var t := Enqueue(s, op);
    InvariantParts(cfg, start, s);
    QueueGrows(cfg, s, op);
    LogSeesNewTicket(cfg, start, s, t);
    forall j | 0 <= j < |t.readers| ensures ReaderOk(start, t, t.readers[j]) {
      ReaderElsewhere(start, s, t, t.readers[j]);
    }
    forall i | 0 <= i < |t.tickets| ensures TicketOk(cfg, t, t.tickets[i]) {
      if i < |s.tickets| { SameFilesSameTicket(cfg, s, t, s.tickets[i]); } else { IdleTicketOk(cfg, t, t.tickets[i]); }
    }
  }

  lemma QueueGrows(cfg: Config, s: State, op: Op)
    requires Queue(cfg, s) && GoodOp(cfg, op)
    ensures Queue(cfg, Enqueue(s, op))
  {
    hide GoodOp;
  }

  lemma LogSeesNewTicket(cfg: Config, start: State, s: State, t: State)
    requires Log(cfg, start, s) && t.root == s.root && t.disk == s.disk && t.log == s.log
    requires |t.tickets| == |s.tickets| + 1 && t.tickets[..|s.tickets|] == s.tickets && t.tickets[|s.tickets|].phase.Waiting?
    ensures Log(cfg, start, t)
  {
    hide FileAt, Replayed, Meets, Content, ValidPath, Represents;
    forall k | 0 <= k < |t.log| ensures LegalCommit(cfg, start, t, k) {
      assert LegalCommit(cfg, start, s, k);
      var c := s.log[k];
      assert t.tickets[..|s.tickets|][c.call] == t.tickets[c.call];
    }
    assert forall k | 0 <= k < |t.log| :: t.log[k].call < |s.tickets| by {
      forall k | 0 <= k < |t.log| ensures t.log[k].call < |s.tickets| { assert LegalCommit(cfg, start, s, k); }
    }
    forall i | 0 <= i < |t.tickets| ensures Committed(t.tickets[i].phase) <==> InLog(t.log, i) {
      if i < |s.tickets| {
        assert t.tickets[..|s.tickets|][i] == t.tickets[i];
        assert Committed(s.tickets[i].phase) <==> InLog(s.log, i);
      }
    }
    SameContents(start, s, t);
  }

  lemma SameContents(start: State, s: State, t: State)
    requires t.root == s.root && t.disk == s.disk && t.log == s.log && Represents(start, s)
    ensures Represents(start, t)
  {
    hide FileAt, Replayed, ValidPath, Content;
    forall q: Path | ValidPath(q) ensures Current(t, q) == Replayed(start, t.log, |t.log|, q) {
      assert Current(s, q) == Replayed(start, s.log, |s.log|, q);
    }
  }

  lemma ReaderElsewhere(start: State, s: State, t: State, r: Reader)
    requires ReaderOk(start, s, r) && t.disk == s.disk && t.nextInode == s.nextInode && t.log == s.log
    ensures ReaderOk(start, t, r)
  {
    hide Replayed, ValidPath, Content;
  }

  // ------------------------------------------------------------ unlocked reads

  /** Only the readers differ, and what they have open are files of valid paths or files that were open before. */
  ghost predicate OnlyReaders(s: State, t: State) {
    && t == s.(readers := t.readers)
    && forall j | 0 <= j < |t.readers| && t.readers[j].phase.Fetching? ::
         || (j < |s.readers| && s.readers[j].phase.Fetching? && s.readers[j].phase.inode == t.readers[j].phase.inode)
         || (ValidPath(t.readers[j].path) && FileAt(s.root, t.readers[j].path) == Some(t.readers[j].phase.inode))
  }

  lemma PrivateFromReaders(s: State, t: State, inode: nat)
    requires OnlyReaders(s, t) && Private(s, inode)
    ensures Private(t, inode)
  {
    hide FileAt, Files, ValidPath;
  }

  lemma TicketBesideReaders(cfg: Config, s: State, t: State, ticket: Ticket)
    requires OnlyReaders(s, t) && ticket.op.path != [] && TicketOk(cfg, s, ticket)
    ensures TicketOk(cfg, t, ticket)
  {
    hide FileAt, Files, ValidPath, Content, Meets, Passable, HasParents, Private, Temporary, OnlyReaders;
    assert t == s.(readers := t.readers) by { OnlyReadersDiffer(s, t); }
    assert forall q: Path | q != [] :: Current(t, q) == Current(s, q);
    if ticket.phase.Filling? || ticket.phase.Syncing? || ticket.phase.Renaming? {
      PrivateFromReaders(s, t, ticket.phase.inode);
    }
  }

  lemma OnlyReadersDiffer(s: State, t: State)
    requires OnlyReaders(s, t)
    ensures t == s.(readers := t.readers)
  {
  }

  lemma AssembleReaders(cfg: Config, start: State, s: State, t: State)
    requires Invariant(cfg, start, s) && OnlyReaders(s, t) && ReadersOk(start, t)
    ensures Invariant(cfg, start, t)
  {
    hide FileAt, Files, Replayed, ValidPath, Content, Meets, Clean, WellFormed, Fits, TicketOk, ReaderOk, Represents, InLog, OnlyReaders;
    OnlyReadersDiffer(s, t);
    InvariantParts(cfg, start, s);
    SameContents(start, s, t);
    assert Log(cfg, start, t) by {
      forall k | 0 <= k < |t.log| ensures LegalCommit(cfg, start, t, k) { assert LegalCommit(cfg, start, s, k); }
    }
    forall i | 0 <= i < |t.tickets| ensures t.tickets[i].op.path != [] && TicketOk(cfg, t, t.tickets[i]) {
      TicketBesideReaders(cfg, s, t, s.tickets[i]);
    }
  }

  lemma ReaderKeeps(cfg: Config, start: State, s: State, j: nat, io: Io, size: nat)
    requires Invariant(cfg, start, s) && j < |s.readers| && s.readers[j].path != []
    ensures Invariant(cfg, start, StepReader(cfg, s, j, io, size))
  {
    hide Invariant, ReaderOk, OnlyReaders, StepReader;
    InvariantParts(cfg, start, s);
    assert ReaderOk(start, s, s.readers[j]);
    var t := StepReader(cfg, s, j, io, size);
    ReaderMoves(cfg, start, s, j, io, size);
    OnlyReadersDiffer(s, t);
    forall k | 0 <= k < |t.readers| ensures ReaderOk(start, t, t.readers[k]) {
      if k != j {
        assert ReaderOk(start, s, s.readers[k]);
        ReaderElsewhere(start, s, t, s.readers[k]);
      }
    }
    AssembleReaders(cfg, start, s, t);
  }

  /** What one step of reader `j` may do. */
  ghost predicate Reads(start: State, s: State, t: State, j: nat) {
    && OnlyReaders(s, t) && j < |t.readers| == |s.readers| && ReaderOk(start, t, t.readers[j])
    && forall k | 0 <= k < |s.readers| && k != j :: t.readers[k] == s.readers[k]
  }

  lemma ReaderMoves(cfg: Config, start: State, s: State, j: nat, io: Io, size: nat)
    requires Represents(start, s) && WellFormed(s.root, s.nextInode)
    requires j < |s.readers| && s.readers[j].path != [] && ReaderOk(start, s, s.readers[j])
    ensures Reads(start, s, StepReader(cfg, s, j, io, size), j)
  {
    hide Lookup, FileAt, Replayed, ValidPath, WellFormed, StepFetching, StepResolving, Content;
    var r := s.readers[j];
    assert Current(s, r.path) == Replayed(start, s.log, |s.log|, r.path);
    if r.phase.Resolving? && io.ok {
      ResolvingMoves(start, s, j);
    } else if r.phase.OpeningFile? && FileAt(s.root, r.path).Some? {
      InodeBelow(s.root, r.path, s.nextInode);
    } else if r.phase.Fetching? && io.ok {
      FetchingMoves(cfg, start, s, j, size);
    }
  }

  lemma ResolvingMoves(start: State, s: State, j: nat)
    requires Represents(start, s)
    requires j < |s.readers| && s.readers[j].phase.Resolving? && s.readers[j].path != [] && ReaderOk(start, s, s.readers[j])
    ensures Reads(start, s, StepResolving(s, j, s.readers[j].phase.depth), j)
  {
    hide Lookup, FileAt, Replayed, ValidPath, Content;
    var r := s.readers[j];
    var depth := r.phase.depth;
    assert Current(s, r.path) == Replayed(start, s.log, |s.log|, r.path);
    if Lookup(s.root, r.path[..depth + 1]) == None {
      MissingBelow(s.root, r.path, depth + 1);
      MissingIsNoFile(s.root, r.path);
    }
  }

  lemma FetchingMoves(cfg: Config, start: State, s: State, j: nat, size: nat)
    requires j < |s.readers| && s.readers[j].phase.Fetching? && s.readers[j].path != [] && ReaderOk(start, s, s.readers[j])
    ensures Reads(start, s, StepFetching(cfg, s, j, size), j)
  {
    hide Lookup, FileAt, Replayed, ValidPath, Content;
    var version, got := s.readers[j].phase.version, s.readers[j].phase.got;
    if |got| < |version| {
      var until := Min(|version|, |got| + 1 + size);
      assert got + version[|got|..until] == version[..until];
    } else {
      assert got == version;
    }
  }

  lemma CallReadKeeps(cfg: Config, start: State, s: State, path: Path)
    requires Invariant(cfg, start, s) && ValidPath(path)
    ensures Invariant(cfg, start, s.(readers := s.readers + [Reader(path, |s.log|, Resolving(0))]))
  {
    hide Invariant, FileAt, Replayed, Content, ValidPath;
    InvariantParts(cfg, start, s);
    var t := s.(readers := s.readers + [Reader(path, |s.log|, Resolving(0))]);
    forall k | 0 <= k < |t.readers| ensures ReaderOk(start, t, t.readers[k]) {
      if k < |s.readers| { assert ReaderOk(start, s, s.readers[k]); }
    }
    AssembleReaders(cfg, start, s, t);
  }

  // --------------------------------------------------------------------- runs

  lemma StepKeeps(cfg: Config, start: State, s: State, e: Event)
    requires Invariant(cfg, start, s)
    ensures Invariant(cfg, start, Step(cfg, s, e))
  {
    hide Invariant, StepTicket, StepReader, ValidateWorkspacePath, AdmitWrite, AdmitDelete, GoodOp, Enqueue;
    AdmittedIsGood(cfg, e);
    match e {
      case CallWrite(value, content, condition) =>
        var r := AdmitWrite(cfg, value, content, condition);
        if r.Success? { EnqueueKeeps(cfg, start, s, r.value); }
      case CallDelete(value, etag) =>
        var r := AdmitDelete(value, etag);
        if r.Success? { EnqueueKeeps(cfg, start, s, r.value); }
      case Advance(i, io) => if i < |s.tickets| && s.tickets[i].op.path != [] { TicketKeeps(cfg, start, s, i, io); }
      case CallRead(value) =>
        var r := ValidateWorkspacePath(value);
        if r.Success? {
          AcceptedIffValid(value, r.value);
          CallReadKeeps(cfg, start, s, r.value);
        }
      case Poll(j, io, size) => if j < |s.readers| && s.readers[j].path != [] { ReaderKeeps(cfg, start, s, j, io, size); }
    }
  }

  /** A directory the store can be opened on: its own entries are sound and the scan of it succeeds. */
  ghost predicate Usable(cfg: Config, start: State) {
    && start == Fresh(start.root, start.disk, start.nextInode)
    && WellFormed(start.root, start.nextInode)
    && Scan(start.root, start.disk, cfg.limits).Success?
  }

  lemma {:induction false} InvariantOfRun(cfg: Config, start: State, events: seq<Event>)
    requires Usable(cfg, start)
    ensures Invariant(cfg, start, Run(cfg, start, events))
    decreases |events|
  {
    hide Step, Scan, Files, Clean, Fits, WellFormed, Current, FileAt;
    if events == [] {
      ScanIff(start.root, start.disk, cfg.limits);
    } else {
      InvariantOfRun(cfg, start, events[..|events| - 1]);
      StepKeeps(cfg, start, Run(cfg, start, events[..|events| - 1]), events[|events| - 1]);
    }
  }
}
