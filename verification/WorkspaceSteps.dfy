/** The workspace store, step by step: each step keeps the invariant. */
module WorkspaceSteps {
  import opened Wrappers
  import opened WorkspacePath
  import opened WorkspaceTree
  import opened WorkspaceScan
  import opened WorkspaceStore
  import opened WorkspaceInvariant

  // ----------------------------------------------------------- putting together

  /** A step of the lock holder that nobody can see. */
  lemma Assemble(cfg: Config, start: State, s: State, t: State, i: nat)
    requires Invariant(cfg, start, s) && SameView(s, t) && Moves(s, t, i)
    requires WellFormed(t.root, t.nextInode) && Clean(t.root, [])
    requires Committed(t.tickets[i].phase) <==> Committed(s.tickets[i].phase)
    requires t.tickets[i].op.path != [] && TicketOk(cfg, t, t.tickets[i])
    ensures Invariant(cfg, start, t)
  {
    hide Queue, Sound, Log, ReadersOk, SameView, Moves, WellFormed, Clean, TicketOk, Committed;
    QueueMoves(cfg, s, t, i);
    SoundSameView(cfg, s, t);
    LogSameView(cfg, start, s, t, i);
    ReadersSameView(start, s, t);
    TicketsAfterMove(cfg, s, t, i);
  }

  /** A step that touches no file. */
  lemma QuietStep(cfg: Config, start: State, s: State, i: nat, phase: Phase)
    requires Invariant(cfg, start, s) && i < |s.tickets|
    requires !s.tickets[i].phase.Done? && !phase.Waiting?
    requires s.tickets[i].phase.Waiting? ==> Released(s, s.tickets[i].waitsFor)
    requires Committed(phase) <==> Committed(s.tickets[i].phase)
    requires s.tickets[i].op.path != [] && TicketOk(cfg, s, s.tickets[i].(phase := phase))
    ensures Invariant(cfg, start, AtPhase(s, i, phase))
  {
    hide Queue, Log, ReadersOk, Files, FileAt, Meets, Passable, Ready, Content, WellFormed, Clean, HasParents, Invariant;
    var t := AtPhase(s, i, phase);
    assert SameView(s, t);
    SameFilesSameTicket(cfg, s, t, s.tickets[i].(phase := phase));
    InvariantParts(cfg, start, s);
    Assemble(cfg, start, s, t, i);
  }

  lemma InvariantParts(cfg: Config, start: State, s: State)
    requires Invariant(cfg, start, s)
    ensures Queue(cfg, s) && Sound(cfg, s) && Log(cfg, start, s) && ReadersOk(start, s)
    ensures forall i | 0 <= i < |s.tickets| :: s.tickets[i].op.path != [] && TicketOk(cfg, s, s.tickets[i])
  {
  }

  lemma SameFilesSameTicket(cfg: Config, s: State, t: State, ticket: Ticket)
    requires s.root == t.root && s.disk == t.disk && s.nextInode == t.nextInode && s.readers == t.readers
    requires ticket.op.path != [] && TicketOk(cfg, s, ticket)
    ensures TicketOk(cfg, t, ticket)
  {
    hide Files, FileAt, Meets, Passable, Content, HasParents;
    assert forall q: Path | q != [] :: Current(t, q) == Current(s, q);
  }

  /** The call gives up before it changed anything. */
  lemma FailStep(cfg: Config, start: State, s: State, i: nat, error: StoreError)
    requires Invariant(cfg, start, s) && i < |s.tickets|
    requires !s.tickets[i].phase.Done? && !s.tickets[i].phase.Waiting? && !Committed(s.tickets[i].phase)
    ensures Invariant(cfg, start, Fail(s, i, error))
  {
    hide Invariant;
    InvariantParts(cfg, start, s);
    QuietStep(cfg, start, s, i, Done(Failure(error), false));
  }

  // ------------------------------------------------------------------ reading

  /** Resolving finds the file, finds it missing, or finds something in the way. */
  lemma {:induction false} ResolveMeaning(es: seq<Entry>, path: Path)
    requires path != []
    ensures Resolve(es, path).Success? <==> FileAt(es, path).Some?
    ensures Resolve(es, path).Success? ==> FileAt(es, path) == Some(Resolve(es, path).value)
    ensures Resolve(es, path) == Failure(FileNotFound) || Resolve(es, path).Success? <==> Passable(es, path)
    decreases |path|
  {
    hide Find;
    var i := Find(es, path[0]);
    if i < 0 || |path| == 1 || !es[i].node.Dir? {
    } else {
      ResolveMeaning(es[i].node.entries, path[1..]);
    }
  }

  lemma ReadMeaning(cfg: Config, s: State, path: Path)
    requires path != [] && ReadIfExists(cfg, s, path).Success?
    ensures ReadIfExists(cfg, s, path).value == Current(s, path) && Passable(s.root, path)
  {
    ResolveMeaning(s.root, path);
  }

  lemma ReadingKeeps(cfg: Config, start: State, s: State, i: nat, io: Io)
    requires Invariant(cfg, start, s) && i < |s.tickets| && s.tickets[i].phase.Reading? && s.tickets[i].op.path != []
    ensures Invariant(cfg, start, StepReading(cfg, s, i, io))
  {
    hide Invariant, ReadIfExists, Meets, Current, Passable;
    var op := s.tickets[i].op;
    var r := ReadIfExists(cfg, s, op.path);
    if io.ok && r.Success? && Meets(cfg, op, r.value) {
      ReadMeaning(cfg, s, op.path);
      QuietStep(cfg, start, s, i, if op.Write? then Scanning(r.value) else Unlinking);
    } else {
      FailStep(cfg, start, s, i, if !io.ok then IoFailure else if r.Failure? then r.error else PreconditionFailed);
    }
  }

  // ------------------------------------------------------------------ scanning

  lemma ScanningKeeps(cfg: Config, start: State, s: State, i: nat, existing: Option<Bytes>, io: Io)
    requires Invariant(cfg, start, s) && i < |s.tickets| && s.tickets[i].phase == Scanning(existing)
    requires s.tickets[i].op.Write? && s.tickets[i].op.path != []
    ensures Invariant(cfg, start, StepScanning(cfg, s, i, existing, io))
  {
    hide Invariant, Meets, Current, Passable, Scan, Files, HasParents;
    var op := s.tickets[i].op;
    ScanIff(s.root, s.disk, cfg.limits);
    InvariantParts(cfg, start, s);
    assert TicketOk(cfg, s, s.tickets[i]);
    var t := StepScanning(cfg, s, i, existing, io);
    var phase := t.tickets[i].phase;
    assert t == AtPhase(s, i, phase);
    if phase.Done? {
    } else {
      assert phase == NextParent(op.path, 0);
      assert Ready(cfg, s, op);
      FirstParent(s.root, op.path);
    }
    QuietStep(cfg, start, s, i, phase);
  }

  lemma FirstParent(es: seq<Entry>, path: Path)
    requires path != []
    ensures HasParents(es, path[..1]) && (|path| == 1 ==> HasParents(es, path))
  {
  }

  // ------------------------------------------------------- changes out of sight

  lemma TemporaryIsHidden(path: Path, token: string)
    requires path != []
    ensures !AllVisible(Temporary(path, token)) && !ValidPath(Temporary(path, token)) && Temporary(path, token) != []
    ensures |Temporary(path, token)| == |path|
  {
    var t := Temporary(path, token);
    var name := WRITE_PREFIX + token;
    assert t[|path| - 1] == name;
    assert name[..|WRITE_PREFIX|] == WRITE_PREFIX;
    assert StartsWith(name, WRITE_PREFIX);
    assert !Visible(t[|path| - 1]);
    assert !GoodName(t[|path| - 1]);
  }

  lemma ValidIsVisible(path: Path)
    requires ValidPath(path)
    ensures AllVisible(path) && [] + path == path
  {
    forall i | 0 <= i < |path| ensures Visible(path[i]) {
      assert GoodName(path[i]);
    }
  }

  /** A new empty directory on a valid way, or a new hidden file, shows nowhere. */
  lemma HiddenPut(s: State, t: State, p: Path, node: Node)
    requires p != [] && HasParents(s.root, p) && Lookup(s.root, p) == None
    requires (node == Dir([]) && ValidPath(p)) || (node == File(s.nextInode) && !AllVisible(p) && !ValidPath(p))
    requires WellFormed(s.root, s.nextInode) && Clean(s.root, [])
    requires t.root == Put(s.root, p, node) && t.log == s.log && t.readers == s.readers
    requires t.nextInode >= s.nextInode && (node.File? ==> t.nextInode > s.nextInode)
    requires forall n: nat | n < s.nextInode :: Content(t.disk, n) == Content(s.disk, n)
    requires forall j | 0 <= j < |s.readers| :: s.readers[j].phase.Fetching? ==> s.readers[j].phase.inode < s.nextInode
    ensures SameView(s, t) && WellFormed(t.root, t.nextInode) && Clean(t.root, [])
  {
    hide Put, HasParents, Lookup, FileAt, Clean, Files, WellFormed, Content, ValidPath;
    WellFormedGrows(s.root, s.nextInode, t.nextInode);
    assert NodeWellFormed(node, t.nextInode) by { EmptyIsWellFormed(t.nextInode); }
    WellFormedAfterPut(s.root, p, node, t.nextInode);
    assert [] + p == p;
    CleanAfterPut(s.root, p, node, []);
    FilesBelow(s.root, [], s.nextInode);
    HiddenPutFiles(s.root, p, node);
    forall f | f in Files(s.root, []) ensures SizeOf(t.disk, f.inode) == SizeOf(s.disk, f.inode) {
      assert Content(t.disk, f.inode) == Content(s.disk, f.inode);
    }
    forall q: Path | ValidPath(q) ensures FileAt(t.root, q) == FileAt(s.root, q) && Current(t, q) == Current(s, q) {
      FileAtAfterPut(s.root, p, node, q);
      if q == p { MissingIsNoFile(s.root, p); }
      if FileAt(s.root, q).Some? { InodeBelow(s.root, q, s.nextInode); }
    }
  }

  lemma MissingIsNoFile(es: seq<Entry>, p: Path)
    requires p != [] && Lookup(es, p) == None
    ensures FileAt(es, p) == None
  {
  }

  lemma EmptyIsWellFormed(next: nat)
    ensures NodeWellFormed(Dir([]), next)
  {
    assert WellFormed([], next);
  }

  lemma HiddenPutFiles(es: seq<Entry>, p: Path, node: Node)
    requires p != [] && HasParents(es, p) && Lookup(es, p) == None
    requires node == Dir([]) || (node.File? && !AllVisible(p))
    ensures Files(Put(es, p, node), []) == Files(es, [])
  {
    hide Put, HasParents, Lookup, Files, AllVisible;
    var a, b := FilesAfterPut(es, p, node, []);
  }

  lemma HiddenRemove(s: State, t: State, p: Path)
    requires p != [] && HasParents(s.root, p) && FileAt(s.root, p).Some? && !AllVisible(p) && !ValidPath(p)
    requires WellFormed(s.root, s.nextInode) && Clean(s.root, [])
    requires t.root == Remove(s.root, p) && t.disk == s.disk && t.nextInode == s.nextInode && t.log == s.log && t.readers == s.readers
    ensures SameView(s, t) && WellFormed(t.root, t.nextInode) && Clean(t.root, [])
  {
    hide Remove, HasParents, Lookup, FileAt, Clean, Files, WellFormed, Content, AllVisible, ValidPath;
    WellFormedAfterRemove(s.root, p, s.nextInode);
    CleanAfterRemove(s.root, p, []);
    HiddenRemoveFiles(s.root, p);
    forall q: Path | ValidPath(q) ensures FileAt(t.root, q) == FileAt(s.root, q) && Current(t, q) == Current(s, q) {
      FileAtAfterRemove(s.root, p, s.nextInode, q);
    }
  }

  lemma HiddenRemoveFiles(es: seq<Entry>, p: Path)
    requires p != [] && HasParents(es, p) && FileAt(es, p).Some? && !AllVisible(p)
    ensures Files(Remove(es, p), []) == Files(es, [])
  {
    hide Remove, HasParents, Lookup, Files, AllVisible, FileAt;
    var a, b := FilesAfterRemove(es, p, []);
  }

  lemma ReadySameView(cfg: Config, s: State, t: State, op: Op)
    requires ValidPath(op.path) && Ready(cfg, s, op) && SameView(s, t) && Passable(t.root, op.path)
    ensures Ready(cfg, t, op)
  {
    hide Files, FileAt, Meets, Passable, Current, ValidPath;
    TotalDependsOnFiles(Files(s.root, []), s.disk, t.disk);
  }

  // ------------------------------------------------------------------- making

  lemma MakingKeeps(cfg: Config, start: State, s: State, i: nat, depth: nat, io: Io)
    requires Invariant(cfg, start, s) && i < |s.tickets| && s.tickets[i].phase == Making(depth)
    requires depth < |s.tickets[i].op.path|
    ensures Invariant(cfg, start, StepMaking(s, i, depth, io))
  {
    hide Invariant, Ready, HasParents, Lookup, Put, Sound, Queue, Log, ReadersOk;
    InvariantParts(cfg, start, s);
    var op := s.tickets[i].op;
    var path := op.path;
    var parent := path[..depth + 1];
    assert TicketOk(cfg, s, s.tickets[i]);
    var t := StepMaking(s, i, depth, io);
    var phase := t.tickets[i].phase;
    var found := Lookup(s.root, parent);
    if phase.Done? {
      FailStep(cfg, start, s, i, phase.outcome.error);
    } else if found == None {
      MakesParent(cfg, start, s, t, i, depth);
      Assemble(cfg, start, s, t, i);
    } else {
      NextParentOk(cfg, s, op, s.tickets[i].waitsFor, depth);
      QuietStep(cfg, start, s, i, phase);
    }
  }

  lemma NextParentOk(cfg: Config, s: State, op: Op, waitsFor: Option<nat>, depth: nat)
    requires depth + 1 < |op.path| && Ready(cfg, s, op) && HasParents(s.root, op.path[..depth + 1])
    requires Lookup(s.root, op.path[..depth + 1]).Some? && Lookup(s.root, op.path[..depth + 1]).value.Dir?
    ensures TicketOk(cfg, s, Ticket(op, waitsFor, NextParent(op.path, depth + 1)))
  {
    hide Ready, HasParents, Lookup;
    ParentsDeeper(s.root, op.path, depth + 1);
    if depth + 2 == |op.path| { assert op.path[..depth + 2] == op.path; }
  }

  lemma MakesParent(cfg: Config, start: State, s: State, t: State, i: nat, depth: nat)
    requires Invariant(cfg, start, s) && i < |s.tickets| && s.tickets[i].phase == Making(depth)
    requires var op := s.tickets[i].op;
             && depth + 1 < |op.path| && Ready(cfg, s, op) && HasParents(s.root, op.path[..depth + 1])
             && Lookup(s.root, op.path[..depth + 1]) == None
             && t == AtPhase(s.(root := Put(s.root, op.path[..depth + 1], Dir([]))), i, NextParent(op.path, depth + 1))
    ensures SameView(s, t) && WellFormed(t.root, t.nextInode) && Clean(t.root, []) && Moves(s, t, i)
    ensures t.tickets[i].op.path != [] && TicketOk(cfg, t, t.tickets[i])
  {
    hide Invariant, Ready, HasParents, Lookup, Put, Passable, SameView, WellFormed, Clean, Fits, Log, FileAt, Content, Replayed;
    var op := s.tickets[i].op;
    var parent := op.path[..depth + 1];
    InvariantParts(cfg, start, s);
    assert GoodOp(cfg, op);
    PrefixOfValidPath(op.path, depth + 1);
    assert forall j | 0 <= j < |s.readers| :: ReaderOk(start, s, s.readers[j]);
    HiddenPut(s, t, parent, Dir([]));
    LookupAfterPut(s.root, parent, Dir([]));
    ReadyIsPassable(cfg, s, op);
    PassableAfterPut(s.root, parent, Dir([]), op.path);
    ReadySameView(cfg, s, t, op);
    ParentsAfterPut(s.root, parent, Dir([]), parent);
    NextParentOk(cfg, t, op, s.tickets[i].waitsFor, depth);
  }

  lemma ReadyIsPassable(cfg: Config, s: State, op: Op)
    requires op.path != [] && Ready(cfg, s, op)
    ensures op.Write? && Passable(s.root, op.path) && Meets(cfg, op, Current(s, op.path)) && Room(cfg, s, op)
  {
  }
}
