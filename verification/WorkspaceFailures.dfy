/** What a write or delete that fails without a commit leaves behind in the tree, over the whole call. */
module WorkspaceFailures {
  import opened Wrappers
  import opened WorkspacePath
  import opened WorkspaceTree
  import opened WorkspaceScan
  import opened WorkspaceStore
  import opened WorkspaceInvariant
  import opened WorkspaceSteps
  import opened WorkspaceCommits
  import opened WorkspaceRuns
  import opened WorkspaceTheorems

  /** A tree with the directories on the way to a path, as far as its first `k` names: what is missing is made, empty. */
  function WithParents(es: seq<Entry>, path: Path, k: nat): seq<Entry>
    requires k <= |path|
  {
    if k == 0 then es
    else
      var made := WithParents(es, path, k - 1);
      if HasParents(made, path[..k]) && Lookup(made, path[..k]) == None then Put(made, path[..k], Dir([])) else made
  }

  function AllParents(es: seq<Entry>, path: Path): seq<Entry>
    requires path != []
  {
    WithParents(es, path, |path| - 1)
  }

  /** The tree with all parents and one new temporary file. */
  ghost predicate TemporaryLeft(entry: seq<Entry>, path: Path, token: string, inode: nat, root: seq<Entry>)
    requires path != []
  {
    var parents, temporary := AllParents(entry, path), Temporary(path, token);
    HasParents(parents, temporary) && Lookup(parents, temporary) == None && root == Put(parents, temporary, File(inode))
  }

  /**
   * The tree after the failure, by whether the call created its temporary
   * file and whether removing it failed: the parents alone; the parents and
   * that file; or, when the file was never created, some of the parents, and
   * perhaps without a file that happened to have the random name already.
   */
  ghost predicate LeftBehind(entry: seq<Entry>, path: Path, root: seq<Entry>, created: bool, cleanupFailed: bool)
    requires path != []
  {
    if created && cleanupFailed then exists token, inode :: TemporaryLeft(entry, path, token, inode, root)
    else if created then root == AllParents(entry, path)
    else
      || (exists k: nat :: k < |path| && root == WithParents(entry, path, k))
      || (!cleanupFailed && exists token :: NameTaken(entry, path, token, root))
  }

  ghost predicate NameTaken(entry: seq<Entry>, path: Path, token: string, root: seq<Entry>)
    requires path != []
  {
    var parents, temporary := AllParents(entry, path), Temporary(path, token);
    HasParents(parents, temporary) && FileAt(parents, temporary).Some? && root == Remove(parents, temporary)
  }

  // ------------------------------------------------------ what happened in a run

  function PhaseOf(s: State, i: nat): Phase {
    if i < |s.tickets| then s.tickets[i].phase else Waiting
  }

  /** In this run the call's exclusive open worked. */
  predicate Created(cfg: Config, s: State, events: seq<Event>, i: nat) {
    if events == [] then PhaseOf(s, i).Filling?
    else Created(cfg, s, events[..|events| - 1], i) || PhaseOf(Run(cfg, s, events), i).Filling?
  }

  /** In this run the file operation of the call's cleanup failed. */
  predicate CleanupFailed(cfg: Config, s: State, events: seq<Event>, i: nat) {
    if events == [] then false
    else
      var before, last := events[..|events| - 1], events[|events| - 1];
      || CleanupFailed(cfg, s, before, i)
      || (PhaseOf(Run(cfg, s, before), i).Cleaning? && last.Advance? && last.call == i && !last.io.ok)
  }

  // ------------------------------------------------------------- inside the call

  /** The tree while the call runs, by where it waits. */
  ghost predicate Inside(entry: seq<Entry>, path: Path, phase: Phase, root: seq<Entry>, created: bool, cleanupFailed: bool)
    requires path != []
  {
    match phase
    case Waiting => false
    case Reading => root == entry && !created && !cleanupFailed
    case Scanning(_) => root == entry && !created && !cleanupFailed
    case Unlinking => root == entry && !created && !cleanupFailed
    case Making(depth) => depth < |path| && root == WithParents(entry, path, depth) && !created && !cleanupFailed
    case Opening => root == AllParents(entry, path) && !created && !cleanupFailed
    case Filling(token, inode) => created && !cleanupFailed && TemporaryLeft(entry, path, token, inode, root)
    case Syncing(token, inode) => created && !cleanupFailed && TemporaryLeft(entry, path, token, inode, root)
    case Renaming(token, inode) => created && !cleanupFailed && TemporaryLeft(entry, path, token, inode, root)
    case Cleaning(token) =>
      !cleanupFailed && (if created then exists inode :: TemporaryLeft(entry, path, token, inode, root) else root == AllParents(entry, path))
    case ReadingBack => !cleanupFailed
    case Done(outcome, committed) => committed || LeftBehind(entry, path, root, created, cleanupFailed)
  }

  /** The call took one step, or none. */
  ghost predicate Follows(entry: seq<Entry>, s: State, t: State, i: nat, io: Io, created: bool)
    requires i < |s.tickets| && s.tickets[i].op.path != []
  {
    && i < |t.tickets| && t.tickets[i].op == s.tickets[i].op
    && var p, q := s.tickets[i].phase, t.tickets[i].phase;
       Inside(entry, s.tickets[i].op.path, q, t.root, created || q.Filling?, p.Cleaning? && !io.ok)
  }

  lemma NoneMade(entry: seq<Entry>, path: Path, root: seq<Entry>, k: nat)
    requires k < |path| && root == WithParents(entry, path, k)
    ensures LeftBehind(entry, path, root, false, false)
  {
  }

  lemma NothingMade(entry: seq<Entry>, path: Path)
    requires path != []
    ensures WithParents(entry, path, 0) == entry && LeftBehind(entry, path, entry, false, false)
  {
    NoneMade(entry, path, entry, 0);
  }

  lemma LookingStaysInside(cfg: Config, entry: seq<Entry>, s: State, i: nat, io: Io)
    requires i < |s.tickets| && s.tickets[i].op.path != [] && TicketOk(cfg, s, s.tickets[i])
    requires var p := s.tickets[i].phase; p.Reading? || p.Scanning?
    requires s.root == entry
    ensures Follows(entry, s, StepTicket(cfg, s, i, io), i, io, false)
  {
    hide ReadIfExists, Meets, Scan, Current, Passable, LeftBehind, TemporaryLeft, WithParents, Released;
    NothingMade(entry, s.tickets[i].op.path);
  }

  lemma UnlinkingStaysInside(cfg: Config, entry: seq<Entry>, s: State, i: nat, io: Io)
    requires i < |s.tickets| && s.tickets[i].op.path != [] && s.tickets[i].phase.Unlinking? && s.root == entry
    ensures Follows(entry, s, StepTicket(cfg, s, i, io), i, io, false)
  {
    hide Resolve, HasParents, Remove, LeftBehind, TemporaryLeft, WithParents, Released;
    NothingMade(entry, s.tickets[i].op.path);
  }

  lemma MakingStaysInside(cfg: Config, entry: seq<Entry>, s: State, i: nat, io: Io)
    requires i < |s.tickets| && s.tickets[i].op.path != [] && TicketOk(cfg, s, s.tickets[i]) && s.tickets[i].phase.Making?
    requires s.root == WithParents(entry, s.tickets[i].op.path, s.tickets[i].phase.depth)
    ensures Follows(entry, s, StepTicket(cfg, s, i, io), i, io, false)
  {
    hide Ready, HasParents, Lookup, Put, LeftBehind, TemporaryLeft, Released;
    var path, depth := s.tickets[i].op.path, s.tickets[i].phase.depth;
    NoneMade(entry, path, s.root, depth);
    assert WithParents(entry, path, depth + 1) ==
           if Lookup(s.root, path[..depth + 1]) == None then Put(s.root, path[..depth + 1], Dir([])) else s.root;
  }

  lemma OpeningStaysInside(cfg: Config, entry: seq<Entry>, s: State, i: nat, io: Io)
    requires i < |s.tickets| && s.tickets[i].op.path != [] && s.tickets[i].phase.Opening?
    requires s.root == AllParents(entry, s.tickets[i].op.path)
    ensures Follows(entry, s, StepTicket(cfg, s, i, io), i, io, false)
  {
    hide HasParents, Lookup, Put, LeftBehind, AllParents, Temporary, Released;
  }

  lemma FillingStaysInside(cfg: Config, entry: seq<Entry>, s: State, i: nat, io: Io, token: string, inode: nat)
    requires i < |s.tickets| && s.tickets[i].op.path != [] && TicketOk(cfg, s, s.tickets[i])
    requires var p := s.tickets[i].phase; p == Filling(token, inode) || p == Syncing(token, inode) || p == Renaming(token, inode)
    requires TemporaryLeft(entry, s.tickets[i].op.path, token, inode, s.root)
    ensures Follows(entry, s, StepTicket(cfg, s, i, io), i, io, true)
  {
    hide HasParents, Lookup, Put, Remove, FileAt, LeftBehind, AllParents, TemporaryLeft, Temporary, Content, Owns, Room, Passable, Meets, Released;
    assert exists n :: TemporaryLeft(entry, s.tickets[i].op.path, token, n, s.root);
  }

  /** The finally clause: what was created goes, unless removing it fails. */
  lemma CleaningStaysInside(cfg: Config, entry: seq<Entry>, s: State, i: nat, io: Io, created: bool)
    requires i < |s.tickets| && s.tickets[i].op.path != [] && s.tickets[i].phase.Cleaning?
    requires var path := s.tickets[i].op.path; var token := s.tickets[i].phase.token;
             if created then exists inode :: TemporaryLeft(entry, path, token, inode, s.root) else s.root == AllParents(entry, path)
    ensures Follows(entry, s, StepTicket(cfg, s, i, io), i, io, created)
  {
    hide HasParents, Lookup, Put, Remove, FileAt, AllParents, Temporary, Released;
    var path, token := s.tickets[i].op.path, s.tickets[i].phase.token;
    if created {
      var inode :| TemporaryLeft(entry, path, token, inode, s.root);
      var parents, temporary := AllParents(entry, path), Temporary(path, token);
      RemoveUndoesPut(parents, temporary, File(inode));
      LookupAfterPut(parents, temporary, File(inode));
      FoundIsFile(s.root, temporary, inode);
    } else {
      assert s.root == WithParents(entry, path, |path| - 1) by { AllParentsAre(entry, path); }
      if io.ok && FileAt(s.root, Temporary(path, token)).Some? && HasParents(s.root, Temporary(path, token)) {
        assert NameTaken(entry, path, token, StepTicket(cfg, s, i, io).root);
      }
    }
  }

  lemma AllParentsAre(entry: seq<Entry>, path: Path)
    requires path != []
    ensures AllParents(entry, path) == WithParents(entry, path, |path| - 1)
  {
  }

  lemma FoundIsFile(es: seq<Entry>, path: Path, inode: nat)
    requires path != [] && Lookup(es, path) == Some(File(inode))
    ensures FileAt(es, path) == Some(inode)
  {
  }

  lemma ReadingBackStaysInside(cfg: Config, entry: seq<Entry>, s: State, i: nat, io: Io)
    requires i < |s.tickets| && s.tickets[i].op.path != [] && s.tickets[i].phase.ReadingBack?
    ensures Follows(entry, s, StepTicket(cfg, s, i, io), i, io, true) && Follows(entry, s, StepTicket(cfg, s, i, io), i, io, false)
  {
    hide ReadNow, LeftBehind, Released;
  }

  lemma TurnStaysInside(cfg: Config, entry: seq<Entry>, s: State, i: nat, io: Io, created: bool)
    requires i < |s.tickets| && s.tickets[i].op.path != [] && TicketOk(cfg, s, s.tickets[i]) && !s.tickets[i].phase.Done?
    requires Inside(entry, s.tickets[i].op.path, s.tickets[i].phase, s.root, created, false)
    ensures Follows(entry, s, StepTicket(cfg, s, i, io), i, io, created)
  {
    hide TicketOk, StepTicket, Follows, LeftBehind, TemporaryLeft, WithParents, AllParents;
    match s.tickets[i].phase {
      case Reading => LookingStaysInside(cfg, entry, s, i, io);
      case Scanning(_) => LookingStaysInside(cfg, entry, s, i, io);
      case Unlinking => UnlinkingStaysInside(cfg, entry, s, i, io);
      case Making(_) => MakingStaysInside(cfg, entry, s, i, io);
      case Opening => OpeningStaysInside(cfg, entry, s, i, io);
      case Filling(token, inode) => FillingStaysInside(cfg, entry, s, i, io, token, inode);
      case Syncing(token, inode) => FillingStaysInside(cfg, entry, s, i, io, token, inode);
      case Renaming(token, inode) => FillingStaysInside(cfg, entry, s, i, io, token, inode);
      case Cleaning(_) => CleaningStaysInside(cfg, entry, s, i, io, created);
      case ReadingBack => ReadingBackStaysInside(cfg, entry, s, i, io);
    }
  }

  // ---------------------------------------------------------------- other calls

  /** While a call holds the lock, no event but its own steps touches the tree or the call. */
  lemma OthersKeepOut(cfg: Config, s: State, e: Event, i: nat)
    requires Queue(cfg, s) && i < |s.tickets| && !s.tickets[i].phase.Done? && !s.tickets[i].phase.Waiting?
    requires !(e.Advance? && e.call == i)
    ensures var t := Step(cfg, s, e); t.root == s.root && i < |t.tickets| && t.tickets[i] == s.tickets[i]
  {
    hide StepReading, StepScanning, StepMaking, StepOpening, StepFilling, StepRenaming, StepCleaning, StepReadingBack, StepUnlinking,
         StepReader, GoodOp, AdmitWrite, AdmitDelete, ValidateWorkspacePath;
    match e {
      case Advance(j, io) =>
        if j < i {
          assert s.tickets[j].phase.Done?;
        } else if i < j < |s.tickets| {
          assert s.tickets[j].phase.Waiting?;
          assert s.tickets[j].waitsFor == Some(j - 1);
          if j - 1 != i { assert s.tickets[j - 1].phase.Waiting?; }
        }
      case Poll(j, io, size) =>
        if j < |s.readers| && s.readers[j].path != [] { ReaderLeavesFiles(cfg, s, j, io, size); }
      case _ =>
    }
  }

  lemma ReaderLeavesFiles(cfg: Config, s: State, j: nat, io: Io, size: nat)
    requires j < |s.readers| && s.readers[j].path != []
    ensures var t := StepReader(cfg, s, j, io, size); t.root == s.root && t.tickets == s.tickets
  {
    hide Lookup, FileAt, Content;
  }

  // ----------------------------------------------------------------- whole calls

  /** The call is under way since the state `s`, in which it had just got the lock. */
  ghost predicate UnderWay(cfg: Config, start: State, s: State, events: seq<Event>, i: nat)
    requires i < |s.tickets| && s.tickets[i].op.path != []
  {
    var t := Run(cfg, s, events);
    && Invariant(cfg, start, t) && i < |t.tickets| && t.tickets[i].op == s.tickets[i].op
    && Inside(s.root, s.tickets[i].op.path, t.tickets[i].phase, t.root, Created(cfg, s, events, i), CleanupFailed(cfg, s, events, i))
  }

  /** A call that is not over has not failed to clean up yet. */
  lemma NotYet(entry: seq<Entry>, path: Path, phase: Phase, root: seq<Entry>, created: bool, cleanupFailed: bool)
    requires path != [] && Inside(entry, path, phase, root, created, cleanupFailed) && !phase.Done?
    ensures !cleanupFailed && !phase.Waiting? && (phase.Filling? ==> created)
  {
    hide LeftBehind, TemporaryLeft;
  }

  lemma GoesOn(cfg: Config, start: State, s: State, events: seq<Event>, i: nat)
    requires i < |s.tickets| && s.tickets[i].op.path != [] && events != []
    requires UnderWay(cfg, start, s, events[..|events| - 1], i)
    requires !Run(cfg, s, events[..|events| - 1]).tickets[i].phase.Done?
    ensures UnderWay(cfg, start, s, events, i)
  {
    hide Invariant, Step, Inside, Queue, Sound, Log, ReadersOk, TicketOk;
    var before, e := events[..|events| - 1], events[|events| - 1];
    var m := Run(cfg, s, before);
    var path, phase := s.tickets[i].op.path, m.tickets[i].phase;
    StepKeeps(cfg, start, m, e);
    InvariantParts(cfg, start, m);
    NotYet(s.root, path, phase, m.root, Created(cfg, s, before, i), CleanupFailed(cfg, s, before, i));
    if e.Advance? && e.call == i {
      TurnStaysInside(cfg, s.root, m, i, e.io, Created(cfg, s, before, i));
      StepIsTurn(cfg, m, i, e.io);
    } else {
      OthersKeepOut(cfg, m, e, i);
    }
  }

  lemma StepIsTurn(cfg: Config, s: State, i: nat, io: Io)
    requires i < |s.tickets| && s.tickets[i].op.path != []
    ensures Step(cfg, s, Advance(i, io)) == StepTicket(cfg, s, i, io)
  {
    hide StepTicket;
  }

  lemma {:induction false} StaysUnderWay(cfg: Config, start: State, s: State, events: seq<Event>, i: nat)
    requires Invariant(cfg, start, s) && i < |s.tickets| && s.tickets[i].op.path != [] && s.tickets[i].phase.Reading?
    requires forall n | 0 <= n < |events| :: !PhaseOf(Run(cfg, s, events[..n]), i).Done?
    ensures UnderWay(cfg, start, s, events, i)
    decreases |events|
  {
    hide Invariant, Step;
    if events == [] {
    } else {
      var before := events[..|events| - 1];
      forall n | 0 <= n < |before| ensures !PhaseOf(Run(cfg, s, before[..n]), i).Done? {
        assert before[..n] == events[..n];
      }
      StaysUnderWay(cfg, start, s, before, i);
      assert !PhaseOf(Run(cfg, s, events[..|events| - 1]), i).Done?;
      GoesOn(cfg, start, s, events, i);
    }
  }

  /**
   * A call that fails without a commit, from the moment it got the lock to its
   * last step, whatever else runs beside it: if it created its temporary file
   * and removing that failed, the tree is the one it found with its parent
   * directories and that one file; if it created the file and removing worked,
   * the parent directories alone have been added; if it never got that far,
   * some of them at most.
   */
  lemma {:induction false} FailedCallLeavesOnlyParents(cfg: Config, start: State, before: seq<Event>, during: seq<Event>, i: nat)
    requires Usable(cfg, start) && PhaseOf(Run(cfg, start, before), i).Reading?
    requires forall n | 0 <= n < |during| :: !PhaseOf(Run(cfg, Run(cfg, start, before), during[..n]), i).Done?
    requires var p := PhaseOf(Run(cfg, Run(cfg, start, before), during), i); p.Done? && !p.committed
    ensures var s := Run(cfg, start, before); var t := Run(cfg, s, during);
            && s.tickets[i].op.path != []
            && LeftBehind(s.root, s.tickets[i].op.path, t.root, Created(cfg, s, during, i), CleanupFailed(cfg, s, during, i))
  {
    hide Run, Sound, Log, ReadersOk, LeftBehind, Created, CleanupFailed;
    InvariantOfRun(cfg, start, before);
    var s := Run(cfg, start, before);
    InvariantParts(cfg, start, s);
    StaysUnderWay(cfg, start, s, during, i);
  }
}
