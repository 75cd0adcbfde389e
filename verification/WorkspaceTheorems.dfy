/** What every run of the workspace store guarantees, whatever fails and however calls and reads interleave. */
module WorkspaceTheorems {
  import opened Wrappers
  import opened WorkspacePath
  import opened WorkspaceTree
  import opened WorkspaceScan
  import opened WorkspaceStore
  import opened WorkspaceInvariant
  import opened WorkspaceSteps
  import opened WorkspaceCommits
  import opened WorkspaceRuns

  /** A call is inside the lock only when every earlier call is over, even one that failed. */
  lemma {:induction false} CriticalSectionsInCallOrder(cfg: Config, start: State, events: seq<Event>, i: nat, j: nat)
    requires Usable(cfg, start) && i < j < |Run(cfg, start, events).tickets|
    requires !Run(cfg, start, events).tickets[j].phase.Waiting?
    ensures Run(cfg, start, events).tickets[i].phase.Done?
  {
    InvariantOfRun(cfg, start, events);
    hide Run, Sound, Log, ReadersOk, TicketOk;
  }

  /**
   * The store is an atomic compare-and-swap map: every path holds what the
   * commits made of it, each commit met its call's precondition on what the
   * path held just before, the commits are in call order with one at most per
   * call, and a call that reports success is among them.
   */
  lemma {:induction false} RefinesCasMap(cfg: Config, start: State, events: seq<Event>)
    requires Usable(cfg, start)
    ensures var s := Run(cfg, start, events);
            && (forall q: Path | ValidPath(q) :: Current(s, q) == Replayed(start, s.log, |s.log|, q))
            && (forall k | 0 <= k < |s.log| :: LegalCommit(cfg, start, s, k))
            && (forall k, l | 0 <= k < l < |s.log| :: s.log[k].call < s.log[l].call)
            && (forall i | 0 <= i < |s.tickets| && s.tickets[i].phase.Done? ::
                  && (s.tickets[i].phase.committed <==> InLog(s.log, i))
                  && (s.tickets[i].phase.outcome.Success? ==> InLog(s.log, i)))
  {
    InvariantOfRun(cfg, start, events);
    SuccessIsCommitted(cfg, start, events);
    hide Run, Sound, Queue, ReadersOk, TicketOk, LegalCommit, InLog, Replayed, ValidPath, Current;
  }

  /** No call reports success without its change being visible. */
  predicate HonestSuccess(s: State) {
    forall i | 0 <= i < |s.tickets| && s.tickets[i].phase.Done? :: s.tickets[i].phase.outcome.Success? ==> s.tickets[i].phase.committed
  }

  lemma {:induction false} SuccessIsCommitted(cfg: Config, start: State, events: seq<Event>)
    requires Usable(cfg, start)
    ensures HonestSuccess(Run(cfg, start, events))
    decreases |events|
  {
    if events == [] {
    } else {
      SuccessIsCommitted(cfg, start, events[..|events| - 1]);
      StepIsHonest(cfg, Run(cfg, start, events[..|events| - 1]), events[|events| - 1]);
    }
  }

  lemma StepIsHonest(cfg: Config, s: State, e: Event)
    requires HonestSuccess(s)
    ensures HonestSuccess(Step(cfg, s, e))
  {
    hide StepTicket, StepReader, AdmitWrite, AdmitDelete, ValidateWorkspacePath;
    match e {
      case Advance(i, io) => if i < |s.tickets| && s.tickets[i].op.path != [] { TurnIsHonest(cfg, s, i, io); }
      case Poll(j, io, size) => if j < |s.readers| && s.readers[j].path != [] { ReaderLeavesTickets(cfg, s, j, io, size); }
      case _ =>
    }
  }

  lemma ReaderLeavesTickets(cfg: Config, s: State, j: nat, io: Io, size: nat)
    requires j < |s.readers| && s.readers[j].path != []
    ensures StepReader(cfg, s, j, io, size).tickets == s.tickets
  {
    hide Lookup, FileAt, Content;
  }

  /** The call moves alone and does not claim a success it has not made visible. */
  predicate HonestTurn(s: State, t: State, i: nat) {
    && i < |s.tickets| && |t.tickets| == |s.tickets| && t.tickets == s.tickets[i := t.tickets[i]]
    && t.tickets[i].op == s.tickets[i].op
    && (t == s || (t.tickets[i].phase.Done? && t.tickets[i].phase.outcome.Success? ==> t.tickets[i].phase.committed))
  }

  lemma TurnIsHonest(cfg: Config, s: State, i: nat, io: Io)
    requires i < |s.tickets| && s.tickets[i].op.path != []
    ensures HonestTurn(s, StepTicket(cfg, s, i, io), i)
  {
    hide StepReading, StepScanning, StepMaking, StepOpening, StepFilling, StepRenaming, StepCleaning, StepReadingBack, StepUnlinking;
    LookingIsHonest(cfg, s, i, io);
    if s.tickets[i].phase.Scanning? && s.tickets[i].op.Write? { ScanningIsHonest(cfg, s, i, s.tickets[i].phase.existing, io); }
    ChangingIsHonest(s, i, io);
  }

  lemma LookingIsHonest(cfg: Config, s: State, i: nat, io: Io)
    requires i < |s.tickets| && s.tickets[i].op.path != []
    ensures HonestTurn(s, StepReading(cfg, s, i, io), i) && HonestTurn(s, StepReadingBack(cfg, s, i, io), i)
  {
    hide ReadNow, ReadIfExists, Meets;
  }

  lemma ScanningIsHonest(cfg: Config, s: State, i: nat, existing: Option<Bytes>, io: Io)
    requires i < |s.tickets| && s.tickets[i].op.Write?
    ensures HonestTurn(s, StepScanning(cfg, s, i, existing, io), i)
  {
    hide Scan;
  }

  lemma ChangingIsHonest(s: State, i: nat, io: Io)
    requires i < |s.tickets| && s.tickets[i].op.path != []
    ensures HonestTurn(s, StepOpening(s, i, io), i) && HonestTurn(s, StepUnlinking(s, i, io), i)
    ensures forall d: nat | d < |s.tickets[i].op.path| :: HonestTurn(s, StepMaking(s, i, d, io), i)
    ensures forall n :: HonestTurn(s, StepRenaming(s, i, n, io), i) && HonestTurn(s, StepCleaning(s, i, n, io), i)
    ensures s.tickets[i].op.Write? ==> forall n, k: nat :: HonestTurn(s, StepFilling(s, i, n, k, io), i)
  {
    hide HasParents, Lookup, FileAt, Put, Remove, Temporary, Content, Resolve;
  }

  /** From a directory the scan accepts, every run leaves a directory the scan accepts: the quotas are closed. */
  lemma {:induction false} QuotaClosure(cfg: Config, start: State, events: seq<Event>)
    requires Usable(cfg, start)
    ensures var s := Run(cfg, start, events); Scan(s.root, s.disk, cfg.limits).Success?
  {
    InvariantOfRun(cfg, start, events);
    hide Run, Scan, Log, ReadersOk, TicketOk, Queue;
    var s := Run(cfg, start, events);
    ScanIff(s.root, s.disk, cfg.limits);
  }

  /**
   * A finished unlocked read reports the whole content of one committed
   * version, or the absence of the file, at one instant between its call and
   * its end, although it reads in pieces while calls go on beside it.
   */
  lemma {:induction false} ReadsSeeOneVersion(cfg: Config, start: State, events: seq<Event>, j: nat)
    requires Usable(cfg, start) && j < |Run(cfg, start, events).readers| && Run(cfg, start, events).readers[j].phase.Finished?
    ensures var s := Run(cfg, start, events); var r := s.readers[j]; var at := r.phase.at;
            && ValidPath(r.path) && r.began <= at <= |s.log|
            && (r.phase.outcome.Success? ==> Replayed(start, s.log, at, r.path) == Some(r.phase.outcome.value))
            && (r.phase.outcome == Failure(FileNotFound) ==> Replayed(start, s.log, at, r.path) == None)
  {
    InvariantOfRun(cfg, start, events);
    hide Run, Sound, Log, Queue, TicketOk, Replayed, ValidPath;
    assert ReaderOk(start, Run(cfg, start, events), Run(cfg, start, events).readers[j]);
  }

  /** Until its commit, and after it, a call changes the content of no path; so a call that fails without one leaves them all. */
  lemma {:induction false} NothingShowsWithoutCommit(cfg: Config, start: State, events: seq<Event>, e: Event, q: Path)
    requires Usable(cfg, start) && ValidPath(q)
    requires Step(cfg, Run(cfg, start, events), e).log == Run(cfg, start, events).log
    ensures Current(Step(cfg, Run(cfg, start, events), e), q) == Current(Run(cfg, start, events), q)
  {
    InvariantOfRun(cfg, start, events);
    StepKeeps(cfg, start, Run(cfg, start, events), e);
    hide Run, Step, Sound, Queue, TicketOk, Replayed, ValidPath, Current;
  }

  // ------------------------------------------------------------------ progress

  /** An upper bound on the steps a call has left. */
  function Left(t: Ticket): nat {
    match t.phase
    case Waiting => 9 + |t.op.path|
    case Reading => 8 + |t.op.path|
    case Scanning(_) => 7 + |t.op.path|
    case Making(depth) => if depth < |t.op.path| then 6 + |t.op.path| - depth else 6
    case Opening => 6
    case Filling(_, _) => 5
    case Syncing(_, _) => 4
    case Renaming(_, _) => 3
    case Cleaning(_) => 1
    case ReadingBack => 1
    case Unlinking => 1
    case Done(_, _) => 0
  }

  /** The first unfinished call can always go on, whatever its step meets: the lock is never lost. */
  lemma {:induction false} FirstUnfinishedCallAdvances(cfg: Config, start: State, events: seq<Event>, i: nat, io: Io)
    requires Usable(cfg, start) && i < |Run(cfg, start, events).tickets|
    requires !Run(cfg, start, events).tickets[i].phase.Done?
    requires forall j | 0 <= j < i :: Run(cfg, start, events).tickets[j].phase.Done?
    ensures var s := Run(cfg, start, events); var t := Step(cfg, s, Advance(i, io));
            |t.tickets| == |s.tickets| && Left(t.tickets[i]) < Left(s.tickets[i])
  {
    InvariantOfRun(cfg, start, events);
    hide Run, Sound, Log, ReadersOk;
    TurnDecreases(cfg, Run(cfg, start, events), i, io);
  }

  lemma TurnDecreases(cfg: Config, s: State, i: nat, io: Io)
    requires Queue(cfg, s) && i < |s.tickets| && s.tickets[i].op.path != [] && TicketOk(cfg, s, s.tickets[i])
    requires !s.tickets[i].phase.Done? && forall j | 0 <= j < i :: s.tickets[j].phase.Done?
    ensures Nearer(s, StepTicket(cfg, s, i, io), i)
  {
    hide TicketOk, StepTicket, Nearer, GoodOp;
    var p := s.tickets[i].phase;
    if p.Waiting? {
      if i > 0 { assert s.tickets[i - 1].phase.Done? && s.tickets[i].waitsFor == Some(i - 1); }
      EnteringIsNearer(cfg, s, i, io);
    } else if p.Reading? || p.Scanning? || p.ReadingBack? || p.Unlinking? {
      LookingIsNearer(cfg, s, i, io);
    } else {
      ChangingIsNearer(cfg, s, i, io);
    }
  }

  /** The call has fewer steps left. */
  predicate Nearer(s: State, t: State, i: nat) {
    i < |s.tickets| == |t.tickets| && Left(t.tickets[i]) < Left(s.tickets[i])
  }

  lemma EnteringIsNearer(cfg: Config, s: State, i: nat, io: Io)
    requires i < |s.tickets| && s.tickets[i].op.path != [] && s.tickets[i].phase.Waiting? && Released(s, s.tickets[i].waitsFor)
    ensures Nearer(s, StepTicket(cfg, s, i, io), i)
  {
    hide Released;
  }

  lemma LookingIsNearer(cfg: Config, s: State, i: nat, io: Io)
    requires i < |s.tickets| && s.tickets[i].op.path != [] && TicketOk(cfg, s, s.tickets[i])
    requires var p := s.tickets[i].phase; p.Reading? || p.Scanning? || p.ReadingBack? || p.Unlinking?
    ensures Nearer(s, StepTicket(cfg, s, i, io), i)
  {
    hide HasParents, Lookup, FileAt, Put, Remove, Scan, ReadNow, ReadIfExists, Meets, Content, Resolve, Ready, Owns, Passable, Current,
         StepMaking, StepOpening, StepFilling, StepRenaming, StepCleaning, Released;
  }

  lemma ChangingIsNearer(cfg: Config, s: State, i: nat, io: Io)
    requires i < |s.tickets| && s.tickets[i].op.path != [] && TicketOk(cfg, s, s.tickets[i])
    requires var p := s.tickets[i].phase; p.Making? || p.Opening? || p.Filling? || p.Syncing? || p.Renaming? || p.Cleaning?
    ensures Nearer(s, StepTicket(cfg, s, i, io), i)
  {
    hide HasParents, Lookup, FileAt, Put, Remove, Meets, Temporary, Content, Room, Owns, Passable, Current,
         StepReading, StepScanning, StepReadingBack, StepUnlinking, Released;
  }

  // ------------------------------------------------- calls that nothing disturbs

  /** The call goes on alone, every file operation works, until it is over. */
  function Finishing(cfg: Config, s: State, i: nat, token: string): State
    requires i < |s.tickets| && s.tickets[i].op.path != []
    decreases Left(s.tickets[i])
  {
    var t := StepTicket(cfg, s, i, Io(true, token, []));
    if |t.tickets| == |s.tickets| && t.tickets[i].op.path != [] && Left(t.tickets[i]) < Left(s.tickets[i]) then Finishing(cfg, t, i, token) else s
  }

  /** The call's precondition holds, nothing is in the way of its path, and a write fits the quotas. */
  predicate Accepts(cfg: Config, s: State, op: Op)
    requires op.path != []
  {
    Meets(cfg, op, Current(s, op.path)) && (op.Write? ==> Passable(s.root, op.path) && Room(cfg, s, op))
  }

  function CommitOf(i: nat, op: Op): Commit {
    Commit(i, op.path, if op.Write? then Some(op.content) else None)
  }

  /** The temporary name is still free, or this call has taken it. */
  predicate NameReserved(s: State, t: Ticket, token: string)
    requires t.op.path != []
  {
    match t.phase
    case Filling(name, _) => name == token
    case Syncing(name, _) => name == token
    case Renaming(name, _) => name == token
    case _ => Lookup(s.root, Temporary(t.op.path, token)) == None
  }

  ghost predicate Succeeds(s: State, t: State, i: nat) {
    && i < |s.tickets| && i < |t.tickets| && t.tickets[i].phase == Done(Success(()), true)
    && t.log == s.log + [CommitOf(i, s.tickets[i].op)]
  }

  lemma {:induction false} WriteFinishes(cfg: Config, start: State, s: State, i: nat, token: string)
    requires Invariant(cfg, start, s) && i < |s.tickets| && s.tickets[i].op.path != [] && NameReserved(s, s.tickets[i], token)
    requires var p := s.tickets[i].phase; p.Making? || p.Opening? || p.Filling? || p.Syncing? || p.Renaming?
    ensures Succeeds(s, Finishing(cfg, s, i, token), i) && Invariant(cfg, start, Finishing(cfg, s, i, token))
    decreases Left(s.tickets[i])
  {
    hide Invariant, StepTicket, TicketOk, NameReserved, Queue, Sound, Log, ReadersOk;
    var t := StepTicket(cfg, s, i, Io(true, token, []));
    InvariantParts(cfg, start, s);
    TicketKeeps(cfg, start, s, i, Io(true, token, []));
    InvariantParts(cfg, start, t);
    NextTurn(cfg, start, s, i, token);
    if t.tickets[i].phase.ReadingBack? {
      LastTurn(cfg, start, t, i, token);
    } else {
      WriteFinishes(cfg, start, t, i, token);
    }
  }

  /** The write is one step on: still unseen, or visible and logged. */
  predicate TookTurn(s: State, t: State, i: nat, token: string) {
    && i < |s.tickets| && |t.tickets| == |s.tickets| && t.tickets[i].op == s.tickets[i].op
    && Left(t.tickets[i]) < Left(s.tickets[i])
    && s.tickets[i].op.Write? && s.tickets[i].op.path != []
    && var p := t.tickets[i].phase;
       if p.ReadingBack? then t.log == s.log + [CommitOf(i, s.tickets[i].op)]
       else && (p.Making? || p.Opening? || p.Filling? || p.Syncing? || p.Renaming?)
            && t.log == s.log && NameReserved(t, t.tickets[i], token)
  }

  lemma NextTurn(cfg: Config, start: State, s: State, i: nat, token: string)
    requires Invariant(cfg, start, s) && i < |s.tickets| && s.tickets[i].op.path != [] && NameReserved(s, s.tickets[i], token)
    requires var p := s.tickets[i].phase; p.Making? || p.Opening? || p.Filling? || p.Syncing? || p.Renaming?
    ensures TookTurn(s, StepTicket(cfg, s, i, Io(true, token, [])), i, token)
  {
    hide Invariant, Queue, Sound, Log, ReadersOk, Ready, HasParents, Lookup, Put, Remove, Temporary, Private, FileAt, Content;
    InvariantParts(cfg, start, s);
    var op := s.tickets[i].op;
    assert TicketOk(cfg, s, s.tickets[i]);
    ReadyIsPassable(cfg, s, op);
    var p := s.tickets[i].phase;
    if p.Making? {
      PassablePrefix(s.root, op.path, p.depth + 1);
      if Lookup(s.root, op.path[..p.depth + 1]) == None {
        StillMissing(s.root, op.path[..p.depth + 1], Temporary(op.path, token));
      }
    } else if p.Opening? {
      assert Temporary(op.path, token)[..|op.path| - 1] == op.path[..|op.path| - 1] by { TemporaryIsBeside(op.path, token); }
      ParentsOfSibling(s.root, op.path, Temporary(op.path, token));
    } else if p.Renaming? {
      RenamingKeeps(cfg, start, s, i, p.token, p.inode, Io(true, token, []));
    }
  }

  lemma TemporaryIsBeside(path: Path, token: string)
    requires path != []
    ensures Temporary(path, token)[..|path| - 1] == path[..|path| - 1]
  {
  }

  lemma LastTurn(cfg: Config, start: State, s: State, i: nat, token: string)
    requires Invariant(cfg, start, s) && i < |s.tickets| && s.tickets[i].op.path != [] && s.tickets[i].phase.ReadingBack?
    ensures var t := Finishing(cfg, s, i, token);
            && i < |t.tickets| && t.tickets[i].phase == Done(Success(()), true) && t.log == s.log && Invariant(cfg, start, t)
  {
    hide Invariant, Queue, Sound, Log, ReadersOk;
    InvariantParts(cfg, start, s);
    TicketKeeps(cfg, start, s, i, Io(true, token, []));
    assert TicketOk(cfg, s, s.tickets[i]);
    OpIsGood(cfg, s, i);
    ResolveMeaning(s.root, s.tickets[i].op.path);
    hide Resolve, FileAt, ValidPath;
  }

  /** A file the scan lists is within the size limit, so the locked read of it succeeds. */
  lemma ExistingIsReadable(cfg: Config, s: State, path: Path)
    requires Sound(cfg, s) && ValidPath(path)
    ensures ReadIfExists(cfg, s, path).Success? <==> Passable(s.root, path)
    ensures Passable(s.root, path) ==> ReadIfExists(cfg, s, path) == Success(Current(s, path))
    ensures Current(s, path).Some? ==> Passable(s.root, path)
  {
    hide FileAt, Resolve, Passable, WellFormed, Clean, Files, Lookup, HasParents, AllVisible, Remove;
    ResolveMeaning(s.root, path);
    if FileAt(s.root, path).Some? {
      FileHasParents(s.root, path);
      var a, b := FilesAfterRemove(s.root, path, []);
      ValidIsVisible(path);
      FileIsFound(s.root, path);
      var listed := FileRef(path, FileAt(s.root, path).value);
      assert Listed(Lookup(s.root, path), path, []) == [listed];
      assert (a + [listed] + b)[|a|] == listed;
    }
  }

  lemma FileIsFound(es: seq<Entry>, path: Path)
    requires path != [] && FileAt(es, path).Some?
    ensures Lookup(es, path) == Some(File(FileAt(es, path).value))
  {
  }

  /**
   * A call left alone succeeds exactly when the store accepts it, and then it
   * is one more commit; otherwise it ends in an error and nothing is different.
   */
  lemma UninterruptedCall(cfg: Config, start: State, s: State, i: nat, token: string)
    requires Invariant(cfg, start, s) && i < |s.tickets| && s.tickets[i].op.path != []
    requires s.tickets[i].phase.Reading? && Lookup(s.root, Temporary(s.tickets[i].op.path, token)) == None
    ensures var t := Finishing(cfg, s, i, token); var op := s.tickets[i].op;
            if Accepts(cfg, s, op) then Succeeds(s, t, i) && Changes(s, t, op.path, CommitOf(i, op).after)
            else |t.tickets| == |s.tickets| && t.tickets[i].phase.Done? && t.tickets[i].phase.outcome.Failure?
                 && t == AtPhase(s, i, t.tickets[i].phase)
  {
    hide Invariant, Current, Passable, Queue, Sound, Log, ReadersOk, ReadIfExists, Lookup, Temporary, Room, Changes,
         StepScanning, StepUnlinking, ValidPath;
    var op := s.tickets[i].op;
    InvariantParts(cfg, start, s);
    OpIsGood(cfg, s, i);
    ExistingIsReadable(cfg, s, op.path);
    var t := StepTicket(cfg, s, i, Io(true, token, []));
    TicketKeeps(cfg, start, s, i, Io(true, token, []));
    if t.tickets[i].phase.Scanning? {
      SameRoom(cfg, s, t, op);
      ScanTurn(cfg, start, t, i, token);
    } else if t.tickets[i].phase.Unlinking? {
      UnlinkTurn(cfg, start, t, i, token);
    }
    if Accepts(cfg, s, op) {
      ContentsAfterCommit(cfg, start, s, Finishing(cfg, s, i, token), i);
    }
  }

  lemma SameRoom(cfg: Config, s: State, t: State, op: Op)
    requires t.root == s.root && t.disk == s.disk && op.path != []
    ensures op.Write? ==> Room(cfg, t, op) == Room(cfg, s, op)
  {
    hide Files, FileAt;
  }

  lemma ScanTurn(cfg: Config, start: State, s: State, i: nat, token: string)
    requires Invariant(cfg, start, s) && i < |s.tickets| && s.tickets[i].op.path != []
    requires s.tickets[i].phase.Scanning? && Lookup(s.root, Temporary(s.tickets[i].op.path, token)) == None
    ensures var t := Finishing(cfg, s, i, token); var op := s.tickets[i].op;
            && op.Write?
            && if Room(cfg, s, op) then Succeeds(s, t, i) && Invariant(cfg, start, t)
               else |t.tickets| == |s.tickets| && t.tickets[i].phase.Done? && t.tickets[i].phase.outcome.Failure?
                    && t == AtPhase(s, i, t.tickets[i].phase)
  {
    hide Invariant, Meets, Queue, Log, ReadersOk, Lookup, Temporary, Scan, Files, FileAt, Clean, WellFormed, Passable, Content;
    InvariantParts(cfg, start, s);
    assert TicketOk(cfg, s, s.tickets[i]);
    TicketKeeps(cfg, start, s, i, Io(true, token, []));
    ScanIff(s.root, s.disk, cfg.limits);
    var t := StepTicket(cfg, s, i, Io(true, token, []));
    if !t.tickets[i].phase.Done? { WriteFinishes(cfg, start, t, i, token); }
  }

  lemma UnlinkTurn(cfg: Config, start: State, s: State, i: nat, token: string)
    requires Invariant(cfg, start, s) && i < |s.tickets| && s.tickets[i].op.path != [] && s.tickets[i].phase.Unlinking?
    ensures Succeeds(s, Finishing(cfg, s, i, token), i) && Invariant(cfg, start, Finishing(cfg, s, i, token))
  {
    hide Invariant, Meets, Queue, Log, ReadersOk, Sound, Current, StepUnlinking, Changes, ValidPath;
    InvariantParts(cfg, start, s);
    assert TicketOk(cfg, s, s.tickets[i]);
    OpIsGood(cfg, s, i);
    UnlinkPublishes(cfg, s, i, Io(true, token, []));
    TicketKeeps(cfg, start, s, i, Io(true, token, []));
  }

  lemma ContentsAfterCommit(cfg: Config, start: State, s: State, t: State, i: nat)
    requires Invariant(cfg, start, s) && Invariant(cfg, start, t) && i < |s.tickets| && s.tickets[i].op.path != []
    requires t.log == s.log + [CommitOf(i, s.tickets[i].op)]
    ensures Changes(s, t, s.tickets[i].op.path, CommitOf(i, s.tickets[i].op).after)
  {
    hide Current, ValidPath, Sound, Queue, ReadersOk, TicketOk, LegalCommit, InLog;
    forall q: Path | ValidPath(q) ensures Current(t, q) == if q == s.tickets[i].op.path then CommitOf(i, s.tickets[i].op).after else Current(s, q) {
      ReplayedPrefix(start, s.log, [CommitOf(i, s.tickets[i].op)], |s.log|, q);
    }
  }
}
