/**
 * Every step of the live session keeps the data invariant.
 *
 * The proof follows the code. For each piece of it there is a relation that
 * says field by field what the piece does, and a predicate that says what has
 * to hold before it:
 *
 *   SameData    nothing the invariant speaks of, except that close may begin
 *   Base        a loop is about to leave: what holds whether or not it may
 *   CanStop     the loop ends here with nothing left to do
 *   CanDequeue  the drain loop takes the next change
 *   CanPush     an accepted change joins the queue
 *   Booting     an initialize frame is accepted
 *   CanOpen     the native session has started and is still wanted
 *   Moved       an activity moves to another await and nothing else changes
 *   CanRequest  a render asks for the next page
 *   CommitsTo   a whole document becomes the last good one
 *   SendsTo     one more message of the committed document goes out
 *   EditsTo     a change is sent to the engine
 *   AppliesTo   the engine has answered a change
 *
 * That the code does what its relation says is one lemma per relation. That
 * the relation keeps Order, Tasks, Buffered, Raster, Committed, Wire and
 * Settled is one lemma for each of these where it is not obvious. The last
 * section puts the lemmas together, event by event, and looks at no
 * definition but those of the steps themselves.
 */
module LiveSessionSteps {
  import opened Wrappers
  import opened SourceText
  import opened LiveSession
  import opened LiveSessionControl
  import opened LiveSessionData

  // ------------------------------------------------------------ small facts

  lemma EmitEffect(s: State, m: Message)
    ensures var r := Emit(s, m);
            && AppliedRevisions(r.emitted) == AppliedRevisions(s.emitted) + (if m.RevisionApplied? then [m.revision] else [])
            && Publications(r.emitted) == Publications(s.emitted) + (if IsPublication(m) then [m] else [])
            && (forall rev | ErrorReported(s.emitted, rev) :: ErrorReported(r.emitted, rev))
            && (m.CompileError? ==> ErrorReported(r.emitted, m.revision))
  {
    var r := Emit(s, m);
    assert r.emitted[..|r.emitted| - 1] == s.emitted;
    assert forall i | 0 <= i < |s.emitted| :: r.emitted[i] == s.emitted[i];
    assert r.emitted[|s.emitted|] == m;
  }

  /**
   * r differs from s only in what no part of the data invariant speaks of and
   * in further quiet messages, and may have begun to close.
   */
  ghost predicate SameData(s: State, r: State) {
    && s.initialized == r.initialized && s.initializing == r.initializing && s.processing == r.processing
    && ((s.closing == r.closing && s.queue == r.queue) || (r.closing && r.queue == []))
    && s.latestReceived == r.latestReceived && s.applied == r.applied && s.lastGood == r.lastGood
    && s.init == r.init && s.drain == r.drain
    && SameHistory(s.history, r.history)
    && SameEngine(s.session, r.session)
    && SameWire(s.emitted, r.emitted)
  }

  ghost predicate SameHistory(h: History, r: History) {
    h.initial == r.initial && h.firstRevision == r.firstRevision && h.accepted == r.accepted
    && h.dequeued == r.dequeued && h.appliedCount == r.appliedCount && h.settled == r.settled
    && h.commits == r.commits && h.progress == r.progress
  }

  ghost predicate SameEngine(e: Option<Engine>, r: Option<Engine>) {
    && e.Some? == r.Some?
    && (e.Some? ==> e.value.buffers == r.value.buffers && e.value.edits == r.value.edits
                    && (e.value.cache == r.value.cache || r.value.cache == map[]))
  }

  ghost predicate SameWire(m: seq<Message>, r: seq<Message>) {
    && AppliedRevisions(m) == AppliedRevisions(r)
    && Publications(m) == Publications(r)
    && forall rev | ErrorReported(m, rev) :: ErrorReported(r, rev)
  }

  lemma CommitsSame(h: History, r: History, c: Commit)
    requires h.firstRevision == r.firstRevision && h.accepted <= r.accepted && GoodCommit(h, c)
    ensures GoodCommit(r, c)
  {
  }

  lemma FrameOrder(s: State, r: State)
    requires Order(s) && SameData(s, r)
    ensures Order(r)
  {
  }

  lemma FrameTasks(s: State, r: State)
    requires Tasks(s) && SameData(s, r)
    ensures Tasks(r)
  {
  }

  lemma FrameBuffered(s: State, r: State)
    requires Buffered(s) && SameData(s, r)
    ensures Buffered(r)
  {
  }

  lemma FrameRaster(s: State, r: State)
    requires Raster(s) && SameData(s, r)
    ensures Raster(r)
  {
  }

  lemma FrameCommitted(s: State, r: State)
    requires Committed(s) && SameData(s, r)
    ensures Committed(r)
  {
  }

  lemma FrameWire(s: State, r: State)
    requires Wire(s) && SameData(s, r)
    ensures Wire(r)
  {
  }

  lemma FrameSettled(s: State, r: State)
    requires Settled(s) && SameData(s, r)
    ensures Settled(r)
  {
  }

  lemma FrameData(s: State, r: State)
    requires Good(s) && SameData(s, r)
    ensures Good(r)
  {
    hide Order, Tasks, Buffered, Raster, Committed, Wire, Settled, SameData;
    FrameOrder(s, r);
    FrameTasks(s, r);
    FrameBuffered(s, r);
    FrameRaster(s, r);
    FrameCommitted(s, r);
    FrameWire(s, r);
    FrameSettled(s, r);
  }

  // ------------------------------------------------------------- close path

  lemma BeginCloseGood(s: State, notify: bool)
    requires Good(s)
    ensures Good(BeginClose(s, notify))
  {
    hide Good, AppliedRevisions, Publications, ErrorReported;
    if !s.closing {
      var closing := s.(closing := true, queue := [], exitListener := false);
      EmitEffect(closing, SessionClosed);
      FrameData(s, BeginClose(s, notify));
    }
  }

  // ----------------------------------------------------- leaving an activity

  /** The data invariant but for convergence, which fails for an instant while a change is queued. */
  ghost predicate Base(s: State) {
    Order(s) && Tasks(s) && Buffered(s) && Raster(s) && Committed(s) && Wire(s)
  }

  function Stop(s: State, t: Task): State {
    if t.Init? then s.(initializing := false, init := Idle) else s.(processing := false, drain := Idle)
  }

  /** An activity may return normally here: nothing half applied, nothing half sent. */
  ghost predicate CanStop(s: State, t: Task) {
    && !PcOf(s, t).Idle? && Control(s)
    && (!s.closing ==> InFlight(PcOf(s, t)).None? && !PcOf(s, t).Failing? && !PcOf(s, t).Starting?)
    && (!s.closing && s.history.commits != [] ==>
          s.history.progress == |Burst(s.history.commits[|s.history.commits| - 1])|)
  }

  lemma StopOrder(s: State, t: Task)
    requires Order(s)
    ensures Order(Stop(s, t))
  {
  }

  lemma StopTasks(s: State, t: Task)
    requires Tasks(s) && Order(s) && CanStop(s, t)
    ensures Tasks(Stop(s, t))
  {
    hide Burst, Revisions, AppliedRevisions;
  }

  lemma StopBuffered(s: State, t: Task)
    requires Buffered(s) && Order(s) && Tasks(s) && CanStop(s, t)
    ensures Buffered(Stop(s, t))
  {
    hide Burst, Revisions, AppliedRevisions, Replay;
  }

  lemma StopRaster(s: State, t: Task)
    requires Raster(s)
    ensures Raster(Stop(s, t))
  {
  }

  lemma StopCommitted(s: State, t: Task)
    requires Committed(s)
    ensures Committed(Stop(s, t))
  {
  }

  lemma StopWire(s: State, t: Task)
    requires Wire(s) && CanStop(s, t)
    ensures Wire(Stop(s, t))
  {
    hide Burst, Bursts, Publications;
  }

  lemma StopBase(s: State, t: Task)
    requires Good(s) && CanStop(s, t)
    ensures Base(Stop(s, t))
  {
    hide Order, Tasks, Buffered, Raster, Committed, Wire, Settled, CanStop;
    StopOrder(s, t);
    StopTasks(s, t);
    StopBuffered(s, t);
    StopRaster(s, t);
    StopCommitted(s, t);
    StopWire(s, t);
  }

  lemma StopSettled(s: State, t: Task)
    requires Good(s) && CanStop(s, t) && (!s.closing ==> s.queue == [] && Shown(s))
    ensures Settled(Stop(s, t))
  {
    hide Order, Tasks, Buffered, Raster, Committed, Wire, Burst;
  }

  // ---------------------------------------------------------------- dequeue

  /** Nothing runs and a change is queued. */
  ghost predicate CanDequeue(s: State) {
    && Control(s) && !s.closing && s.initialized && !s.initializing && !s.processing && s.queue != []
  }

  lemma DequeueOrder(s: State)
    requires Order(s) && Tasks(s) && CanDequeue(s)
    ensures Order(Dequeue(s.(processing := true)))
  {
    EmitEffect(s, RevisionStarted(s.queue[0].revision, |s.queue| - 1));
  }

  lemma DequeueTasks(s: State)
    requires Order(s) && Tasks(s) && CanDequeue(s)
    ensures Tasks(Dequeue(s.(processing := true)))
  {
    hide Revisions, AppliedRevisions;
  }

  lemma DequeueBuffered(s: State)
    requires Order(s) && Tasks(s) && Buffered(s) && CanDequeue(s)
    ensures Buffered(Dequeue(s.(processing := true)))
  {
    hide Revisions, AppliedRevisions, Replay;
  }

  lemma DequeueRaster(s: State)
    requires Raster(s) && CanDequeue(s)
    ensures Raster(Dequeue(s.(processing := true)))
  {
  }

  lemma DequeueCommitted(s: State)
    requires Committed(s) && CanDequeue(s)
    ensures Committed(Dequeue(s.(processing := true)))
  {
  }

  lemma DequeueWire(s: State)
    requires Wire(s) && CanDequeue(s)
    ensures Wire(Dequeue(s.(processing := true)))
  {
    hide Burst, Bursts;
    EmitEffect(s, RevisionStarted(s.queue[0].revision, |s.queue| - 1));
  }

  lemma DequeueSettled(s: State)
    requires CanDequeue(s)
    ensures Settled(Dequeue(s.(processing := true)))
  {
  }

  lemma DequeueGood(s: State)
    requires Base(s) && CanDequeue(s)
    ensures Good(Dequeue(s.(processing := true)))
  {
    hide Order, Tasks, Buffered, Raster, Committed, Wire, Settled, CanDequeue, Dequeue;
    assert s.queue != [] by { QueueNotEmpty(s); }
    DequeueOrder(s);
    DequeueTasks(s);
    DequeueBuffered(s);
    DequeueRaster(s);
    DequeueCommitted(s);
    DequeueWire(s);
    DequeueSettled(s);
  }

  lemma QueueNotEmpty(s: State)
    requires CanDequeue(s)
    ensures s.queue != []
  {
  }

  // --------------------------------------------------- return and exceptions

  lemma ContinueGood(s: State, t: Task)
    requires Good(s) && CanStop(s, t)
    requires !s.closing ==> s.queue != [] || Shown(s)
    ensures Good(Continue(s, t))
  {
    hide Order, Tasks, Buffered, Raster, Committed, Wire, Settled, Shown, Dequeue;
    StopBase(s, t);
    ContinueCases(s, t);
    if s.closing || s.queue == [] {
      StopSettled(s, t);
    } else {
      DequeueGood(Stop(s, t));
    }
  }

  lemma ContinueCases(s: State, t: Task)
    requires CanStop(s, t) && Order(s)
    ensures s.closing || s.queue == [] ==> Continue(s, t) == Stop(s, t)
    ensures !s.closing && s.queue != [] ==>
              CanDequeue(Stop(s, t)) && Continue(s, t) == Dequeue(Stop(s, t).(processing := true))
  {
    hide Order, Burst;
    assert !s.closing && s.queue != [] ==> Control(Stop(s, t));
  }

  lemma ThrowGood(s: State, t: Task)
    requires Good(s) && Control(s) && !PcOf(s, t).Idle?
    requires !PcOf(s, t).Applying? && !PcOf(s, t).BadRange?
    ensures Good(Throw(s, t))
  {
    hide Order, Tasks, Buffered, Raster, Committed, Wire, Settled, Flags, Places, Lifecycle;
    if s.closing {
      StopBase(s, t);
      StopSettled(s, t);
      assert Throw(s, t) == Stop(s, t);
    } else {
      ThrowOrder(s, t);
      ThrowTasks(s, t);
      ThrowBuffered(s, t);
      ThrowRaster(s, t);
      ThrowCommitted(s, t);
      ThrowWire(s, t);
      ThrowSettled(s, t);
    }
  }

  lemma ThrowOrder(s: State, t: Task)
    requires Order(s) && !s.closing
    ensures Order(Throw(s, t))
  {
    hide AppliedRevisions, Publications, ErrorReported, Revisions, Increasing, InitFinally, DrainFinally;
    EmitEffect(Goto(s, t, Failing), SessionError);
  }

  lemma ThrowTasks(s: State, t: Task)
    requires Tasks(s) && Control(s) && !PcOf(s, t).Idle? && !s.closing
    ensures Tasks(Throw(s, t))
  {
    hide InitFinally, DrainFinally;
  }

  lemma ThrowBuffered(s: State, t: Task)
    requires Buffered(s) && Control(s) && !PcOf(s, t).Idle? && !s.closing
    requires !PcOf(s, t).Applying? && !PcOf(s, t).BadRange?
    ensures Buffered(Throw(s, t))
  {
    hide Replay, InitFinally, DrainFinally;
  }

  lemma ThrowRaster(s: State, t: Task)
    requires Raster(s) && !s.closing
    ensures Raster(Throw(s, t))
  {
    hide InitFinally, DrainFinally;
  }

  lemma ThrowCommitted(s: State, t: Task)
    requires Committed(s) && !s.closing
    ensures Committed(Throw(s, t))
  {
    hide InitFinally, DrainFinally;
  }

  lemma ThrowWire(s: State, t: Task)
    requires Wire(s) && !s.closing
    ensures Wire(Throw(s, t))
  {
    hide Burst, Bursts, AppliedRevisions, Publications, ErrorReported, InitFinally, DrainFinally;
    EmitEffect(Goto(s, t, Failing), SessionError);
  }

  lemma ThrowSettled(s: State, t: Task)
    requires Settled(s) && Control(s) && !PcOf(s, t).Idle? && !s.closing
    ensures Settled(Throw(s, t))
  {
    hide AppliedRevisions, Publications, ErrorReported, InitFinally, DrainFinally;
    EmitEffect(Goto(s, t, Failing), SessionError);
  }

  lemma CloseAndWaitGood(s: State, t: Task)
    requires Good(s) && Control(s) && (PcOf(s, t).BadRange? || PcOf(s, t).Failing?)
    ensures Good(Goto(BeginClose(s, true), t, WaitClosed))
  {
    hide Order, Tasks, Buffered, Raster, Committed, Wire, Settled, Control, BeginClose;
    BeginCloseGood(s, true);
    BeginCloseControl(s, true);
    BeginCloseKeepsPcs(s, true);
    WaitGood(BeginClose(s, true), t);
  }

  lemma BeginCloseKeepsPcs(s: State, notify: bool)
    ensures BeginClose(s, notify).init == s.init && BeginClose(s, notify).drain == s.drain
  {
  }

  lemma WaitGood(s: State, t: Task)
    requires Good(s) && Control(s) && s.closing && (PcOf(s, t).BadRange? || PcOf(s, t).Failing?)
    ensures Good(Goto(s, t, WaitClosed))
  {
    hide Order, Tasks, Buffered, Raster, Committed, Wire, Settled, Control;
    WaitOrder(s, t);
    WaitTasks(s, t);
    WaitBuffered(s, t);
    WaitRaster(s, t);
    WaitCommitted(s, t);
    WaitWire(s, t);
    WaitSettled(s, t);
  }

  lemma WaitOrder(s: State, t: Task)
    requires Order(s)
    ensures Order(Goto(s, t, WaitClosed))
  {
  }

  lemma WaitTasks(s: State, t: Task)
    requires Tasks(s) && s.closing
    ensures Tasks(Goto(s, t, WaitClosed))
  {
  }

  lemma WaitBuffered(s: State, t: Task)
    requires Buffered(s) && s.closing && (PcOf(s, t).BadRange? || PcOf(s, t).Failing?) && Control(s)
    ensures Buffered(Goto(s, t, WaitClosed))
  {
    hide Replay;
  }

  lemma WaitRaster(s: State, t: Task)
    requires Raster(s)
    ensures Raster(Goto(s, t, WaitClosed))
  {
  }

  lemma WaitCommitted(s: State, t: Task)
    requires Committed(s)
    ensures Committed(Goto(s, t, WaitClosed))
  {
  }

  lemma WaitWire(s: State, t: Task)
    requires Wire(s)
    ensures Wire(Goto(s, t, WaitClosed))
  {
  }

  lemma WaitSettled(s: State, t: Task)
    requires Settled(s) && s.closing
    ensures Settled(Goto(s, t, WaitClosed))
  {
  }

  /** The places an activity returns from. */
  predicate Returning(pc: Pc) {
    pc.ErrorSent? || pc.Coalesced? || Rendering(pc) || pc.AwaitComplete? || pc.Ready?
  }

  lemma CanStopNormally(s: State, t: Task)
    requires Good(s) && Control(s) && !PcOf(s, t).Idle?
    requires s.closing || Returning(PcOf(s, t))
    ensures CanStop(s, t)
  {
    hide Order, Tasks, Buffered, Raster, Settled, Bursts, Publications, GoodCommit;
  }

  // --------------------------------------------------------- change accepted

  function Push(s: State, c: Change): State {
    s.(latestReceived := c.revision, queue := s.queue + [c],
       history := s.history.(accepted := s.history.accepted + [c]))
  }

  ghost predicate CanPush(s: State, c: Change) {
    Control(s) && !s.closing && s.initialized && c.revision > s.latestReceived && |s.queue| < MAX_QUEUED_REVISIONS
  }

  lemma PushOrder(s: State, c: Change)
    requires Order(s) && CanPush(s, c)
    ensures Order(Push(s, c))
  {
    var h, g := s.history, Push(s, c).history;
    assert h.accepted[..h.appliedCount] == g.accepted[..h.appliedCount];
    assert s.queue + [c] == g.accepted[h.dequeued..];
    forall i | 0 <= i < |g.accepted|
      ensures RevisionAfter(g.firstRevision, g.accepted, i) < RevisionAfter(g.firstRevision, g.accepted, i + 1)
    {
      if i < |h.accepted| {
        assert RevisionAfter(h.firstRevision, h.accepted, i) < RevisionAfter(h.firstRevision, h.accepted, i + 1);
      }
    }
  }

  lemma PushTasks(s: State, c: Change)
    requires Order(s) && Tasks(s) && CanPush(s, c)
    ensures Tasks(Push(s, c))
  {
    hide Revisions, AppliedRevisions;
  }

  lemma PushBuffered(s: State, c: Change)
    requires Buffered(s) && CanPush(s, c)
    ensures Buffered(Push(s, c))
  {
    var h, e := s.history, s.session.value;
    assert h.accepted[..e.edits] == (h.accepted + [c])[..e.edits];
  }

  lemma PushRaster(s: State, c: Change)
    requires Raster(s)
    ensures Raster(Push(s, c))
  {
  }

  lemma PushCommitted(s: State, c: Change)
    requires Committed(s) && CanPush(s, c)
    ensures Committed(Push(s, c))
  {
    var h, g := s.history, Push(s, c).history;
    forall i | 0 <= i < |g.commits| ensures GoodCommit(g, g.commits[i]) {
      CommitsSame(h, g, h.commits[i]);
    }
    hide GoodCommit;
  }

  lemma PushWire(s: State, c: Change)
    requires Wire(s)
    ensures Wire(Push(s, c))
  {
  }

  lemma PushSettled(s: State, c: Change)
    requires Settled(s) && (s.initializing || s.processing)
    ensures Settled(Push(s, c))
  {
  }

  lemma PushBase(s: State, c: Change)
    requires Good(s) && CanPush(s, c)
    ensures Base(Push(s, c))
  {
    hide Order, Tasks, Buffered, Raster, Committed, Wire, Settled, CanPush;
    PushOrder(s, c);
    PushTasks(s, c);
    PushBuffered(s, c);
    PushRaster(s, c);
    PushCommitted(s, c);
    PushWire(s, c);
  }

  lemma RefuseGood(s: State, fatal: bool)
    requires Good(s)
    ensures Good(Refuse(s, fatal))
  {
    hide Good, AppliedRevisions, Publications, ErrorReported;
    EmitEffect(s.(handlers := s.handlers + [ProtocolFailure(fatal)]), ProtocolError(fatal));
    FrameData(s, Refuse(s, fatal));
  }

  lemma PushCases(s: State, c: Change)
    requires CanPush(s, c) && NormalizePath(c.path) in s.session.value.buffers
    ensures s.initializing || s.processing ==> HandleChange(s, c) == Push(s, c)
    ensures !s.initializing && !s.processing ==>
              CanDequeue(Push(s, c)) && HandleChange(s, c) == Dequeue(Push(s, c).(processing := true))
  {
    hide NormalizePath;
    if !s.initializing && !s.processing {
      QueueControl(s, Push(s, c));
    }
  }

  lemma HandleChangeGood(s: State, c: Change)
    requires Good(s) && Control(s) && !s.closing
    ensures Good(HandleChange(s, c))
  {
    hide Order, Tasks, Buffered, Raster, Committed, Wire, Settled, Flags, Places, Lifecycle, Refuse, Dequeue, DrainChanges, CanDequeue, NormalizePath;
    ControlFacts(s, Init);
    RefuseGood(s, true);
    RefuseGood(s, false);
    if s.initialized && c.revision > s.latestReceived && |s.queue| < MAX_QUEUED_REVISIONS
       && NormalizePath(c.path) in s.session.value.buffers {
      PushBase(s, c);
      PushCases(s, c);
      if s.initializing || s.processing {
        PushSettled(s, c);
      } else {
        DequeueGood(Push(s, c));
      }
    }
  }

  lemma HandleInitializeGood(s: State, revision: Revision, files: seq<(string, Text)>)
    requires Good(s) && Control(s) && !s.closing
    ensures Good(HandleInitialize(s, revision, files))
  {
    hide Order, Buffered, Raster, Committed, Wire, Settled, Refuse;
    RefuseGood(s, false);
    var r := HandleInitialize(s, revision, files);
    if !s.initialized && !s.initializing {
      BootOrder(s, r);
      BootRest(s, r);
    }
  }

  ghost predicate Booting(s: State, r: State) {
    && Control(s) && !s.closing && !s.initialized && !s.initializing && r.init.Starting?
    && r == s.(initializing := true, init := r.init)
  }

  lemma BootOrder(s: State, r: State)
    requires Order(s) && Tasks(s) && Booting(s, r)
    ensures Order(r) && Tasks(r)
  {
  }

  lemma BootRest(s: State, r: State)
    requires Buffered(s) && Raster(s) && Committed(s) && Wire(s) && Settled(s) && Booting(s, r)
    ensures Buffered(r) && Raster(r) && Committed(r) && Wire(r) && Settled(r)
  {
  }

  // -------------------------------------------------------------- start done

  function Opened(s: State, revision: Revision, files: seq<(string, Text)>, backend: Backend): State {
    StartSettled(s, revision, files, Some(backend))
  }

  ghost predicate CanOpen(s: State, revision: Revision, files: seq<(string, Text)>) {
    Control(s) && !s.closing && s.init == Starting(revision, files) && s.drain.Idle?
  }

  lemma OpenedOrder(s: State, revision: Revision, files: seq<(string, Text)>, backend: Backend)
    requires Order(s) && Tasks(s) && CanOpen(s, revision, files)
    ensures Order(Opened(s, revision, files, backend)) && Tasks(Opened(s, revision, files, backend))
  {
    hide BuffersOf;
    EmitEffect(s, SessionReady(revision));
    assert s.history.accepted[..0] == [];
  }

  lemma OpenedBuffered(s: State, revision: Revision, files: seq<(string, Text)>, backend: Backend)
    requires Order(s) && CanOpen(s, revision, files)
    ensures Buffered(Opened(s, revision, files, backend))
  {
    hide BuffersOf, AppliedRevisions, Revisions;
    assert s.history.accepted[..0] == [];
  }

  lemma OpenedRaster(s: State, revision: Revision, files: seq<(string, Text)>, backend: Backend)
    requires Raster(s) && CanOpen(s, revision, files)
    ensures Raster(Opened(s, revision, files, backend))
  {
    hide BuffersOf;
  }

  lemma OpenedWire(s: State, revision: Revision, files: seq<(string, Text)>, backend: Backend)
    requires Committed(s) && Wire(s) && CanOpen(s, revision, files)
    ensures Committed(Opened(s, revision, files, backend)) && Wire(Opened(s, revision, files, backend))
  {
    hide BuffersOf, GoodCommit;
    EmitEffect(s, SessionReady(revision));
  }

  lemma OpenedSettled(s: State, revision: Revision, files: seq<(string, Text)>, backend: Backend)
    requires CanOpen(s, revision, files)
    ensures Settled(Opened(s, revision, files, backend))
  {
    hide BuffersOf;
  }

  /** The start came too late: initialize() only closes it. */
  lemma LateStartGood(s: State, r: State)
    requires Good(s) && Control(s) && s.closing && s.init.Starting?
    requires r == s.(init := LateClosing, history := s.history.(starts := r.history.starts, closes := r.history.closes))
    ensures Good(r)
  {
    hide Order, Tasks, Buffered, Raster, Committed, Wire, Settled;
    LateStartOrder(s, r);
    LateStartRest(s, r);
  }

  lemma LateStartOrder(s: State, r: State)
    requires Order(s) && Tasks(s) && Control(s) && s.closing && s.init.Starting?
    requires r == s.(init := LateClosing, history := s.history.(starts := r.history.starts, closes := r.history.closes))
    ensures Order(r) && Tasks(r)
  {
  }

  lemma LateStartRest(s: State, r: State)
    requires Buffered(s) && Raster(s) && Committed(s) && Wire(s) && Settled(s) && Control(s) && s.closing && s.init.Starting?
    requires r == s.(init := LateClosing, history := s.history.(starts := r.history.starts, closes := r.history.closes))
    ensures Buffered(r) && Raster(r) && Committed(r) && Wire(r) && Settled(r)
  {
    hide GoodCommit, Burst, Bursts, Publications;
  }

  lemma StartSettledGood(s: State, backend: Option<Backend>)
    requires Good(s) && Control(s) && s.init.Starting?
    ensures Good(StartSettled(s, s.init.revision, s.init.files, backend))
  {
    hide Order, Tasks, Buffered, Raster, Committed, Wire, Settled, Throw, BuffersOf, Flags, Places, Lifecycle;
    var revision, files := s.init.revision, s.init.files;
    match backend {
      case None => ThrowGood(s, Init);
      case Some(b) =>
        if s.closing {
          LateStartGood(s, StartSettled(s, revision, files, backend));
        } else {
          IdleWhileInitializing(s);
          OpenedOrder(s, revision, files, b);
          OpenedBuffered(s, revision, files, b);
          OpenedRaster(s, revision, files, b);
          OpenedWire(s, revision, files, b);
          OpenedSettled(s, revision, files, b);
        }
    }
  }

  lemma IdleWhileInitializing(s: State)
    requires Control(s) && !s.init.Idle?
    ensures s.drain.Idle?
  {
  }

  // ------------------------------------------------------------ plain moves

  /** r is s with one activity moved on to a place that claims nothing new. */
  ghost predicate Moved(s: State, t: Task, r: State) {
    && Control(s) && !PcOf(s, t).Idle? && !PcOf(r, t).Idle?
    && SameData(if t.Init? then s.(init := r.init) else s.(drain := r.drain), r)
    && s.closing == r.closing && s.queue == r.queue
    && PlainPc(s, PcOf(s, t)) && PlainPc(r, PcOf(r, t))
    && (PcRevision(PcOf(r, t)).Some? ==> PcRevision(PcOf(r, t)).value == s.applied)
    && (BeforeCommit(PcOf(r, t)) && t.Init? ==> BeforeCommit(s.init))
    && (Rendering(PcOf(r, t)) ==> t.Init? || Rendering(s.drain))
  }

  predicate PlainPc(s: State, pc: Pc) {
    InFlight(pc).None? && !pc.Failing? && !pc.WaitClosed? && !Publishing(pc) && !pc.Coalesced?
    && !pc.Starting? && !pc.LateClosing?
  }

  lemma MovedGood(s: State, t: Task, r: State)
    requires Good(s) && Moved(s, t, r)
    requires r.session.Some? ==> RasterPc(PcOf(r, t), r.session.value)
    requires PcOf(r, t).ErrorSent? ==> ErrorReported(r.emitted, r.applied)
    ensures Good(r)
  {
    hide Order, Tasks, Buffered, Raster, Committed, Wire, Settled, Moved;
    MovedOrder(s, t, r);
    MovedTasks(s, t, r);
    MovedBuffered(s, t, r);
    MovedRaster(s, t, r);
    MovedCommitted(s, t, r);
    MovedWire(s, t, r);
    MovedSettled(s, t, r);
  }

  lemma MovedOrder(s: State, t: Task, r: State)
    requires Order(s) && Moved(s, t, r)
    ensures Order(r)
  {
  }

  lemma MovedTasks(s: State, t: Task, r: State)
    requires Tasks(s) && Moved(s, t, r)
    ensures Tasks(r)
  {
  }

  lemma MovedBuffered(s: State, t: Task, r: State)
    requires Buffered(s) && Moved(s, t, r)
    ensures Buffered(r)
  {
  }

  lemma MovedRaster(s: State, t: Task, r: State)
    requires Raster(s) && Moved(s, t, r)
    requires r.session.Some? ==> RasterPc(PcOf(r, t), r.session.value)
    ensures Raster(r)
  {
    hide GoodPages;
  }

  lemma MovedCommitted(s: State, t: Task, r: State)
    requires Committed(s) && Moved(s, t, r)
    ensures Committed(r)
  {
    forall i | 0 <= i < |r.history.commits| ensures GoodCommit(r.history, r.history.commits[i]) {
      CommitsSame(s.history, r.history, s.history.commits[i]);
    }
    hide GoodCommit;
  }

  lemma MovedWire(s: State, t: Task, r: State)
    requires Wire(s) && Moved(s, t, r)
    ensures Wire(r)
  {
    hide Burst, Bursts;
  }

  lemma MovedSettled(s: State, t: Task, r: State)
    requires Settled(s) && Moved(s, t, r)
    requires PcOf(r, t).ErrorSent? ==> ErrorReported(r.emitted, r.applied)
    ensures Settled(r)
  {
  }

  // ------------------------------------------------------- error reports

  lemma SendCompileErrorGood(s: State, t: Task, revision: Revision)
    requires Good(s) && Control(s) && s.initialized
    requires PcOf(s, t) == NotRendered(revision) || PcOf(s, t) == Ready(revision)
    ensures Good(SendCompileError(s, t, revision))
  {
    hide Order, Tasks, Buffered, Raster, Committed, Wire, Settled, AppliedRevisions, Publications, ErrorReported, Control;
    PcRevisionIsApplied(s, t);
    ControlFacts(s, t);
    EmitEffect(Goto(s, t, ErrorSent(revision)), CompileError(revision, s.lastGood));
    MovedGood(s, t, SendCompileError(s, t, revision));
  }

  // ----------------------------------------------------------------- render

  /** An activity is about to ask for the next page. */
  ghost predicate CanRequest(s: State, t: Task, revision: Revision, pages: seq<Page>) {
    && Control(s) && s.session.Some?
    && (PcOf(s, t).RenderPending? || PcOf(s, t).Ready? || PcOf(s, t).AwaitPage?)
    && revision == s.applied
    && GoodPages(pages, s.session.value.edits)
  }

  /** While an activity renders, the engine has exactly the applied edits and every cached raster shows them. */
  lemma CacheIsFreshWhileRendering(s: State, t: Task)
    requires Good(s) && Control(s) && s.session.Some?
    requires Rendering(PcOf(s, t)) || PcOf(s, t).Ready?
    ensures s.session.value.edits == s.history.appliedCount
    ensures FreshCache(s.session.value)
  {
    hide Wire, Committed, Settled, Replay, RasterPc, FreshCache, GoodCache, Revisions, AppliedRevisions;
  }

  lemma RequestPageGood(s: State, t: Task, revision: Revision, pages: seq<Page>)
    requires Good(s) && CanRequest(s, t, revision, pages)
    ensures Good(RequestPage(s, t, revision, pages))
  {
    hide Order, Tasks, Buffered, Raster, Committed, Wire, Settled, Control, GoodPages;
    ControlFacts(s, t);
    CacheIsFreshWhileRendering(s, t);
    MovedGood(s, t, RequestPage(s, t, revision, pages));
  }

  lemma StartRenderGood(s: State, t: Task, revision: Revision)
    requires Good(s) && Control(s)
    requires PcOf(s, t) == RenderPending(revision) || PcOf(s, t) == Ready(revision)
    ensures Good(StartRender(s, t, revision))
  {
    hide Order, Buffered, Raster, Committed, Wire, Settled, Control, Continue, RequestPage, CanStop;
    ControlFacts(s, t);
    if s.closing {
      CanStopNormally(s, t);
      ContinueGood(s, t);
    } else {
      RequestPageGood(s, t, revision, []);
    }
  }

  /** The newest change is still queued when a render finds itself out of date. */
  lemma OutdatedMeansQueued(s: State, t: Task)
    requires Good(s) && Control(s) && Rendering(PcOf(s, t)) && PcRevision(PcOf(s, t)).value != s.latestReceived
    requires !s.closing
    ensures s.queue != []
  {
    hide Buffered, Raster, Committed, Wire, Settled, Publications, AppliedRevisions, Revisions;
  }

  lemma AbandonGood(s: State, t: Task)
    requires Good(s) && Control(s) && Rendering(PcOf(s, t)) && PcRevision(PcOf(s, t)).value != s.latestReceived
    ensures Good(Continue(s, t))
  {
    hide Good, Control, Continue, CanStop;
    CanStopNormally(s, t);
    if !s.closing { OutdatedMeansQueued(s, t); }
    ContinueGood(s, t);
  }

  lemma CountPagesGood(s: State, t: Task)
    requires Good(s) && Control(s) && s.session.Some? && PcOf(s, t).AwaitPage?
    ensures Good(Goto(s, t, AwaitCount(PcOf(s, t).revision, PcOf(s, t).pages)))
  {
    hide Order, Buffered, Committed, Wire, Settled, Control, GoodPages;
    MovedGood(s, t, Goto(s, t, AwaitCount(PcOf(s, t).revision, PcOf(s, t).pages)));
  }

  lemma BytesOfAppend(pages: seq<Page>, page: Page)
    ensures Bytes(pages + [page]) == Bytes(pages) + page.size
  {
    assert (pages + [page])[..|pages|] == pages;
  }

  lemma KeepPageGood(s: State, t: Task, page: Page)
    requires Good(s) && Control(s) && s.session.Some? && PcOf(s, t).AwaitPage?
    requires page.number == |PcOf(s, t).pages| && page.edits == s.session.value.edits
    ensures Good(KeepPage(s, t, PcOf(s, t).revision, PcOf(s, t).pages, page))
  {
    hide Order, Tasks, Buffered, Committed, Wire, Settled, Control, Continue, RequestPage, CommitDocument, Bytes, FreshCache, GoodCache;
    var pc := PcOf(s, t);
    CountPagesGood(s, t);
    PcRevisionIsApplied(s, t);
    if |pc.pages| < MAX_PAGES && page.size <= MAX_PAGE_BYTES && Bytes(pc.pages) + page.size <= MAX_DOCUMENT_BYTES {
      BytesOfAppend(pc.pages, page);
      if pc.revision != s.latestReceived {
        AbandonGood(s, t);
      } else {
        RequestPageGood(s, t, pc.revision, pc.pages + [page]);
      }
    }
  }

  lemma PcRevisionIsApplied(s: State, t: Task)
    requires Tasks(s) && PcRevision(PcOf(s, t)).Some?
    ensures PcRevision(PcOf(s, t)).value == s.applied
  {
  }

  function Cached(s: State, page: Page): State
    requires s.session.Some?
  {
    var engine := s.session.value;
    s.(session := Some(engine.(cache := engine.cache[page.number := page])))
  }

  lemma CachedGood(s: State, page: Page)
    requires Good(s) && s.session.Some? && page.edits == s.session.value.edits
    ensures Good(Cached(s, page))
  {
    hide Order, Tasks, Buffered, Raster, Committed, Wire, Settled;
    CachedOrder(s, page);
    CachedRaster(s, page);
    CachedRest(s, page);
  }

  lemma CachedOrder(s: State, page: Page)
    requires Order(s) && Tasks(s) && s.session.Some?
    ensures Order(Cached(s, page)) && Tasks(Cached(s, page))
  {
  }

  lemma CachedRaster(s: State, page: Page)
    requires Raster(s) && s.session.Some? && page.edits == s.session.value.edits
    ensures Raster(Cached(s, page))
  {
    hide GoodPages;
  }

  lemma CachedRest(s: State, page: Page)
    requires Buffered(s) && Committed(s) && Wire(s) && Settled(s) && s.session.Some?
    ensures Buffered(Cached(s, page)) && Committed(Cached(s, page)) && Wire(Cached(s, page)) && Settled(Cached(s, page))
  {
    hide GoodCommit, Burst, Bursts, Replay, Publications;
  }

  lemma PageArrivedGood(s: State, t: Task, size: Option<nat>)
    requires Good(s) && Control(s) && s.session.Some? && PcOf(s, t).AwaitPage?
    ensures Good(PageArrived(s, t, PcOf(s, t), size))
  {
    hide Order, Tasks, Buffered, Committed, Wire, Settled, Flags, Places, Lifecycle, KeepPage, GoodPages, FreshCache, GoodCache;
    var pc := PcOf(s, t);
    match pc.hit {
      case Some(page) => KeepPageGood(s, t, page);
      case None =>
        match size {
          case None => CountPagesGood(s, t);
          case Some(bytes) =>
            var page := Page(|pc.pages|, bytes, pc.asked);
            CachedGood(s, page);
            FrameControl(s, Cached(s, page));
            KeepPageGood(Cached(s, page), t, page);
        }
    }
  }

  // ----------------------------------------------------------------- commit

  ghost predicate CanCommit(s: State, t: Task, revision: Revision, pages: seq<Page>) {
    && Control(s) && s.session.Some? && PcOf(s, t) == AwaitCount(revision, pages)
    && 0 < |pages| < MAX_PAGES && revision == s.latestReceived
  }

  /** What a commit changes, field by field. */
  ghost predicate CommitsTo(s: State, t: Task, revision: Revision, pages: seq<Page>, r: State) {
    && s.initialized == r.initialized && s.initializing == r.initializing && s.processing == r.processing
    && s.closing == r.closing && s.queue == r.queue && s.session == r.session && s.session.Some?
    && s.latestReceived == r.latestReceived && s.applied == r.applied && r.lastGood == Some(revision)
    && (if t.Init? then r.drain == s.drain && r.init == AwaitDocument(revision, pages)
        else r.init == s.init && r.drain == AwaitDocument(revision, pages))
    && r.history == s.history.(commits := s.history.commits + [Commit(revision, revision, s.session.value.edits, pages)], progress := 1)
    && AppliedRevisions(r.emitted) == AppliedRevisions(s.emitted)
    && Publications(r.emitted) == Publications(s.emitted) + [Document(revision, pages)]
  }

  lemma CommitShape(s: State, t: Task, revision: Revision, pages: seq<Page>)
    requires s.session.Some? && revision == s.latestReceived
    ensures CommitsTo(s, t, revision, pages, CommitDocument(s, t, revision, pages))
  {
    hide Continue, AppliedRevisions, Publications, ErrorReported;
    EmitEffect(s, Document(revision, pages));
  }

  lemma CommitOrder(s: State, t: Task, revision: Revision, pages: seq<Page>, r: State)
    requires Order(s) && s.session.Some? && CommitsTo(s, t, revision, pages, r)
    ensures Order(r)
  {
  }

  lemma CommitTasks(s: State, t: Task, revision: Revision, pages: seq<Page>, r: State)
    requires Tasks(s) && CanCommit(s, t, revision, pages) && CommitsTo(s, t, revision, pages, r)
    ensures Tasks(r)
  {
    hide Control;
  }

  lemma CommitRaster(s: State, t: Task, revision: Revision, pages: seq<Page>, r: State)
    requires Buffered(s) && Raster(s) && CanCommit(s, t, revision, pages) && CommitsTo(s, t, revision, pages, r)
    ensures Buffered(r) && Raster(r)
  {
    hide GoodPages, Replay, AppliedRevisions, Publications;
  }

  lemma CommitCommitted(s: State, t: Task, revision: Revision, pages: seq<Page>, r: State)
    requires Order(s) && Tasks(s) && Committed(s) && CanCommit(s, t, revision, pages)
    requires GoodPages(pages, s.session.value.edits) && s.session.value.edits == s.history.appliedCount
    requires CommitsTo(s, t, revision, pages, r)
    ensures Committed(r)
  {
    hide GoodPages, AppliedRevisions, Revisions, Publications, Increasing;
    var h, g := s.history, r.history;
    forall i | 0 <= i < |g.commits| ensures GoodCommit(g, g.commits[i]) {
      if i < |h.commits| { CommitsSame(h, g, h.commits[i]); }
    }
    CommitsIncrease(s, t, revision, pages);
  }

  lemma CommitsIncrease(s: State, t: Task, revision: Revision, pages: seq<Page>)
    requires Committed(s) && CanCommit(s, t, revision, pages) && s.session.value.edits == s.history.appliedCount
    ensures forall i | 0 <= i < |s.history.commits| :: s.history.commits[i].edits < s.history.appliedCount
  {
    hide GoodCommit;
  }

  lemma CommitWire(s: State, t: Task, revision: Revision, pages: seq<Page>, r: State)
    requires Wire(s) && CanCommit(s, t, revision, pages) && CommitsTo(s, t, revision, pages, r)
    ensures Wire(r)
  {
    hide Control, AppliedRevisions, Publications, Bursts, Burst, Wire, Broken, CanCommit;
    CommitWhole(s, t, revision, pages);
    BurstBegins(s.history.commits, r.history.commits[|s.history.commits|]);
    WireAfterFirst(r);
  }

  lemma BurstBegins(before: seq<Commit>, c: Commit)
    ensures (before + [c])[..|before|] == before && Burst(c)[..1] == [Document(c.revision, c.pages)]
  {
    hide PageMessages;
  }

  lemma WireAfterFirst(r: State)
    requires r.history.commits != [] && r.history.progress == 1 && (Publishing(r.init) || Publishing(r.drain))
    requires var h := r.history; var last := h.commits[|h.commits| - 1];
             Publications(r.emitted) == Bursts(h.commits[..|h.commits| - 1]) + Burst(last)[..1]
    ensures Wire(r)
  {
    hide Publications, Bursts, Burst, Broken;
  }

  lemma CommitWhole(s: State, t: Task, revision: Revision, pages: seq<Page>)
    requires Wire(s) && CanCommit(s, t, revision, pages)
    ensures Publications(s.emitted) == Bursts(s.history.commits)
  {
  }

  lemma CommitSettled(s: State, t: Task, revision: Revision, pages: seq<Page>, r: State)
    requires CanCommit(s, t, revision, pages) && CommitsTo(s, t, revision, pages, r)
    ensures Settled(r)
  {
  }

  lemma CommitGood(s: State, t: Task, revision: Revision, pages: seq<Page>)
    requires Good(s) && CanCommit(s, t, revision, pages)
    ensures Good(CommitDocument(s, t, revision, pages))
  {
    hide Order, Tasks, Buffered, Committed, Wire, Settled, CommitDocument, Control, GoodPages, FreshCache, GoodCache, CommitsTo;
    var r := CommitDocument(s, t, revision, pages);
    CommitShape(s, t, revision, pages);
    CacheIsFreshWhileRendering(s, t);
    CommitOrder(s, t, revision, pages, r);
    CommitTasks(s, t, revision, pages, r);
    CommitRaster(s, t, revision, pages, r);
    CommitCommitted(s, t, revision, pages, r);
    CommitWire(s, t, revision, pages, r);
    CommitSettled(s, t, revision, pages, r);
  }

  lemma CountArrivedGood(s: State, t: Task, count: Option<nat>)
    requires Good(s) && Control(s) && PcOf(s, t).AwaitCount?
    ensures Good(CountArrived(s, t, PcOf(s, t).revision, PcOf(s, t).pages, count))
  {
    hide Good, Flags, Places, Lifecycle, Throw, Continue;
    ControlFacts(s, t);
    var pc := PcOf(s, t);
    ThrowGood(s, t);
    if |pc.pages| < MAX_PAGES && count == Some(|pc.pages|) && |pc.pages| > 0 {
      if pc.revision != s.latestReceived {
        AbandonGood(s, t);
      } else {
        CommitGood(s, t, pc.revision, pc.pages);
      }
    }
  }

  // ---------------------------------------------------------- page messages

  ghost predicate CanSend(s: State, t: Task, revision: Revision, pages: seq<Page>, index: nat) {
    && Control(s) && s.session.Some? && Publishing(PcOf(s, t)) && revision == s.applied
    && index <= |pages| && CurrentCommit(s.history, revision, pages) && s.history.progress == index + 1
  }

  ghost predicate SendsTo(s: State, t: Task, revision: Revision, pages: seq<Page>, index: nat, r: State) {
    && s.initialized == r.initialized && s.initializing == r.initializing && s.processing == r.processing
    && s.closing == r.closing && s.queue == r.queue && s.session == r.session
    && s.latestReceived == r.latestReceived && s.applied == r.applied && r.lastGood == s.lastGood
    && (if t.Init? then r.drain == s.drain && r.init == NextPc(revision, pages, index)
        else r.init == s.init && r.drain == NextPc(revision, pages, index))
    && r.history == s.history.(progress := s.history.progress + 1)
    && AppliedRevisions(r.emitted) == AppliedRevisions(s.emitted)
    && Publications(r.emitted) == Publications(s.emitted) + [NextSend(revision, pages, index)]
  }

  lemma SendShape(s: State, t: Task, revision: Revision, pages: seq<Page>, index: nat)
    ensures SendsTo(s, t, revision, pages, index, SendFrom(s, t, revision, pages, index))
  {
    hide AppliedRevisions, Publications, ErrorReported;
    EmitEffect(s, NextSend(revision, pages, index));
  }

  lemma SendOrder(s: State, t: Task, revision: Revision, pages: seq<Page>, index: nat, r: State)
    requires Order(s) && SendsTo(s, t, revision, pages, index, r)
    ensures Order(r)
  {
  }

  lemma SendTasks(s: State, t: Task, revision: Revision, pages: seq<Page>, index: nat, r: State)
    requires Tasks(s) && CanSend(s, t, revision, pages, index) && SendsTo(s, t, revision, pages, index, r)
    ensures Tasks(r)
  {
    hide Control;
  }

  lemma SendRaster(s: State, t: Task, revision: Revision, pages: seq<Page>, index: nat, r: State)
    requires Buffered(s) && Raster(s) && CanSend(s, t, revision, pages, index) && SendsTo(s, t, revision, pages, index, r)
    ensures Buffered(r) && Raster(r)
  {
    hide GoodPages, Replay, AppliedRevisions, Publications;
  }

  lemma SendCommitted(s: State, t: Task, revision: Revision, pages: seq<Page>, index: nat, r: State)
    requires Committed(s) && CanSend(s, t, revision, pages, index) && SendsTo(s, t, revision, pages, index, r)
    ensures Committed(r)
  {
    hide AppliedRevisions, Publications;
    forall i | 0 <= i < |r.history.commits| ensures GoodCommit(r.history, r.history.commits[i]) {
      CommitsSame(s.history, r.history, s.history.commits[i]);
    }
    hide GoodCommit;
  }

  lemma SendWire(s: State, t: Task, revision: Revision, pages: seq<Page>, index: nat, r: State)
    requires Wire(s) && CanSend(s, t, revision, pages, index) && SendsTo(s, t, revision, pages, index, r)
    ensures Wire(r)
  {
    hide Control, AppliedRevisions, Publications, Bursts;
    var last := Burst(s.history.commits[|s.history.commits| - 1]);
    assert last[index + 1] == NextSend(revision, pages, index);
    assert last[..index + 2] == last[..index + 1] + [last[index + 1]];
  }

  lemma SendSettledState(s: State, t: Task, revision: Revision, pages: seq<Page>, index: nat, r: State)
    requires CanSend(s, t, revision, pages, index) && SendsTo(s, t, revision, pages, index, r)
    ensures Settled(r)
  {
  }

  lemma SendFromGood(s: State, t: Task, revision: Revision, pages: seq<Page>, index: nat)
    requires Good(s) && CanSend(s, t, revision, pages, index)
    ensures Good(SendFrom(s, t, revision, pages, index))
  {
    hide Order, Tasks, Buffered, Raster, Committed, Wire, Settled, SendFrom, SendsTo, CanSend;
    var r := SendFrom(s, t, revision, pages, index);
    SendShape(s, t, revision, pages, index);
    SendOrder(s, t, revision, pages, index, r);
    SendTasks(s, t, revision, pages, index, r);
    SendRaster(s, t, revision, pages, index, r);
    SendCommitted(s, t, revision, pages, index, r);
    SendWire(s, t, revision, pages, index, r);
    SendSettledState(s, t, revision, pages, index, r);
  }

  /** A whole burst shows the applied revision. */
  lemma PublishedMeansShown(s: State, t: Task)
    requires Good(s) && Control(s) && Publishing(PcOf(s, t))
    ensures s.lastGood == Some(s.applied)
    ensures s.history.commits != []
  {
    hide Buffered, Raster, Wire, Settled, GoodCommit, Increasing;
  }

  // ------------------------------------------------------------------- edits

  lemma ReplayStep(initial: Buffers, accepted: seq<Change>, k: nat)
    requires k < |accepted|
    ensures Replay(initial, accepted[..k + 1]) ==
            match Replay(initial, accepted[..k]) { case None => None case Some(b) => EditBuffers(b, accepted[k]) }
  {
    assert accepted[..k + 1][..k] == accepted[..k];
  }

  ghost predicate EditsTo(s: State, c: Change, r: State) {
    && s.initialized == r.initialized && s.initializing == r.initializing && s.processing == r.processing
    && s.closing == r.closing && s.queue == r.queue && s.init == r.init && s.session.Some? && r.session.Some?
    && s.latestReceived == r.latestReceived && s.applied == r.applied && r.lastGood == s.lastGood
    && r.history == s.history && r.emitted == s.emitted && r.drain.Applying? && r.drain.change == c
    && r.session.value.cache == s.session.value.cache
    && r.session.value.edits == s.session.value.edits + (if r.drain.sent then 1 else 0)
    && (if r.drain.sent then EditBuffers(s.session.value.buffers, c) == Some(r.session.value.buffers)
        else r.session.value.buffers == s.session.value.buffers)
  }

  lemma EditShape(s: State, c: Change)
    requires s.session.Some?
    ensures EditsTo(s, c, SendEditSegment(s, c))
  {
    hide SliceEdit, NormalizePath, EditBuffers;
    var e := s.session.value;
    match SendEdit(e, c)
    case None =>
      assert SendEditSegment(s, c) == s.(drain := Applying(c, false));
    case Some(f) =>
      assert SendEditSegment(s, c) == s.(drain := Applying(c, true), session := Some(f));
  }

  lemma EditOrder(s: State, c: Change, r: State)
    requires Order(s) && EditsTo(s, c, r)
    ensures Order(r)
  {
    hide EditBuffers;
  }

  lemma EditTasks(s: State, c: Change, r: State)
    requires Tasks(s) && s.drain == Started(c) && EditsTo(s, c, r)
    ensures Tasks(r)
  {
    hide EditBuffers;
  }

  lemma EditBuffered(s: State, c: Change, r: State)
    requires Order(s) && Tasks(s) && Buffered(s) && s.drain == Started(c) && EditsTo(s, c, r)
    ensures Buffered(r)
  {
    hide EditBuffers, Replay, Increasing, AppliedRevisions, Revisions;
    ReplayStep(s.history.initial, s.history.accepted, s.history.appliedCount);
  }

  lemma EditRaster(s: State, c: Change, r: State)
    requires Raster(s) && Buffered(s) && Control(s) && s.drain == Started(c) && EditsTo(s, c, r)
    ensures Raster(r)
  {
    hide EditBuffers, Replay, GoodPages;
  }

  lemma EditRest(s: State, c: Change, r: State)
    requires Committed(s) && Wire(s) && Settled(s) && Control(s) && s.drain == Started(c) && EditsTo(s, c, r)
    ensures Committed(r) && Wire(r) && Settled(r)
  {
    hide EditBuffers, GoodCommit, Burst, Bursts, Publications;
  }

  lemma SendEditGood(s: State, c: Change)
    requires Good(s) && Control(s) && s.session.Some? && s.drain == Started(c)
    ensures Good(SendEditSegment(s, c))
  {
    hide Order, Tasks, Buffered, Raster, Committed, Wire, Settled, SendEditSegment, EditsTo, Control;
    var r := SendEditSegment(s, c);
    EditShape(s, c);
    EditOrder(s, c, r);
    EditTasks(s, c, r);
    EditBuffered(s, c, r);
    EditRaster(s, c, r);
    EditRest(s, c, r);
  }

  // ------------------------------------------------------------ flush settled

  lemma RejectGood(s: State, r: State)
    requires Good(s) && Control(s) && s.drain.Applying?
    requires SameData(s.(drain := BadRange(s.drain.change)), r) && r.queue == s.queue && r.closing == s.closing
    ensures Good(r)
  {
    hide Order, Tasks, Buffered, Raster, Committed, Wire, Settled;
    var b := s.(drain := BadRange(s.drain.change));
    RejectOrder(s, b);
    RejectRest(s, b);
    FrameData(b, r);
  }

  lemma RejectOrder(s: State, b: State)
    requires Order(s) && Tasks(s) && Buffered(s) && s.drain.Applying? && b == s.(drain := BadRange(s.drain.change))
    ensures Order(b) && Tasks(b) && Buffered(b)
  {
    hide Replay, Revisions, AppliedRevisions;
  }

  lemma RejectRest(s: State, b: State)
    requires Raster(s) && Committed(s) && Wire(s) && Settled(s) && Control(s)
    requires s.drain.Applying? && b == s.(drain := BadRange(s.drain.change))
    ensures Raster(b) && Committed(b) && Wire(b) && Settled(b)
  {
    hide GoodCommit, Burst, Bursts, Publications, GoodPages;
  }

  /** What a flush that succeeded changes, field by field. */
  ghost predicate AppliesTo(s: State, outcome: Outcome, r: State) {
    && s.drain.Applying? && s.session.Some? && r.session.Some?
    && s.initialized == r.initialized && s.initializing == r.initializing && s.processing == r.processing
    && s.closing == r.closing && s.queue == r.queue && s.init == r.init
    && s.latestReceived == r.latestReceived && r.applied == s.drain.change.revision && r.lastGood == s.lastGood
    && r.history == s.history.(appliedCount := s.history.appliedCount + 1, settled := outcome)
    && r.session.value.edits == s.session.value.edits && r.session.value.buffers == s.session.value.buffers
    && (r.session.value.cache == map[] || (outcome.LatexError? && r.session.value.cache == s.session.value.cache))
    && AppliedRevisions(r.emitted) == AppliedRevisions(s.emitted) + [s.drain.change.revision]
    && Publications(r.emitted) == Publications(s.emitted)
    && r.drain == PcFor(PlanFor(s, outcome), s.drain.change.revision)
  }

  lemma SettleShape(s: State, outcome: Outcome)
    requires s.drain.Applying? && s.session.Some?
    ensures AppliesTo(s, outcome, Settle(s, s.drain.change, Some(outcome)))
  {
    hide AppliedRevisions, Publications, ErrorReported;
    EmitEffect(s, RevisionApplied(s.drain.change.revision, PlanFor(s, outcome), |s.queue|));
  }

  lemma RevisionsStep(accepted: seq<Change>, k: nat)
    requires k < |accepted|
    ensures Revisions(accepted[..k + 1]) == Revisions(accepted[..k]) + [accepted[k].revision]
  {
    assert accepted[..k + 1][..k] == accepted[..k];
  }

  lemma ApplyOrder(s: State, outcome: Outcome, r: State)
    requires Order(s) && Tasks(s) && AppliesTo(s, outcome, r)
    ensures Order(r)
  {
    hide Revisions, AppliedRevisions, Publications;
    RevisionsStep(s.history.accepted, s.history.appliedCount);
  }

  lemma ApplyTasks(s: State, outcome: Outcome, r: State)
    requires Order(s) && Tasks(s) && Control(s) && AppliesTo(s, outcome, r)
    ensures Tasks(r)
  {
    hide Revisions, AppliedRevisions, Publications, Increasing;
  }

  lemma ApplyBuffered(s: State, outcome: Outcome, r: State)
    requires Order(s) && Tasks(s) && Buffered(s) && AppliesTo(s, outcome, r) && s.drain.sent
    ensures Buffered(r)
  {
    hide Revisions, AppliedRevisions, Publications, Increasing, Replay;
  }

  lemma ApplyRaster(s: State, outcome: Outcome, r: State)
    requires Raster(s) && Control(s) && AppliesTo(s, outcome, r)
    ensures Raster(r)
  {
    hide AppliedRevisions, Publications, GoodPages;
  }

  lemma ApplyCommitted(s: State, outcome: Outcome, r: State)
    requires Committed(s) && Control(s) && Tasks(s) && AppliesTo(s, outcome, r)
    ensures Committed(r)
  {
    hide AppliedRevisions, Publications;
    forall i | 0 <= i < |r.history.commits| ensures GoodCommit(r.history, r.history.commits[i]) {
      CommitsSame(s.history, r.history, s.history.commits[i]);
    }
    hide GoodCommit;
  }

  lemma ApplyWire(s: State, outcome: Outcome, r: State)
    requires Wire(s) && Control(s) && AppliesTo(s, outcome, r)
    ensures Wire(r)
  {
    hide AppliedRevisions, Publications, Burst, Bursts;
  }

  lemma ApplySettled(s: State, outcome: Outcome, r: State)
    requires Control(s) && AppliesTo(s, outcome, r)
    ensures Settled(r)
  {
    hide AppliedRevisions, Publications;
  }

  lemma SettleGood(s: State, outcome: Option<Outcome>)
    requires Good(s) && Control(s) && s.drain.Applying? && s.session.Some? && (outcome.Some? ==> s.drain.sent)
    ensures Good(Settle(s, s.drain.change, outcome))
  {
    hide Order, Tasks, Buffered, Raster, Committed, Wire, Settled, Control, AppliesTo, AppliedRevisions, Publications, ErrorReported;
    var r := Settle(s, s.drain.change, outcome);
    match outcome {
      case None =>
        EmitEffect(s.(drain := BadRange(s.drain.change)), ProtocolError(true));
        RejectGood(s, r);
      case Some(o) =>
        SettleShape(s, o);
        ApplyOrder(s, o, r);
        ApplyTasks(s, o, r);
        ApplyBuffered(s, o, r);
        ApplyRaster(s, o, r);
        ApplyCommitted(s, o, r);
        ApplyWire(s, o, r);
        ApplySettled(s, o, r);
    }
  }

  // ------------------------------------------------------------------- glue

  lemma ReturnGood(s: State, t: Task)
    requires Good(s) && Control(s)
    requires PcOf(s, t).ErrorSent? || PcOf(s, t).Coalesced? || PcOf(s, t).AwaitComplete?
    ensures Good(Continue(s, t))
  {
    hide Order, Buffered, Raster, Committed, Wire, Continue, CanStop, ErrorReported;
    CanStopNormally(s, t);
    if PcOf(s, t).AwaitComplete? { PublishedMeansShown(s, t); }
    ControlFacts(s, t);
    ContinueGood(s, t);
  }

  lemma SendingFacts(s: State, t: Task)
    requires Good(s) && Control(s)
    ensures PcOf(s, t).AwaitDocument? ==> CanSend(s, t, PcOf(s, t).revision, PcOf(s, t).pages, 0)
    ensures PcOf(s, t).AwaitPageSent? ==> CanSend(s, t, PcOf(s, t).revision, PcOf(s, t).pages, PcOf(s, t).index + 1)
  {
    hide Order, Buffered, Raster, Wire, Settled, GoodCommit;
  }

  lemma SendSettledGood(s: State, t: Task, ok: bool)
    requires Good(s) && Control(s)
    ensures Good(SendSettled(s, t, ok))
  {
    hide Good, Flags, Places, Lifecycle, CanSend, Throw, Continue, StartRender, SendFrom, SendEditSegment, SendCompileError, BeginClose;
    var pc := PcOf(s, t);
    ControlFacts(s, t);
    SendingFacts(s, t);
    if pc.BadRange? || pc.Failing? {
      CloseAndWaitGood(s, t);
    } else if !ok && !pc.Idle? && !pc.Applying? {
      ThrowGood(s, t);
    } else {
      match pc {
        case Started(c) => if s.session.Some? && t.Drain? { SendEditGood(s, c); }
        case NotRendered(revision) => SendCompileErrorGood(s, t, revision);
        case RenderPending(revision) => StartRenderGood(s, t, revision);
        case AwaitDocument(revision, pages) => SendFromGood(s, t, revision, pages, 0);
        case AwaitPageSent(revision, pages, i) => SendFromGood(s, t, revision, pages, i + 1);
        case ErrorSent(_) => ReturnGood(s, t);
        case Coalesced => ReturnGood(s, t);
        case AwaitComplete(_, _) => ReturnGood(s, t);
        case _ =>
      }
    }
  }

  lemma ReadySettledGood(s: State, ok: bool, status: Outcome)
    requires Good(s) && Control(s) && s.init.Ready?
    ensures Good(ReadySettled(s, s.init.revision, ok, status))
  {
    hide Good, Flags, Places, Lifecycle, Throw, StartRender, SendCompileError;
    ControlFacts(s, Init);
    ThrowGood(s, Init);
    StartRenderGood(s, Init, s.init.revision);
    SendCompileErrorGood(s, Init, s.init.revision);
  }

  lemma HandlerSettledGood(s: State, index: nat, ok: bool)
    requires Good(s)
    ensures Good(HandlerSettled(s, index, ok))
  {
    hide Good, BeginClose;
    if index < |s.handlers| {
      var rest := s.(handlers := s.handlers[..index] + s.handlers[index + 1..]);
      FrameData(s, rest);
      BeginCloseGood(rest, true);
      BeginCloseGood(rest, false);
    }
  }

  lemma NativeExitGood(s: State, reported: bool)
    requires Good(s)
    ensures Good(NativeExits(s, reported))
  {
    hide Good, AppliedRevisions, Publications, ErrorReported;
    if s.session.Some? {
      var dead := s.(session := Some(s.session.value.(alive := false)));
      EmitEffect(dead.(handlers := s.handlers + [NativeFailure]), SessionError);
      FrameData(s, NativeExits(s, reported));
    }
  }

  lemma ReapGood(s: State, e: Event)
    requires Good(s) && Control(s) && (e.SocketDown? || e.ClosedSent? || e.NativeClosed?)
    ensures Good(Step(s, e))
  {
    hide Good, AppliedRevisions, Publications, ErrorReported;
    FrameData(s, Step(s, e));
  }

  lemma WaitOverGood(s: State, t: Task)
    requires Good(s) && Control(s)
    ensures Good(Step(s, ClosedResolved(t))) && Good(Step(s, LateCloseDone))
  {
    hide Good, Continue, InitFinally, CanStop;
    if PcOf(s, t).WaitClosed? {
      CanStopNormally(s, t);
      ContinueGood(s, t);
    }
    if s.init.LateClosing? {
      CanStopNormally(s, Init);
      ContinueGood(s, Init);
      assert Continue(s, Init) == InitFinally(s) by { ContinueInit(s); }
    }
  }

  lemma ContinueInit(s: State)
    ensures Continue(s, Init) == InitFinally(s)
  {
  }

  lemma HandleFrameGood(s: State, e: Event)
    requires Good(s) && Control(s)
    ensures Good(HandleFrame(s, e))
  {
    hide Good, Control, Refuse, BeginClose, HandleInitialize, HandleChange;
    RefuseGood(s, true);
    RefuseGood(s, false);
    BeginCloseGood(s, true);
    if !s.closing && e.InitializeFrame? { HandleInitializeGood(s, e.revision, e.files); }
    if !s.closing && e.ChangeFrame? { HandleChangeGood(s, e.change); }
  }

  /** Every step of every activity keeps the data invariant. */
  lemma GoodStep(s: State, e: Event)
    requires Good(s) && Control(s)
    ensures Good(Step(s, e))
  {
    hide Good, Control, HandleFrame, StartSettled, ReadySettled, InitFinally, Continue, SendSettled, PageArrived, Settle,
         CountArrived, HandlerSettled, BeginClose, NativeExits, ReapNative;
    match e {
      case StartDone(backend) => if s.init.Starting? { StartSettledGood(s, backend); }
      case LateCloseDone => WaitOverGood(s, Init);
      case ReadySent(ok, status) => if s.init.Ready? { ReadySettledGood(s, ok, status); }
      case Sent(t, ok) => SendSettledGood(s, t, ok);
      case Flushed(outcome) =>
        if s.drain.Applying? && s.session.Some? { SettleGood(s, if s.drain.sent then outcome else None); }
      case PageDone(t, size) => if PcOf(s, t).AwaitPage? && s.session.Some? { PageArrivedGood(s, t, size); }
      case CountDone(t, count) => if PcOf(s, t).AwaitCount? { CountArrivedGood(s, t, count); }
      case HandlerSent(index, ok) => HandlerSettledGood(s, index, ok);
      case NativeExit(reported) => NativeExitGood(s, reported);
      case TimerFires => BeginCloseGood(s, true);
      case ServerShutdown => BeginCloseGood(s, true);
      case SocketDown => ReapGood(s, e);
      case SocketClosed =>
        ReapGood(s, SocketDown);
        BeginCloseGood(s.(socketOpen := false), false);
      case SocketError => BeginCloseGood(s, false);
      case ClosedSent => ReapGood(s, e);
      case NativeClosed => ReapGood(s, e);
      case ClosedResolved(t) => WaitOverGood(s, t);
      case _ => HandleFrameGood(s, e);
    }
  }
}
