/**
 * Control flow of the live session.
 *
 *   Flags      the flags agree with where the activities wait, initialisation
 *              and drain loop exclude each other, a closing session has an
 *              empty queue and no exit listener
 *   Places     each activity waits only where its own code can, and waits for
 *              the end of close only once close has begun
 *   Lifecycle  the native session is started at most once and closed exactly
 *              once, by close or, when it started too late, by initialize
 *
 * Each lemma takes one piece of code and shows that it keeps all three.
 */
module LiveSessionControl {
  import opened Wrappers
  import opened SourceText
  import opened LiveSession

  predicate InitPc(pc: Pc) {
    !pc.Started? && !pc.Applying? && !pc.BadRange? && !pc.NotRendered? && !pc.Coalesced? && !pc.RenderPending?
  }

  predicate DrainPc(pc: Pc) {
    !pc.Starting? && !pc.LateClosing? && !pc.Ready?
  }

  predicate BeforeStart(pc: Pc) {
    pc.Idle? || pc.Starting? || pc.LateClosing? || pc.Failing? || pc.WaitClosed?
  }

  predicate Flags(s: State) {
    && s.initializing == !s.init.Idle?
    && s.processing == !s.drain.Idle?
    && !(s.initializing && s.processing)
    && s.initialized == s.session.Some?
    && (s.processing ==> s.initialized)
    && (!s.initialized ==> s.queue == [])
    && s.closing == !s.closer.NotClosing?
    && (s.closing ==> s.queue == [])
    && s.exitListener == (s.initialized && !s.closing)
    && |s.queue| <= MAX_QUEUED_REVISIONS
  }

  predicate Places(s: State) {
    && InitPc(s.init) && DrainPc(s.drain)
    && (s.initialized ==> !s.init.Starting? && !s.init.LateClosing?)
    && (!s.initialized ==> BeforeStart(s.init))
    && (s.init.LateClosing? || s.init.WaitClosed? || s.drain.WaitClosed? ==> s.closing)
  }

  /** One start at most; one close per start, made by close() or, for a start that came too late, by initialize(). */
  predicate Lifecycle(s: State) {
    && s.history.starts <= 1
    && s.history.closes <= s.history.starts
    && (s.initialized ==> s.history.starts == 1)
    && (s.initialized ==> (s.history.closes == 1) == (s.closer.Reaping? || s.closer.Finished?))
    && (!s.initialized ==> s.history.closes == s.history.starts)
    && (!s.initialized && s.history.starts == 1 ==> s.closing && !s.init.Starting?)
    && s.history.closedCalls == if s.closer.Finished? then 1 else 0
  }

  predicate Control(s: State) {
    Flags(s) && Places(s) && Lifecycle(s)
  }

  lemma ControlFacts(s: State, t: Task)
    requires Control(s)
    ensures s.initialized == s.session.Some?
    ensures !BeforeStart(PcOf(s, t)) ==> s.initialized
    ensures if t.Init? then InitPc(PcOf(s, t)) else DrainPc(PcOf(s, t))
    ensures !PcOf(s, t).Idle? ==> if t.Init? then s.initializing else s.processing
  {
  }

  lemma BeginCloseControl(s: State, notify: bool)
    requires Control(s)
    ensures Control(BeginClose(s, notify)) && BeginClose(s, notify).closing
  {
  }

  /** The fields the control invariant speaks of; everything else may change freely. */
  predicate SameControl(s: State, r: State) {
    && s.initialized == r.initialized && s.initializing == r.initializing && s.processing == r.processing
    && s.closing == r.closing && s.queue == r.queue && s.session.Some? == r.session.Some?
    && s.exitListener == r.exitListener && s.init == r.init && s.drain == r.drain && s.closer == r.closer
    && s.history.starts == r.history.starts && s.history.closes == r.history.closes
    && s.history.closedCalls == r.history.closedCalls
  }

  lemma FrameControl(s: State, r: State)
    requires Control(s) && SameControl(s, r)
    ensures Control(r)
  {
  }

  lemma MoveControl(s: State, t: Task, pc: Pc)
    requires Control(s) && s.initialized && !PcOf(s, t).Idle?
    requires !pc.Idle? && !BeforeStart(pc) && (if t.Init? then InitPc(pc) else DrainPc(pc))
    ensures Control(Goto(s, t, pc))
  {
  }

  lemma SendCompileErrorControl(s: State, t: Task, revision: Revision)
    requires Control(s) && s.initialized && !PcOf(s, t).Idle?
    ensures Control(SendCompileError(s, t, revision))
  {
    hide Flags, Places, Lifecycle;
    MoveControl(s, t, ErrorSent(revision));
    FrameControl(Goto(s, t, ErrorSent(revision)), SendCompileError(s, t, revision));
  }

  lemma SendFromControl(s: State, t: Task, revision: Revision, pages: seq<Page>, index: nat)
    requires Control(s) && s.initialized && !PcOf(s, t).Idle?
    ensures Control(SendFrom(s, t, revision, pages, index))
  {
    hide Flags, Places, Lifecycle;
    MoveControl(s, t, NextPc(revision, pages, index));
    FrameControl(Goto(s, t, NextPc(revision, pages, index)), SendFrom(s, t, revision, pages, index));
  }

  lemma DrainChangesControl(s: State)
    requires Control(s)
    ensures Control(DrainChanges(s))
  {
  }

  lemma DrainFinallyControl(s: State)
    requires Control(s) && s.processing
    ensures Control(DrainFinally(s))
  {
    DrainChangesControl(s.(processing := false, drain := Idle));
    hide DrainChanges;
  }

  lemma ContinueControl(s: State, t: Task)
    requires Control(s) && !PcOf(s, t).Idle? && !PcOf(s, t).Starting?
    ensures Control(Continue(s, t))
  {
    if t.Init? {
      DrainChangesControl(s.(initializing := false, init := Idle));
      hide DrainChanges;
    } else {
      DrainFinallyControl(s);
      hide DrainFinally;
    }
  }

  lemma ThrowControl(s: State, t: Task)
    requires Control(s) && !PcOf(s, t).Idle?
    ensures Control(Throw(s, t))
  {
    if s.closing {
      if t.Init? {
      } else {
        DrainFinallyControl(s);
        hide DrainFinally;
      }
    }
  }

  lemma HandleChangeControl(s: State, c: Change)
    requires Control(s) && !s.closing
    ensures Control(HandleChange(s, c))
  {
    FrameControl(s, Refuse(s, true));
    FrameControl(s, Refuse(s, false));
    if s.session.Some? && |s.queue| < MAX_QUEUED_REVISIONS {
      var queued := s.(latestReceived := c.revision, queue := s.queue + [c],
                       history := s.history.(accepted := s.history.accepted + [c]));
      QueueControl(s, queued);
      DrainChangesControl(queued);
    }
    hide DrainChanges, Flags, Places, Lifecycle;
  }

  lemma QueueControl(s: State, r: State)
    requires Control(s) && !s.closing && s.initialized
    requires |r.queue| <= MAX_QUEUED_REVISIONS && SameControl(s.(queue := r.queue), r)
    ensures Control(r)
  {
  }

  lemma HandleFrameControl(s: State, e: Event)
    requires Control(s)
    ensures Control(HandleFrame(s, e))
  {
    hide HandleChange, BeginClose;
    FrameControl(s, Refuse(s, true));
    FrameControl(s, Refuse(s, false));
    BeginCloseControl(s, true);
    if !s.closing && e.ChangeFrame? { HandleChangeControl(s, e.change); }
  }

  lemma StartSettledControl(s: State, backend: Option<Backend>)
    requires Control(s) && s.init.Starting?
    ensures Control(StartSettled(s, s.init.revision, s.init.files, backend))
  {
    ThrowControl(s, Init);
    hide Throw, BuffersOf;
  }

  lemma StartRenderControl(s: State, t: Task, revision: Revision)
    requires Control(s) && !PcOf(s, t).Idle? && !PcOf(s, t).Starting?
    ensures Control(StartRender(s, t, revision))
  {
    ContinueControl(s, t);
    hide Continue;
  }

  lemma CommitControl(s: State, t: Task, revision: Revision, pages: seq<Page>)
    requires Control(s) && s.initialized && !PcOf(s, t).Idle? && !PcOf(s, t).Starting?
    ensures Control(CommitDocument(s, t, revision, pages))
  {
    ContinueControl(s, t);
    hide Continue;
  }

  lemma KeepPageControl(s: State, t: Task, revision: Revision, pages: seq<Page>, page: Page)
    requires Control(s) && s.initialized && !PcOf(s, t).Idle? && !PcOf(s, t).Starting?
    ensures Control(KeepPage(s, t, revision, pages, page))
  {
    hide Continue, CommitDocument, Bytes, Flags, Places, Lifecycle, Goto;
    ControlFacts(s, t);
    ContinueControl(s, t);
    CommitControl(s, t, revision, pages + [page]);
    MoveControl(s, t, AwaitCount(revision, pages));
    var n := |pages| + 1;
    var engine := s.session.value;
    MoveControl(s, t, AwaitPage(revision, pages + [page], if n in engine.cache then Some(engine.cache[n]) else None, engine.edits));
  }

  lemma PageArrivedControl(s: State, t: Task, size: Option<nat>)
    requires Control(s) && PcOf(s, t).AwaitPage? && s.session.Some?
    ensures Control(PageArrived(s, t, PcOf(s, t), size))
  {
    var pc := PcOf(s, t);
    match pc.hit {
      case Some(page) => KeepPageControl(s, t, pc.revision, pc.pages, page);
      case None =>
        if size.Some? {
          var page := Page(|pc.pages|, size.value, pc.asked);
          var engine := s.session.value;
          var cached := s.(session := Some(engine.(cache := engine.cache[page.number := page])));
          KeepPageControl(cached, t, pc.revision, pc.pages, page);
        }
    }
    hide KeepPage;
  }

  lemma CloseAndWaitControl(s: State, t: Task)
    requires Control(s) && !PcOf(s, t).Idle?
    ensures Control(Goto(BeginClose(s, true), t, WaitClosed))
  {
    BeginCloseControl(s, true);
    var c := BeginClose(s, true);
    assert PcOf(c, t) == PcOf(s, t);
    assert c.initialized == s.initialized;
    hide BeginClose;
  }

  lemma SendEditControl(s: State, c: Change)
    requires Control(s) && s.session.Some? && s.drain.Started?
    ensures Control(SendEditSegment(s, c))
  {
    hide SendEdit;
  }

  lemma SendSettledControl(s: State, t: Task, ok: bool)
    requires Control(s)
    ensures Control(SendSettled(s, t, ok))
  {
    hide Flags, Places, Lifecycle, Throw, Continue, StartRender, SendFrom, SendEditSegment, SendCompileError, BeginClose, Goto, Emit;
    var pc := PcOf(s, t);
    ControlFacts(s, t);
    if pc.Idle? || pc.Starting? || pc.LateClosing? {
    } else if pc.BadRange? || pc.Failing? {
      CloseAndWaitControl(s, t);
    } else if pc.Ready? || pc.WaitClosed? || pc.AwaitPage? || pc.AwaitCount? || pc.Applying? {
    } else {
      ThrowControl(s, t);
      ContinueControl(s, t);
      match pc {
        case Started(c) => SendEditControl(s, c);
        case NotRendered(revision) => SendCompileErrorControl(s, t, revision);
        case RenderPending(revision) => StartRenderControl(s, t, revision);
        case AwaitDocument(revision, pages) => SendFromControl(s, t, revision, pages, 0);
        case AwaitPageSent(revision, pages, i) => SendFromControl(s, t, revision, pages, i + 1);
        case _ =>
      }
    }
  }

  lemma HandlerSettledControl(s: State, index: nat, ok: bool)
    requires Control(s)
    ensures Control(HandlerSettled(s, index, ok))
  {
    if index < |s.handlers| {
      var rest := s.(handlers := s.handlers[..index] + s.handlers[index + 1..]);
      BeginCloseControl(rest, true);
      BeginCloseControl(rest, false);
      hide BeginClose;
    }
  }

  lemma SettleControl(s: State, c: Change, outcome: Option<Outcome>)
    requires Control(s) && s.drain.Applying? && s.session.Some?
    ensures Control(Settle(s, c, outcome))
  {
    hide Flags, Places, Lifecycle, AppliedRevisions, Publications, SettleEdit;
    ControlFacts(s, Drain);
    var pc := match outcome
      case None => BadRange(c)
      case Some(o) => PcFor(PlanFor(s, o), c.revision);
    MoveControl(s, Drain, pc);
    FrameControl(Goto(s, Drain, pc), Settle(s, c, outcome));
  }

  lemma ReadySettledControl(s: State, ok: bool, status: Outcome)
    requires Control(s) && s.init.Ready?
    ensures Control(ReadySettled(s, s.init.revision, ok, status))
  {
    hide Flags, Places, Lifecycle, Throw, StartRender, SendCompileError;
    ThrowControl(s, Init);
    StartRenderControl(s, Init, s.init.revision);
    ControlFacts(s, Init);
    SendCompileErrorControl(s, Init, s.init.revision);
  }

  lemma CountArrivedControl(s: State, t: Task, count: Option<nat>)
    requires Control(s) && PcOf(s, t).AwaitCount?
    ensures Control(CountArrived(s, t, PcOf(s, t).revision, PcOf(s, t).pages, count))
  {
    hide Throw, CommitDocument, Flags, Places, Lifecycle;
    ControlFacts(s, t);
    ThrowControl(s, t);
    CommitControl(s, t, PcOf(s, t).revision, PcOf(s, t).pages);
  }

  lemma ReapControl(s: State)
    requires Control(s)
    ensures Control(Step(s, ClosedSent)) && Control(Step(s, NativeClosed))
    ensures Control(s.(socketOpen := false))
  {
  }

  lemma NativeExitControl(s: State, reported: bool)
    requires Control(s)
    ensures Control(NativeExits(s, reported))
  {
  }

  lemma WaitOverControl(s: State, t: Task)
    requires Control(s)
    ensures Control(Step(s, ClosedResolved(t)))
  {
    hide Continue, Flags, Places, Lifecycle;
    if PcOf(s, t).WaitClosed? { ContinueControl(s, t); }
  }

  lemma LateCloseControl(s: State)
    requires Control(s)
    ensures Control(Step(s, LateCloseDone))
  {
    hide InitFinally, Flags, Places, Lifecycle;
    if s.init.LateClosing? { ContinueControl(s, Init); }
  }

  /** Every step of every activity keeps the control invariant. */
  lemma ControlStep(s: State, e: Event)
    requires Control(s)
    ensures Control(Step(s, e))
  {
    hide HandleFrame, StartSettled, ReadySettled, InitFinally, Continue, SendSettled, PageArrived, Settle,
         CountArrived, HandlerSettled, BeginClose, NativeExits, ReapNative, Flags, Places, Lifecycle;
    match e {
      case StartDone(backend) => if s.init.Starting? { StartSettledControl(s, backend); }
      case LateCloseDone => LateCloseControl(s);
      case ReadySent(ok, status) => if s.init.Ready? { ReadySettledControl(s, ok, status); }
      case Sent(t, ok) => SendSettledControl(s, t, ok);
      case Flushed(outcome) =>
        if s.drain.Applying? && s.session.Some? { SettleControl(s, s.drain.change, if s.drain.sent then outcome else None); }
      case PageDone(t, size) => if PcOf(s, t).AwaitPage? && s.session.Some? { PageArrivedControl(s, t, size); }
      case CountDone(t, count) => if PcOf(s, t).AwaitCount? { CountArrivedControl(s, t, count); }
      case HandlerSent(index, ok) => HandlerSettledControl(s, index, ok);
      case NativeExit(reported) => NativeExitControl(s, reported);
      case TimerFires => BeginCloseControl(s, true);
      case ServerShutdown => BeginCloseControl(s, true);
      case SocketDown => ReapControl(s);
      case SocketClosed =>
        ReapControl(s);
        BeginCloseControl(s.(socketOpen := false), false);
      case SocketError => BeginCloseControl(s, false);
      case ClosedSent => ReapControl(s);
      case NativeClosed => ReapControl(s);
      case ClosedResolved(t) => WaitOverControl(s, t);
      case _ => HandleFrameControl(s, e);
    }
  }

  lemma {:induction false} ControlOfRun(events: seq<Event>)
    ensures Control(Run(events))
  {
    if events == [] {
    } else {
      ControlOfRun(events[..|events| - 1]);
      ControlStep(Run(events[..|events| - 1]), events[|events| - 1]);
    }
  }
}
