/**
 * The live session as the object it is: fields that its methods update in
 * place. Each method is one run of an activity from await to await and is
 * proved against the function of the same segment, so the object as a whole
 * follows `Step` and everything proved about runs holds of it.
 */
module LiveSessionObject {
  import opened Wrappers
  import opened SourceText
  import opened LiveSession

  class TexpressoLiveSession {
    var initialized: bool
    var initializing: bool
    var processing: bool
    var closing: bool
    var queue: seq<Change>
    var latestReceivedRevision: nat
    var appliedRevision: nat
    var lastGoodRevision: Option<nat>
    var session: Option<Engine>
    var exitListener: bool
    var socketOpen: bool
    var init: Pc
    var drain: Pc
    var closer: Closer
    var handlers: seq<Handler>
    var outbound: seq<Message>
    ghost var history: History

    ghost function View(): State
      reads this
    {
      State(initialized, initializing, processing, closing, queue, latestReceivedRevision, appliedRevision,
            lastGoodRevision, session, exitListener, socketOpen, init, drain, closer, handlers, outbound, history)
    }

    constructor ()
      ensures View() == FRESH
    {
      initialized, initializing, processing, closing := false, false, false, false;
      queue, handlers, outbound := [], [], [];
      latestReceivedRevision, appliedRevision, lastGoodRevision := 0, 0, None;
      session, exitListener, socketOpen := None, false, true;
      init, drain, closer := Idle, Idle, NotClosing;
      history := FRESH.history;
    }

    method SendJson(message: Message)
      modifies this`outbound
      ensures View() == Emit(old(View()), message)
    {
      outbound := outbound + [message];
    }

    method WaitAt(t: Task, pc: Pc)
      modifies this`init, this`drain
      ensures View() == Goto(old(View()), t, pc)
    {
      if t.Init? { init := pc; } else { drain := pc; }
    }

    // ---------------------------------------------------------- close path

    method WaitToClose(at: Closer)
      modifies this`closer
      ensures View() == old(View()).(closer := at)
    {
      closer := at;
    }

    method StopListening()
      modifies this`closing, this`queue, this`exitListener
      ensures View() == old(View()).(closing := true, queue := [], exitListener := false)
    {
      closing := true;
      queue := [];
      exitListener := false;
    }

    method Close(notifyClient: bool)
      modifies this
      ensures View() == BeginClose(old(View()), notifyClient)
    {
      hide ReapNative;
      if closing { return; }
      StopListening();
      if notifyClient && socketOpen {
        SendJson(SessionClosed);
        WaitToClose(Notifying);
      } else {
        CloseNativeSession();
      }
    }

    method CloseNativeSession()
      modifies this
      ensures View() == ReapNative(old(View()))
    {
      closer := Reaping;
      if session.Some? {
        session := Some(CloseEngine(session.value));
        history := history.(closes := history.closes + 1);
      }
    }

    method ClosedWasSent()
      modifies this
      ensures View() == Step(old(View()), ClosedSent)
    {
      hide ReapNative;
      if closer.Notifying? {
        socketOpen := false;
        CloseNativeSession();
      }
    }

    method NativeWasClosed()
      modifies this
      ensures View() == Step(old(View()), NativeClosed)
    {
      hide HandleFrame, StartSettled, ReadySettled, InitFinally, Continue, SendSettled, PageArrived, CountArrived, HandlerSettled,
           BeginClose, Settle, NativeExits, ReapNative;
      if closer.Reaping? {
        socketOpen := false;
        closer := Finished;
        history := history.(closedCalls := history.closedCalls + 1);
      }
    }

    // ------------------------------------------------------ inbound frames

    method SendProtocolError(fatal: bool)
      modifies this
      ensures View() == Refuse(old(View()), fatal)
    {
      handlers := handlers + [ProtocolFailure(fatal)];
      SendJson(ProtocolError(fatal));
    }

    method OnFrame(e: Event)
      modifies this
      ensures View() == HandleFrame(old(View()), e)
    {
      hide Refuse, HandleChange, BeginClose;
      if closing { return; }
      match e {
        case BinaryFrame => SendProtocolError(true);
        case MalformedFrame => SendProtocolError(false);
        case ShutdownFrame => Close(true);
        case InitializeFrame(revision, files) =>
          if initialized || initializing {
            SendProtocolError(false);
          } else {
            initializing := true;
            init := Starting(revision, files);
          }
        case ChangeFrame(change) => EnqueueChange(change);
        case _ =>
      }
    }

    method EnqueueChange(change: Change)
      modifies this
      ensures View() == HandleChange(old(View()), change)
    {
      if !initialized || session.None? {
        SendProtocolError(false);
        return;
      }
      if change.revision <= latestReceivedRevision {
        SendProtocolError(false);
        return;
      }
      if |queue| >= MAX_QUEUED_REVISIONS {
        SendProtocolError(true);
        return;
      }
      if NormalizePath(change.path) !in session.value.buffers {
        SendProtocolError(false);
        return;
      }
      latestReceivedRevision := change.revision;
      queue := queue + [change];
      history := history.(accepted := history.accepted + [change]);
      if !initializing { StartDrain(); }
    }

    // ---------------------------------------------------------- drain loop

    method TakeChange()
      requires queue != []
      modifies this
      ensures View() == Dequeue(old(View()))
    {
      var change := queue[0];
      queue := queue[1..];
      history := history.(dequeued := history.dequeued + 1);
      drain := Started(change);
      SendJson(RevisionStarted(change.revision, |queue|));
    }

    method StartDrain()
      modifies this
      ensures View() == DrainChanges(old(View()))
    {
      if processing || initializing || closing || session.None? { return; }
      if queue != [] {
        processing := true;
        TakeChange();
      }
    }

    method EndDrain()
      modifies this
      ensures View() == DrainFinally(old(View()))
    {
      processing := false;
      drain := Idle;
      if !closing && queue != [] { StartDrain(); }
    }

    method EndInitialize()
      modifies this
      ensures View() == InitFinally(old(View()))
    {
      initializing := false;
      init := Idle;
      if !closing { StartDrain(); }
    }

    method ContinueTask(t: Task)
      modifies this
      ensures View() == Continue(old(View()), t)
    {
      if t.Init? {
        EndInitialize();
      } else if !closing && queue != [] {
        TakeChange();
      } else {
        EndDrain();
      }
    }

    method SessionFailure(t: Task)
      modifies this
      ensures View() == Throw(old(View()), t)
    {
      if closing {
        if t.Init? { EndInitialize(); } else { EndDrain(); }
      } else {
        WaitAt(t, Failing);
        SendJson(SessionError);
      }
    }

    method ReportCompileError(t: Task, revision: Revision)
      modifies this
      ensures View() == SendCompileError(old(View()), t, revision)
    {
      WaitAt(t, ErrorSent(revision));
      SendJson(CompileError(revision, lastGoodRevision));
    }

    method ApplyRangeChange(change: Change)
      requires session.Some?
      modifies this
      ensures View() == SendEditSegment(old(View()), change)
    {
      var edited := SendEdit(session.value, change);
      drain := Applying(change, edited.Some?);
      if edited.Some? { session := edited; }
    }

    method ChangeSettled(change: Change, outcome: Option<Outcome>)
      requires session.Some?
      modifies this
      ensures View() == Settle(old(View()), change, outcome)
    {
      hide SettleEdit, PlanFor, PcFor;
      if outcome.None? {
        drain := BadRange(change);
        SendJson(ProtocolError(true));
        return;
      }
      var plan := PlanRender(outcome.value);
      RecordApplied(change.revision, outcome.value);
      WaitAt(Drain, PcFor(plan, change.revision));
      SendJson(RevisionApplied(change.revision, plan, |queue|));
    }

    method PlanRender(outcome: Outcome) returns (plan: RenderPlan)
      ensures plan == PlanFor(View(), outcome)
    {
      plan := PendingPlan;
      if outcome.LatexError? {
        plan := NotRenderedPlan;
      } else if |queue| > 0 {
        plan := CoalescedPlan;
      }
    }

    method RecordApplied(revision: Revision, outcome: Outcome)
      requires session.Some?
      modifies this`session, this`appliedRevision, this`history
      ensures session == Some(SettleEdit(old(session.value), outcome)) && appliedRevision == revision
      ensures history == old(history).(appliedCount := old(history).appliedCount + 1, settled := outcome)
    {
      session := Some(SettleEdit(session.value, outcome));
      appliedRevision := revision;
      history := history.(appliedCount := history.appliedCount + 1, settled := outcome);
    }

    // -------------------------------------------------------------- render

    method RenderRevision(t: Task, revision: Revision)
      modifies this
      ensures View() == StartRender(old(View()), t, revision)
    {
      if session.None? || closing { ContinueTask(t); } else { AskForPage(t, revision, []); }
    }

    method AskForPage(t: Task, revision: Revision, pages: seq<Page>)
      requires session.Some?
      modifies this
      ensures View() == RequestPage(old(View()), t, revision, pages)
    {
      var engine := session.value;
      var hit := None;
      if |pages| in engine.cache { hit := Some(engine.cache[|pages|]); }
      WaitAt(t, AwaitPage(revision, pages, hit, engine.edits));
    }

    method PageSettled(t: Task, pc: Pc, size: Option<nat>)
      requires session.Some? && pc.AwaitPage?
      modifies this
      ensures View() == PageArrived(old(View()), t, pc, size)
    {
      hide Continue, CommitDocument, Bytes, RequestPage;
      var number := |pc.pages|;
      var page;
      if pc.hit.Some? {
        page := pc.hit.value;
      } else if size.Some? {
        page := Page(number, size.value, pc.asked);
        session := Some(session.value.(cache := session.value.cache[number := page]));
      } else {
        WaitAt(t, AwaitCount(pc.revision, pc.pages));
        return;
      }
      if number == MAX_PAGES || page.size > MAX_PAGE_BYTES || Bytes(pc.pages) + page.size > MAX_DOCUMENT_BYTES {
        WaitAt(t, AwaitCount(pc.revision, pc.pages));
        return;
      }
      var pages := pc.pages + [page];
      if |pages| > MAX_PAGES {
        PublishDocument(t, pc.revision, pages);
      } else if pc.revision != latestReceivedRevision && |pages| > 0 {
        ContinueTask(t);
      } else {
        AskForPage(t, pc.revision, pages);
      }
    }

    method PageCountSettled(t: Task, revision: Revision, pages: seq<Page>, count: Option<nat>)
      modifies this
      ensures View() == CountArrived(old(View()), t, revision, pages, count)
    {
      if |pages| < MAX_PAGES && count == Some(|pages|) && |pages| > 0 {
        PublishDocument(t, revision, pages);
      } else {
        SessionFailure(t);
      }
    }

    method PublishDocument(t: Task, revision: Revision, pages: seq<Page>)
      modifies this
      ensures View() == CommitDocument(old(View()), t, revision, pages)
    {
      if revision != latestReceivedRevision {
        ContinueTask(t);
        return;
      }
      lastGoodRevision := Some(revision);
      ghost var edits := if session.Some? then session.value.edits else 0;
      history := history.(commits := history.commits + [Commit(revision, latestReceivedRevision, edits, pages)], progress := 1);
      WaitAt(t, AwaitDocument(revision, pages));
      SendJson(Document(revision, pages));
    }

    method SendNext(t: Task, revision: Revision, pages: seq<Page>, index: nat)
      modifies this
      ensures View() == SendFrom(old(View()), t, revision, pages, index)
    {
      history := history.(progress := history.progress + 1);
      if index < |pages| {
        WaitAt(t, AwaitPageSent(revision, pages, index));
        SendJson(PageMessage(revision, pages[index]));
      } else {
        WaitAt(t, AwaitComplete(revision, pages));
        SendJson(RevisionComplete(revision, |pages|));
      }
    }

    // ---------------------------------------------------- settled promises

    method NativeStarted(revision: Revision, files: seq<(string, Text)>, backend: Option<Backend>)
      modifies this
      ensures View() == StartSettled(old(View()), revision, files, backend)
    {
      hide Throw, BuffersOf;
      if backend.None? {
        SessionFailure(Init);
        return;
      }
      history := history.(starts := history.starts + 1);
      if closing {
        history := history.(closes := history.closes + 1);
        init := LateClosing;
        return;
      }
      OpenSession(revision, Engine(backend.value, BuffersOf(files), 0, map[], true));
    }

    method OpenSession(revision: Revision, engine: Engine)
      modifies this
      ensures View() == OpenedWith(old(View()), revision, engine)
    {
      RecordOpened(revision, engine);
      init := Ready(revision);
      SendJson(SessionReady(revision));
    }

    method RecordOpened(revision: Revision, engine: Engine)
      modifies this`session, this`latestReceivedRevision, this`appliedRevision, this`initialized, this`exitListener, this`history
      ensures session == Some(engine) && latestReceivedRevision == appliedRevision == revision
      ensures initialized && exitListener
      ensures history == old(history).(initial := engine.buffers, firstRevision := revision)
    {
      session := Some(engine);
      latestReceivedRevision := revision;
      appliedRevision := revision;
      initialized := true;
      exitListener := true;
      history := history.(initial := engine.buffers, firstRevision := revision);
    }

    method ReadyWasSent(revision: Revision, ok: bool, status: Outcome)
      modifies this
      ensures View() == ReadySettled(old(View()), revision, ok, status)
    {
      if !ok { SessionFailure(Init); }
      else if status.LatexError? { ReportCompileError(Init, revision); }
      else { RenderRevision(Init, revision); }
    }

    /** Whether the error message could be sent or not, the session closes, and the activity waits for that. */
    method FailureWasSent(t: Task)
      modifies this
      ensures View() == Goto(BeginClose(old(View()), true), t, WaitClosed)
    {
      Close(true);
      WaitAt(t, WaitClosed);
    }

    method SendWasSettled(t: Task, ok: bool)
      modifies this
      ensures View() == SendSettled(old(View()), t, ok)
    {
      hide Throw, Continue, BeginClose, Goto, StartRender, SendFrom, SendCompileError, SendEditSegment;
      var pc := if t.Init? then init else drain;
      match pc {
        case BadRange(_) => FailureWasSent(t);
        case Failing => FailureWasSent(t);
        case Started(change) => if !ok { SessionFailure(t); } else if session.Some? { ApplyRangeChange(change); }
        case NotRendered(revision) => if ok { ReportCompileError(t, revision); } else { SessionFailure(t); }
        case ErrorSent(_) => if ok { ContinueTask(t); } else { SessionFailure(t); }
        case Coalesced => if ok { ContinueTask(t); } else { SessionFailure(t); }
        case RenderPending(revision) => if ok { RenderRevision(t, revision); } else { SessionFailure(t); }
        case AwaitDocument(revision, pages) => if ok { SendNext(t, revision, pages, 0); } else { SessionFailure(t); }
        case AwaitPageSent(revision, pages, i) => if ok { SendNext(t, revision, pages, i + 1); } else { SessionFailure(t); }
        case AwaitComplete(_, _) => if ok { ContinueTask(t); } else { SessionFailure(t); }
        case _ =>
      }
    }

    method HandlerWasSettled(index: nat, ok: bool)
      modifies this
      ensures View() == HandlerSettled(old(View()), index, ok)
    {
      if index >= |handlers| { return; }
      var handler := handlers[index];
      handlers := handlers[..index] + handlers[index + 1..];
      if handler.NativeFailure? || handler.fatal { Close(true); } else if !ok { Close(false); }
    }

    method NativeExited(reported: bool)
      modifies this
      ensures View() == NativeExits(old(View()), reported)
    {
      if session.None? || !session.value.alive { return; }
      session := Some(session.value.(alive := false));
      if reported && exitListener && !closing {
        handlers := handlers + [NativeFailure];
        SendJson(SessionError);
      }
    }

    predicate FromOutside(e: Event) {
      e.NativeExit? || e.TimerFires? || e.ServerShutdown? || e.SocketDown? || e.SocketClosed? || e.SocketError?
    }

    method Disturbed(e: Event)
      requires FromOutside(e)
      modifies this
      ensures View() == Step(old(View()), e)
    {
      hide HandleFrame, StartSettled, ReadySettled, InitFinally, Continue, SendSettled, PageArrived, CountArrived, HandlerSettled,
           BeginClose, Settle, NativeExits, ReapNative;
      match e {
        case NativeExit(reported) => NativeExited(reported);
        case TimerFires => Close(true);
        case ServerShutdown => Close(true);
        case SocketDown => socketOpen := false;
        case SocketClosed =>
          socketOpen := false;
          Close(false);
        case SocketError => Close(false);
      }
    }

    method TaskAnswered(e: Event)
      requires e.StartDone? || e.ReadySent? || e.Sent? || e.Flushed? || e.PageDone? || e.CountDone?
      modifies this
      ensures View() == Step(old(View()), e)
    {
      hide StartSettled, ReadySettled, SendSettled, PageArrived, Settle, CountArrived;
      match e {
        case StartDone(backend) => if init.Starting? { NativeStarted(init.revision, init.files, backend); }
        case ReadySent(ok, status) => if init.Ready? { ReadyWasSent(init.revision, ok, status); }
        case Sent(t, ok) => SendWasSettled(t, ok);
        case Flushed(outcome) =>
          if drain.Applying? && session.Some? { ChangeSettled(drain.change, if drain.sent then outcome else None); }
        case PageDone(t, size) =>
          var pc := if t.Init? then init else drain;
          if pc.AwaitPage? && session.Some? { PageSettled(t, pc, size); }
        case CountDone(t, count) =>
          var pc := if t.Init? then init else drain;
          if pc.AwaitCount? { PageCountSettled(t, pc.revision, pc.pages, count); }
      }
    }

    /** Whatever event ends an await, the object moves as `Step` says. */
    method Deliver(e: Event)
      modifies this
      ensures View() == Step(old(View()), e)
    {
      hide HandleFrame, InitFinally, Continue, HandlerSettled;
      if FromOutside(e) {
        Disturbed(e);
      } else if e.StartDone? || e.ReadySent? || e.Sent? || e.Flushed? || e.PageDone? || e.CountDone? {
        TaskAnswered(e);
      } else if e.LateCloseDone? {
        if init.LateClosing? { EndInitialize(); }
      } else if e.HandlerSent? {
        HandlerWasSettled(e.index, e.ok);
      } else if e.ClosedSent? {
        ClosedWasSent();
      } else if e.NativeClosed? {
        NativeWasClosed();
      } else if e.ClosedResolved? {
        var pc := if e.task.Init? then init else drain;
        if pc.WaitClosed? && closer.Finished? { ContinueTask(e.task); }
      } else {
        OnFrame(e);
      }
    }
  }

  /** A connection from its first event to its last: the object is where the run is, so what holds of runs holds of it. */
  method Serve(events: seq<Event>) returns (session: TexpressoLiveSession)
    ensures fresh(session) && session.View() == Run(events)
  {
    hide Step;
    session := new TexpressoLiveSession();
    for n := 0 to |events|
      invariant fresh(session) && session.View() == Run(events[..n])
    {
      session.Deliver(events[n]);
      assert events[..n + 1][..n] == events[..n];
    }
    assert events[..|events|] == events;
  }
}
