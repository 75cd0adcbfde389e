/** What every run of the live session guarantees, whatever the interleaving. */
module LiveSessionTheorems {
  import opened Wrappers
  import opened SourceText
  import opened LiveSession
  import opened LiveSessionControl
  import opened LiveSessionData
  import opened LiveSessionSteps

  lemma FreshGood()
    ensures Good(FRESH) && Control(FRESH)
  {
  }

  /** The invariants hold after every run. */
  lemma {:induction false} InvariantOfRun(events: seq<Event>)
    ensures Control(Run(events)) && Good(Run(events))
  {
    hide Good, Control, Step;
    if events == [] {
      FreshGood();
    } else {
      InvariantOfRun(events[..|events| - 1]);
      ControlStep(Run(events[..|events| - 1]), events[|events| - 1]);
      GoodStep(Run(events[..|events| - 1]), events[|events| - 1]);
    }
  }

  /** The connection is usable and nothing is going on. */
  predicate AtRest(s: State) {
    s.initialized && !s.closing && !s.initializing && !s.processing
  }

  /**
   * Convergence: whenever an open session is at rest, no change waits, the
   * newest accepted change is applied, every committed document has been
   * handed over whole, and the last of them is of that change, unless its
   * compile error has been handed over instead.
   */
  lemma Convergence(events: seq<Event>)
    requires AtRest(Run(events))
    ensures var s := Run(events);
            && s.queue == [] && s.applied == s.latestReceived
            && Publications(s.emitted) == Bursts(s.history.commits)
            && (s.lastGood == Some(s.applied) || ErrorReported(s.emitted, s.applied))
  {
    InvariantOfRun(events);
    AtRestIsSettled(Run(events));
  }

  lemma AtRestIsSettled(s: State)
    requires Control(s) && Good(s) && AtRest(s)
    ensures s.queue == [] && s.applied == s.latestReceived
    ensures Publications(s.emitted) == Bursts(s.history.commits)
    ensures s.lastGood == Some(s.applied) || ErrorReported(s.emitted, s.applied)
  {
    hide Buffered, Raster, Replay, GoodCommit, Burst;
  }

  /** Accepted revisions strictly increase, and those announced as applied are the first ones accepted, in order. */
  lemma AppliedIsPrefixOfAccepted(events: seq<Event>)
    ensures var s := Run(events); var h := s.history;
            && h.appliedCount <= h.dequeued <= |h.accepted|
            && AppliedRevisions(s.emitted) == Revisions(h.accepted[..h.appliedCount])
            && (forall i, j | 0 <= i < j < |h.accepted| :: h.accepted[i].revision < h.accepted[j].revision)
            && |s.queue| <= MAX_QUEUED_REVISIONS
            && (!s.closing ==> s.queue == h.accepted[h.dequeued..])
  {
    InvariantOfRun(events);
    var h := Run(events).history;
    hide Good, Control, Run;
    assert Increasing(h) by { GoodParts(Run(events)); }
    GoodParts(Run(events));
    forall i, j | 0 <= i < j < |h.accepted| ensures h.accepted[i].revision < h.accepted[j].revision {
      RevisionsIncrease(h, i + 1, j + 1);
    }
  }

  lemma GoodParts(s: State)
    requires Good(s) && Control(s)
    ensures Increasing(s.history)
    ensures s.history.appliedCount <= s.history.dequeued <= |s.history.accepted|
    ensures AppliedRevisions(s.emitted) == Revisions(s.history.accepted[..s.history.appliedCount])
    ensures |s.queue| <= MAX_QUEUED_REVISIONS
    ensures !s.closing ==> s.queue == s.history.accepted[s.history.dequeued..]
    ensures s.latestReceived == RevisionAt(s.history, |s.history.accepted|)
    ensures s.applied == RevisionAt(s.history, s.history.appliedCount)
  {
  }

  /**
   * The buffers are the initial text with a prefix of the accepted changes
   * applied: exactly the applied ones, plus the one the engine is working on.
   */
  lemma BuffersAreReplay(events: seq<Event>)
    ensures var s := Run(events); var h := s.history;
            s.session.Some? ==>
              var e := s.session.value;
              && h.appliedCount <= e.edits <= |h.accepted| && e.edits <= h.appliedCount + 1
              && Replay(h.initial, h.accepted[..e.edits]) == Some(e.buffers)
              && (!s.closing && !s.drain.Applying? && !s.drain.BadRange? ==> e.edits == h.appliedCount)
  {
    InvariantOfRun(events);
    if Run(events).session.Some? { BufferParts(Run(events)); }
  }

  lemma BufferParts(s: State)
    requires Good(s) && Control(s) && s.session.Some?
    ensures var h, e := s.history, s.session.value;
            && h.appliedCount <= e.edits <= |h.accepted| && e.edits <= h.appliedCount + 1
            && Replay(h.initial, h.accepted[..e.edits]) == Some(e.buffers)
            && (!s.closing && !s.drain.Applying? && !s.drain.BadRange? ==> e.edits == h.appliedCount)
  {
    hide Raster, Committed, Wire, Settled, Replay;
  }

  /** A change that cannot be applied stops the session there: neither it nor a later change ever takes effect. */
  lemma FailedRangeStops(events: seq<Event>, k: nat)
    requires var h := Run(events).history; k < |h.accepted| && Replay(h.initial, h.accepted[..k + 1]) == None
    ensures Run(events).history.appliedCount <= k
    ensures Run(events).session.Some? ==> Run(events).session.value.edits <= k
  {
    var s := Run(events);
    InvariantOfRun(events);
    if s.session.Some? {
      BufferParts(s);
      var e := s.session.value;
      if k + 1 <= e.edits {
        ReplayFails(s.history.initial, s.history.accepted, k + 1, e.edits);
      }
    } else {
      NotInitialized(s);
    }
  }

  lemma NotInitialized(s: State)
    requires Good(s) && Control(s) && s.session.None?
    ensures s.history.accepted == []
  {
  }

  lemma {:induction false} ReplayFails(initial: Buffers, changes: seq<Change>, k: nat, n: nat)
    requires k <= n <= |changes| && Replay(initial, changes[..k]) == None
    ensures Replay(initial, changes[..n]) == None
    decreases n
  {
    if k == n {
    } else {
      ReplayFails(initial, changes, k, n - 1);
      ReplayStep(initial, changes, n - 1);
    }
  }

  /**
   * Publication: the page output is a sequence of whole documents, the last
   * one possibly cut short. Each has between 1 and 63 pages, numbered from 0,
   * within the size limits, all showing the source after the same accepted
   * change, which was the newest accepted one at the commit; the revisions
   * strictly increase.
   */
  lemma PublishedDocuments(events: seq<Event>)
    ensures Published(Run(events))
  {
    hide *;
    InvariantOfRun(events);
    GoodMeansPublished(Run(events));
  }

  ghost predicate Published(s: State) {
    var h := s.history;
    && (forall i | 0 <= i < |h.commits| :: GoodCommit(h, h.commits[i]))
    && (forall i, j | 0 <= i < j < |h.commits| :: h.commits[i].revision < h.commits[j].revision)
    && Publications(s.emitted) <= Bursts(h.commits)
    && (|h.commits| > 0 ==> Bursts(h.commits[..|h.commits| - 1]) <= Publications(s.emitted))
    && s.lastGood == LastGood(h.commits)
    && (s.lastGood.Some? ==> s.lastGood.value <= s.applied) && s.applied <= s.latestReceived
  }

  lemma GoodMeansPublished(s: State)
    requires Good(s) && Control(s)
    ensures Published(s)
  {
    hide Good, Control, GoodPages, Bursts, Publications, AppliedRevisions, Revisions, Increasing;
    GoodParts(s);
    CommitParts(s);
    var h := s.history;
    forall i, j | 0 <= i < j < |h.commits| ensures h.commits[i].revision < h.commits[j].revision {
      RevisionsIncrease(h, h.commits[i].edits, h.commits[j].edits);
    }
    if h.appliedCount < |h.accepted| { RevisionsIncrease(h, h.appliedCount, |h.accepted|); }
    if |h.commits| > 0 {
      var last := h.commits[|h.commits| - 1];
      if last.edits < h.appliedCount { RevisionsIncrease(h, last.edits, h.appliedCount); }
    }
  }

  lemma CommitParts(s: State)
    requires Good(s)
    ensures var h := s.history;
            && (forall i | 0 <= i < |h.commits| :: GoodCommit(h, h.commits[i]))
            && (forall i, j | 0 <= i < j < |h.commits| :: h.commits[i].edits < h.commits[j].edits)
            && s.lastGood == LastGood(h.commits)
            && (h.commits != [] ==> h.commits[|h.commits| - 1].edits <= h.appliedCount)
            && Publications(s.emitted) <= Bursts(h.commits)
            && (h.commits != [] ==> Bursts(h.commits[..|h.commits| - 1]) <= Publications(s.emitted))
  {
    hide Order, Tasks, Buffered, Raster, Settled, GoodCommit, Burst;
  }

  /**
   * Raster freshness: while a page is awaited the engine has been sent
   * exactly the applied edits and every cached raster shows them, so a page
   * served from the cache is the page a new rasterisation would show.
   */
  lemma CacheIsFresh(events: seq<Event>, t: Task)
    requires PcOf(Run(events), t).AwaitPage?
    ensures var s := Run(events); var pc := PcOf(s, t);
            && s.session.Some? && s.session.value.edits == s.history.appliedCount == pc.asked
            && FreshCache(s.session.value)
            && pc.revision == s.applied
            && GoodPages(pc.pages, pc.asked)
            && (pc.hit.Some? ==> pc.hit.value.number == |pc.pages| && pc.hit.value.edits == pc.asked)
  {
    InvariantOfRun(events);
    ControlFacts(Run(events), t);
    CacheIsFreshWhileRendering(Run(events), t);
    HitParts(Run(events), t);
  }

  lemma HitParts(s: State, t: Task)
    requires Good(s) && PcOf(s, t).AwaitPage? && s.session.Some?
    ensures RasterPc(PcOf(s, t), s.session.value) && PcOf(s, t).revision == s.applied
  {
    hide Order, Buffered, Committed, Wire, Settled;
  }

  /** Edits and renders never overlap: at most one of the two loops is active. */
  lemma OneActivityAtATime(events: seq<Event>)
    ensures var s := Run(events);
            && (s.init.Idle? || s.drain.Idle?)
            && s.initializing == !s.init.Idle? && s.processing == !s.drain.Idle?
  {
    InvariantOfRun(events);
  }

  /** At most one native session is started and it is closed at most once; the owner hears of the end at most once. */
  lemma NativeLifecycle(events: seq<Event>)
    ensures var s := Run(events); var h := s.history;
            && h.closes <= h.starts <= 1 && h.closedCalls <= 1
            && (h.closes == 1 ==> s.closing)
            && (s.closer.Finished? <==> h.closedCalls == 1)
            && (s.closer.Finished? && s.init.Idle? ==> h.closes == h.starts)
  {
    InvariantOfRun(events);
  }

  // -------------------------------------------------------------- termination

  function Rank(pc: Pc): nat {
    match pc
    case Idle => 0
    case Starting(_, _) => 380
    case LateClosing => 20
    case Ready(_) => 340
    case Started(_) => 330
    case Applying(_, _) => 320
    case BadRange(_) => 315
    case NotRendered(_) => 310
    case Coalesced => 310
    case RenderPending(_) => 310
    case AwaitPage(_, pages, _, _) => if |pages| <= MAX_PAGES then 300 - |pages| else 0
    case AwaitCount(_, _) => 230
    case AwaitDocument(_, _) => 220
    case AwaitPageSent(_, _, i) => if i < MAX_PAGES then 210 - i else 0
    case AwaitComplete(_, _) => 140
    case ErrorSent(_) => 130
    case Failing => 100
    case WaitClosed => 90
  }

  function CloserRank(c: Closer): nat {
    match c
    case NotClosing => 3
    case Notifying => 2
    case Reaping => 1
    case Finished => 0
  }

  /** Bounds the work left: queued changes, the running activities, pending replies, the close path. */
  function Measure(s: State): nat {
    400 * |s.queue| + Rank(s.init) + Rank(s.drain) + CloserRank(s.closer) + 5 * |s.handlers|
    + (if s.session.Some? && s.session.value.alive then 10 else 0) + (if s.socketOpen then 1 else 0)
  }

  predicate IsFrame(e: Event) {
    e.BinaryFrame? || e.MalformedFrame? || e.ShutdownFrame? || e.InitializeFrame? || e.ChangeFrame?
  }

  lemma BeginCloseMeasure(s: State, notify: bool)
    requires Control(s)
    ensures s.closing ==> BeginClose(s, notify) == s
    ensures !s.closing ==> Measure(BeginClose(s, notify)) < Measure(s)
    ensures BeginClose(s, notify).init == s.init && BeginClose(s, notify).drain == s.drain
  {
    hide Places, Lifecycle;
  }

  lemma ContinueMeasure(s: State, t: Task)
    requires Control(s) && !PcOf(s, t).Idle?
    ensures Measure(Continue(s, t)) <= Measure(s) - Rank(PcOf(s, t))
  {
    hide Places, Lifecycle;
  }

  lemma ThrowMeasure(s: State, t: Task)
    requires Control(s) && !PcOf(s, t).Idle?
    ensures Measure(Throw(s, t)) <= Measure(s) - Rank(PcOf(s, t)) + 100
  {
    hide Places, Lifecycle;
  }

  lemma GotoMeasure(s: State, t: Task, pc: Pc)
    ensures Measure(Goto(s, t, pc)) == Measure(s) - Rank(PcOf(s, t)) + Rank(pc)
  {
  }

  lemma CommitMeasure(s: State, t: Task, revision: Revision, pages: seq<Page>)
    requires Control(s) && !PcOf(s, t).Idle?
    ensures Measure(CommitDocument(s, t, revision, pages)) <= Measure(s) - Rank(PcOf(s, t)) + 220
  {
    hide Control, Continue;
    ContinueMeasure(s, t);
  }

  lemma KeepPageMeasure(s: State, t: Task, page: Page)
    requires Control(s) && s.session.Some? && PcOf(s, t).AwaitPage? && |PcOf(s, t).pages| <= MAX_PAGES
    ensures Measure(KeepPage(s, t, PcOf(s, t).revision, PcOf(s, t).pages, page)) < Measure(s)
  {
    hide Control, Continue, CommitDocument, Bytes, Measure, Goto;
    var pc := PcOf(s, t);
    ContinueMeasure(s, t);
    GotoMeasure(s, t, AwaitCount(pc.revision, pc.pages));
    var n := |pc.pages| + 1;
    var e := s.session.value;
    GotoMeasure(s, t, AwaitPage(pc.revision, pc.pages + [page], if n in e.cache then Some(e.cache[n]) else None, e.edits));
  }

  lemma PageArrivedMeasure(s: State, t: Task, size: Option<nat>)
    requires Control(s) && s.session.Some? && PcOf(s, t).AwaitPage? && |PcOf(s, t).pages| <= MAX_PAGES
    ensures Measure(PageArrived(s, t, PcOf(s, t), size)) < Measure(s)
  {
    hide Control, KeepPage, Goto, Measure;
    var pc := PcOf(s, t);
    match pc.hit {
      case Some(page) => KeepPageMeasure(s, t, page);
      case None =>
        match size {
          case None => GotoMeasure(s, t, AwaitCount(pc.revision, pc.pages));
          case Some(bytes) =>
            var page := Page(|pc.pages|, bytes, pc.asked);
            FrameControl(s, Cached(s, page));
            CachedMeasure(s, page);
            KeepPageMeasure(Cached(s, page), t, page);
        }
    }
  }

  lemma CachedMeasure(s: State, page: Page)
    requires s.session.Some?
    ensures Measure(Cached(s, page)) == Measure(s)
  {
  }

  lemma SendSettledMeasure(s: State, t: Task, ok: bool)
    requires Control(s) && Good(s)
    ensures SendSettled(s, t, ok) == s || Measure(SendSettled(s, t, ok)) < Measure(s)
  {
    hide Control, Good, Throw, Continue, BeginClose, SendEdit, Measure;
    var pc := PcOf(s, t);
    ControlFacts(s, t);
    if pc.Idle? || pc.Starting? || pc.LateClosing? || pc.Ready? || pc.Applying? || pc.AwaitPage? || pc.AwaitCount? || pc.WaitClosed? {
    } else if pc.BadRange? || pc.Failing? {
      BeginCloseMeasure(s, true);
      GotoMeasure(BeginClose(s, true), t, WaitClosed);
    } else if !ok {
      PublishingIndex(s, t);
      ThrowMeasure(s, t);
    } else if pc.ErrorSent? || pc.Coalesced? || pc.AwaitComplete? {
      ContinueMeasure(s, t);
    } else {
      AdvanceMeasure(s, t);
    }
  }

  lemma AdvanceMeasure(s: State, t: Task)
    requires Control(s) && Good(s)
    requires var pc := PcOf(s, t);
             pc.Started? || pc.NotRendered? || pc.RenderPending? || pc.AwaitDocument? || pc.AwaitPageSent?
    ensures Measure(SendSettled(s, t, true)) < Measure(s)
  {
    hide Control, Good, Continue, BeginClose, Throw, SendEditSegment, StartRender, Measure;
    ControlFacts(s, t);
    PublishingIndex(s, t);
    var pc := PcOf(s, t);
    match pc
    case Started(c) => SendEditMeasure(s, c);
    case NotRendered(r) => GotoMeasure(s, t, ErrorSent(r)); SameMeasure(Goto(s, t, ErrorSent(r)), SendCompileError(s, t, r));
    case RenderPending(r) => StartRenderMeasure(s, t, r);
    case AwaitDocument(r, pages) => SendFromMeasure(s, t, r, pages, 0);
    case AwaitPageSent(r, pages, i) => SendFromMeasure(s, t, r, pages, i + 1);
  }

  lemma SameMeasure(s: State, r: State)
    requires s.queue == r.queue && s.init == r.init && s.drain == r.drain && s.closer == r.closer
    requires s.handlers == r.handlers && s.session == r.session && s.socketOpen == r.socketOpen
    ensures Measure(s) == Measure(r)
  {
  }

  lemma SendEditMeasure(s: State, c: Change)
    requires s.session.Some? && s.drain == Started(c)
    ensures Measure(SendEditSegment(s, c)) < Measure(s)
  {
    hide Step, Rank, CloserRank, SendEdit;
    EditKeepsAlive(s.session.value, c);
    EditRanks(c);
  }

  lemma EditRanks(c: Change)
    ensures Rank(Started(c)) == 330 && Rank(Applying(c, true)) == Rank(Applying(c, false)) == 320
  {
  }

  lemma EditKeepsAlive(engine: Engine, c: Change)
    ensures SendEdit(engine, c).Some? ==> SendEdit(engine, c).value.alive == engine.alive
  {
    hide EditBuffers;
  }

  lemma StartRenderMeasure(s: State, t: Task, revision: Revision)
    requires Control(s) && PcOf(s, t) == RenderPending(revision)
    ensures Measure(StartRender(s, t, revision)) < Measure(s)
  {
    hide Control, Continue;
    ContinueMeasure(s, t);
  }

  lemma SendFromMeasure(s: State, t: Task, revision: Revision, pages: seq<Page>, index: nat)
    requires index <= |pages| < MAX_PAGES
    requires Rank(PcOf(s, t)) > 210 - index && Rank(PcOf(s, t)) > 140
    ensures Measure(SendFrom(s, t, revision, pages, index)) < Measure(s)
  {
    hide Measure;
    var pc := NextPc(revision, pages, index);
    GotoMeasure(s, t, pc);
    SameMeasure(Goto(s, t, pc), SendFrom(s, t, revision, pages, index));
  }

  lemma PublishingIndex(s: State, t: Task)
    requires Control(s) && Good(s)
    ensures PcOf(s, t).AwaitDocument? || PcOf(s, t).AwaitPageSent? ==> |PcOf(s, t).pages| < MAX_PAGES
    ensures PcOf(s, t).AwaitPageSent? ==> PcOf(s, t).index < |PcOf(s, t).pages|
    ensures PcOf(s, t).AwaitPage? && s.session.Some? ==> |PcOf(s, t).pages| <= MAX_PAGES
    ensures PcOf(s, t).Started? ==> t.Drain?
  {
    hide Order, Buffered, Wire, Settled, Lifecycle, Flags, RevisionAt;
  }

  lemma HandlerMeasure(s: State, index: nat, ok: bool)
    requires Control(s) && index < |s.handlers|
    ensures Measure(HandlerSettled(s, index, ok)) < Measure(s)
  {
    hide Control, BeginClose;
    var rest := s.(handlers := s.handlers[..index] + s.handlers[index + 1..]);
    FrameControl(s, rest);
    BeginCloseMeasure(rest, true);
    BeginCloseMeasure(rest, false);
  }

  lemma StartMeasure(s: State, backend: Option<Backend>)
    requires Control(s) && s.init.Starting?
    ensures Measure(StartSettled(s, s.init.revision, s.init.files, backend)) < Measure(s)
  {
    hide Places, Lifecycle, Throw, BuffersOf;
    ThrowMeasure(s, Init);
  }

  lemma ReadyMeasure(s: State, ok: bool, status: Outcome)
    requires Control(s) && s.init.Ready?
    ensures Measure(ReadySettled(s, s.init.revision, ok, status)) < Measure(s)
  {
    hide Places, Lifecycle, Throw, Continue;
    ThrowMeasure(s, Init);
    ContinueMeasure(s, Init);
  }

  lemma CountMeasure(s: State, t: Task, count: Option<nat>)
    requires Control(s) && PcOf(s, t).AwaitCount?
    ensures Measure(CountArrived(s, t, PcOf(s, t).revision, PcOf(s, t).pages, count)) < Measure(s)
  {
    hide Control, Throw, CommitDocument;
    ThrowMeasure(s, t);
    CommitMeasure(s, t, PcOf(s, t).revision, PcOf(s, t).pages);
  }

  lemma FlushMeasure(s: State, outcome: Option<Outcome>)
    requires s.drain.Applying? && s.session.Some?
    ensures Measure(Settle(s, s.drain.change, outcome)) < Measure(s)
  {
    hide SettleEdit, BeginClose, Continue;
    if outcome.Some? { SettleKeepsAlive(s.session.value, outcome.value); }
  }

  lemma SettleKeepsAlive(engine: Engine, outcome: Outcome)
    ensures SettleEdit(engine, outcome).alive == engine.alive
  {
  }

  lemma NativeExitMeasure(s: State, reported: bool)
    ensures NativeExits(s, reported) == s || Measure(NativeExits(s, reported)) < Measure(s)
  {
  }

  lemma CloserMeasure(s: State, e: Event)
    requires Control(s) && (e.ClosedSent? || e.NativeClosed? || e.SocketDown?)
    ensures Step(s, e) == s || Measure(Step(s, e)) < Measure(s)
  {
    hide Places, Lifecycle;
  }

  lemma WaitOverMeasure(s: State, t: Task)
    requires Control(s)
    ensures Step(s, ClosedResolved(t)) == s || Measure(Step(s, ClosedResolved(t))) < Measure(s)
    ensures Step(s, LateCloseDone) == s || Measure(Step(s, LateCloseDone)) < Measure(s)
  {
    hide Control, Continue, InitFinally;
    if PcOf(s, t).WaitClosed? { ContinueMeasure(s, t); }
    if s.init.LateClosing? {
      ContinueMeasure(s, Init);
      ContinueInit(s);
    }
  }

  /**
   * Between two inbound frames only finitely many steps do anything: each
   * lowers the measure. Neither the drain loop nor shutdown can run for ever.
   */
  lemma {:induction false} StepDecreasesMeasure(events: seq<Event>, e: Event)
    requires !IsFrame(e)
    ensures var s := Run(events); Step(s, e) == s || Measure(Step(s, e)) < Measure(s)
  {
    InvariantOfRun(events);
    var s := Run(events);
    hide Run;
    MeasureStep(s, e);
  }

  lemma MeasureStep(s: State, e: Event)
    requires Control(s) && Good(s) && !IsFrame(e)
    ensures Step(s, e) == s || Measure(Step(s, e)) < Measure(s)
  {
    hide Good, Control, Measure, HandleFrame, StartSettled, ReadySettled, InitFinally, Continue, SendSettled, PageArrived,
         Settle, CountArrived, HandlerSettled, BeginClose, NativeExits, ReapNative;
    match e {
      case StartDone(backend) => if s.init.Starting? { StartMeasure(s, backend); }
      case LateCloseDone => WaitOverMeasure(s, Init);
      case ReadySent(ok, status) => if s.init.Ready? { ReadyMeasure(s, ok, status); }
      case Sent(t, ok) => SendSettledMeasure(s, t, ok);
      case Flushed(outcome) =>
        if s.drain.Applying? && s.session.Some? { FlushMeasure(s, if s.drain.sent then outcome else None); }
      case PageDone(t, size) =>
        if PcOf(s, t).AwaitPage? && s.session.Some? {
          PublishingIndex(s, t);
          PageArrivedMeasure(s, t, size);
        }
      case CountDone(t, count) => if PcOf(s, t).AwaitCount? { CountMeasure(s, t, count); }
      case HandlerSent(index, ok) => if index < |s.handlers| { HandlerMeasure(s, index, ok); } else { NoHandler(s, index, ok); }
      case NativeExit(reported) => NativeExitMeasure(s, reported);
      case TimerFires => BeginCloseMeasure(s, true);
      case ServerShutdown => BeginCloseMeasure(s, true);
      case SocketDown => CloserMeasure(s, e);
      case SocketClosed =>
        CloserMeasure(s, SocketDown);
        FrameControl(s, s.(socketOpen := false));
        BeginCloseMeasure(s.(socketOpen := false), false);
      case SocketError => BeginCloseMeasure(s, false);
      case ClosedSent => CloserMeasure(s, e);
      case NativeClosed => CloserMeasure(s, e);
      case ClosedResolved(t) => WaitOverMeasure(s, t);
    }
  }

  lemma NoHandler(s: State, index: nat, ok: bool)
    requires index >= |s.handlers|
    ensures HandlerSettled(s, index, ok) == s
  {
  }

  /** The events that answer an await; the others come from outside. */
  predicate IsAnswer(e: Event) {
    !IsFrame(e) && !e.NativeExit? && !e.TimerFires? && !e.ServerShutdown? && !e.SocketDown? && !e.SocketClosed? && !e.SocketError?
  }

  /** No pending await can make the session move. */
  ghost predicate Stuck(s: State) {
    forall e: Event | IsAnswer(e) :: Step(s, e) == s
  }

  /**
   * Nothing is ever left waiting for an answer that cannot come: when no
   * answer moves the session, every activity has ended and the close path has
   * either not begun or run to its end.
   */
  lemma StuckMeansDone(events: seq<Event>)
    requires Stuck(Run(events))
    ensures var s := Run(events);
            && s.init.Idle? && s.drain.Idle? && s.handlers == []
            && (s.closer.NotClosing? || s.closer.Finished?)
  {
    InvariantOfRun(events);
    var s := Run(events);
    hide Run;
    if s.handlers != [] { HandlerMoves(s); }
    if s.closer.Notifying? || s.closer.Reaping? { CloserMoves(s); }
    if !s.init.Idle? { TaskMoves(s, Init); }
    if !s.drain.Idle? { TaskMoves(s, Drain); }
  }

  lemma HandlerMoves(s: State)
    requires Control(s) && s.handlers != []
    ensures IsAnswer(HandlerSent(0, true)) && Step(s, HandlerSent(0, true)) != s
  {
    hide Control, BeginClose;
    HandlerMeasure(s, 0, true);
  }

  lemma CloserMoves(s: State)
    requires s.closer.Notifying? || s.closer.Reaping?
    ensures IsAnswer(ClosedSent) && IsAnswer(NativeClosed)
    ensures Step(s, ClosedSent) != s || Step(s, NativeClosed) != s
  {
  }

  lemma StartMoves(s: State, t: Task)
    requires Control(s) && (PcOf(s, t).Starting? || PcOf(s, t).LateClosing? || PcOf(s, t).Ready?)
    ensures exists e: Event :: IsAnswer(e) && Step(s, e) != s
  {
    hide Control, Measure, Throw, Continue, InitFinally, SendSettled, PageArrived, CountArrived, ReadySettled, StartSettled, Settle,
         HandleFrame, HandlerSettled, NativeExits, BeginClose, ReapNative;
    var pc := PcOf(s, t);
    ControlFacts(s, t);
    if pc.Starting? {
      if t.Init? { StartMeasure(s, None); }
      assert IsAnswer(StartDone(None));
    } else if pc.LateClosing? {
      LateClosingMoves(s, t);
      assert IsAnswer(LateCloseDone);
    } else {
      if t.Init? { ReadyMeasure(s, false, Rendered); }
      assert IsAnswer(ReadySent(false, Rendered));
    }
  }

  lemma TaskMoves(s: State, t: Task)
    requires Control(s) && Good(s) && !PcOf(s, t).Idle? && !s.closer.Notifying? && !s.closer.Reaping?
    ensures exists e: Event :: IsAnswer(e) && Step(s, e) != s
  {
    hide Control, Good, Measure, Throw, Continue, InitFinally, SendSettled, PageArrived, CountArrived, ReadySettled, StartSettled, Settle,
         HandleFrame, HandlerSettled, NativeExits, BeginClose, ReapNative;
    var pc := PcOf(s, t);
    ControlFacts(s, t);
    PublishingIndex(s, t);
    if pc.Starting? || pc.LateClosing? || pc.Ready? {
      StartMoves(s, t);
    } else if pc.Applying? {
      DrainOnly(s, t);
      FlushMeasure(s, None);
      assert IsAnswer(Flushed(None));
      assert Step(s, Flushed(None)) == Settle(s, s.drain.change, None);
    } else if pc.AwaitPage? {
      PageArrivedMeasure(s, t, None);
      assert IsAnswer(PageDone(t, None));
    } else if pc.AwaitCount? {
      CountMeasure(s, t, None);
      assert IsAnswer(CountDone(t, None));
    } else if pc.WaitClosed? {
      WaitClosedMoves(s, t);
      assert IsAnswer(ClosedResolved(t));
    } else {
      SentMoves(s, t);
      assert IsAnswer(Sent(t, false));
    }
  }

  lemma DrainOnly(s: State, t: Task)
    requires Control(s) && PcOf(s, t).Applying?
    ensures t.Drain?
  {
  }

  lemma LateClosingMoves(s: State, t: Task)
    requires Control(s) && PcOf(s, t).LateClosing?
    ensures Step(s, LateCloseDone) != s
  {
    hide Lifecycle;
  }

  lemma WaitClosedMoves(s: State, t: Task)
    requires Control(s) && PcOf(s, t).WaitClosed? && !s.closer.Notifying? && !s.closer.Reaping?
    ensures Step(s, ClosedResolved(t)) != s
  {
    hide Lifecycle;
  }

  lemma SentMoves(s: State, t: Task)
    requires Control(s) && Good(s)
    requires var pc := PcOf(s, t);
             pc.Started? || pc.BadRange? || pc.NotRendered? || pc.Coalesced? || pc.RenderPending? || pc.ErrorSent?
             || pc.AwaitDocument? || pc.AwaitPageSent? || pc.AwaitComplete? || pc.Failing?
    ensures Step(s, Sent(t, false)) != s
  {
    hide Good, Lifecycle;
  }

  /** Shutdown completes: once closing and out of answers, the native session is closed and the owner was told, once. */
  lemma ShutdownCompletes(events: seq<Event>)
    requires Run(events).closing && Stuck(Run(events))
    ensures var h := Run(events).history; h.closes == h.starts && h.closedCalls == 1
  {
    InvariantOfRun(events);
    StuckMeansDone(events);
  }

  /** Left alone, an open session comes to rest, and by Convergence shows the newest accepted change. */
  lemma OpenSessionComesToRest(events: seq<Event>)
    requires Run(events).initialized && !Run(events).closing && Stuck(Run(events))
    ensures AtRest(Run(events))
  {
    InvariantOfRun(events);
    StuckMeansDone(events);
  }
}
