/**
 * A session and its backend side by side: for any events in which pages are
 * answered as the backend paints them, the engine of the transition system
 * stays the backend with its images forgotten.
 */
module LiveEngineRun {
  import opened Wrappers
  import opened SourceText
  import opened LiveSession
  import opened LiveSessionControl
  import opened LiveSessionData
  import opened LiveSessionSteps
  import opened LiveSessionTheorems
  import opened LiveEngineSimulation
  import Backends = LiveEngine

  /** Between sending a change and its answer. */
  predicate Sending(s: State) {
    s.drain.Applying? && s.drain.sent
  }

  function PageAsked(s: State, t: Task): nat {
    match PcOf(s, t)
    case AwaitPage(_, pages, _, _) => |pages|
    case _ => 0
  }

  /** A page is awaited that no cache has. */
  predicate Painting(s: State, t: Task) {
    PcOf(s, t).AwaitPage? && PcOf(s, t).hit.None? && s.session.Some?
  }

  /** What the event does to the backend: it starts, takes a change with its answer, or paints a page. */
  function NextBackend(s: State, n: Option<Backends.Native>, e: Event, initial: Outcome, paint: Backends.Painter, x: Settings): Option<Backends.Native> {
    if e.StartDone? && e.backend.Some? && s.init.Starting? then Some(Backends.Opened(s.init.files, initial))
    else if n.None? then None
    else if e.Flushed? && Sending(s) then Some(EditBackend(n.value, s.drain.change, e.outcome, x).0)
    else if e.PageDone? && Painting(s, e.task) then Some(RenderBackend(n.value, paint, PageAsked(s, e.task), x).0)
    else n
  }

  function BackendAfter(events: seq<Event>, initial: Outcome, paint: Backends.Painter, x: Settings): Option<Backends.Native> {
    if events == [] then None
    else
      var before := events[..|events| - 1];
      NextBackend(Run(before), BackendAfter(before, initial, paint, x), events[|events| - 1], initial, paint, x)
  }

  function SizeOf(image: Option<Backends.Image>): Option<nat> {
    match image
    case None => None
    case Some(i) => Some(|i.data|)
  }

  /** The event answers for this backend: it is the one started, and a page asked of it has the size it paints. */
  predicate Answers(s: State, n: Option<Backends.Native>, e: Event, paint: Backends.Painter, x: Settings) {
    && (e.StartDone? && e.backend.Some? ==> e.backend.value == x.backend)
    && (e.PageDone? && Painting(s, e.task) && n.Some? ==> e.size == SizeOf(RenderBackend(n.value, paint, PageAsked(s, e.task), x).1))
  }

  predicate AllAnswer(events: seq<Event>, initial: Outcome, paint: Backends.Painter, x: Settings) {
    if events == [] then true
    else
      var before := events[..|events| - 1];
      && AllAnswer(before, initial, paint, x)
      && Answers(Run(before), BackendAfter(before, initial, paint, x), events[|events| - 1], paint, x)
  }

  /** The session is in use: its engine runs, it is not closing, and no change has been refused. */
  predicate InUse(s: State) {
    s.session.Some? && s.session.value.alive && !s.closing && !s.drain.BadRange?
  }

  /** Same state, and every cached page is the image painted for the edits it is marked with. */
  ghost predicate Mirrors(n: Backends.Native, e: Engine, paint: Backends.Painter, x: Settings) {
    && Simulates(n, e, x) && n.answered && n.compiled == n.edits
    && forall k: nat | k in e.cache :: Held(n, k, x) == paint(e.cache[k].edits, Backends.Shown(x.backend, PageRequest(k, x)))
  }

  /** The engine without the change it has been sent and not answered. */
  function Unsent(s: State, n: Backends.Native): Engine
    requires s.session.Some?
  {
    if Sending(s) then s.session.value.(buffers := n.buffers, edits := n.edits) else s.session.value
  }

  ghost predicate InStep(s: State, n: Option<Backends.Native>, paint: Backends.Painter, x: Settings) {
    InUse(s) ==>
      && n.Some? && Mirrors(n.value, Unsent(s, n.value), paint, x)
      && (Sending(s) ==> SendEdit(Unsent(s, n.value), s.drain.change) == Some(s.session.value))
  }

  // ----------------------------------------------- segments that leave the engine alone

  predicate WithEngine(pc: Pc) {
    pc.Applying? || pc.BadRange?
  }

  /** The engine is as before and works on what it worked on, unless the session is closing. */
  predicate Carried(s: State, t: State) {
    t.closing || (!s.closing && t.session == s.session && (t.drain == s.drain || (!WithEngine(s.drain) && !WithEngine(t.drain))))
  }

  lemma CarriedInStep(s: State, t: State, n: Option<Backends.Native>, paint: Backends.Painter, x: Settings)
    requires InStep(s, n, paint, x) && Carried(s, t)
    ensures InStep(t, n, paint, x)
  {
    hide Mirrors, SendEdit;
  }

  lemma BeginCloseCloses(s: State, notify: bool)
    ensures BeginClose(s, notify).closing
  {
  }

  lemma DrainChangesCarried(s: State)
    requires s.processing == !s.drain.Idle?
    ensures Carried(s, DrainChanges(s))
  {
  }

  lemma ContinueCarried(s: State, t: Task)
    requires Flags(s) && !WithEngine(PcOf(s, t))
    ensures Carried(s, Continue(s, t)) && (t.Init? ==> Carried(s, InitFinally(s)))
  {
    hide DrainChanges;
    if t.Init? {
      DrainChangesCarried(s.(initializing := false, init := Idle));
    } else {
      DrainChangesCarried(s.(processing := false, drain := Idle));
    }
  }

  lemma ThrowCarried(s: State, t: Task)
    requires Flags(s) && !WithEngine(PcOf(s, t))
    ensures Carried(s, Throw(s, t))
  {
    hide DrainChanges;
  }

  lemma MoveCarried(s: State, t: Task, pc: Pc)
    requires !WithEngine(PcOf(s, t)) && !WithEngine(pc)
    ensures Carried(s, Goto(s, t, pc))
  {
  }

  lemma CommitCarried(s: State, t: Task, revision: Revision, pages: seq<Page>)
    requires Flags(s) && !WithEngine(PcOf(s, t))
    ensures Carried(s, CommitDocument(s, t, revision, pages))
  {
    hide Continue;
    ContinueCarried(s, t);
  }

  lemma RequestCarried(s: State, t: Task, revision: Revision, pages: seq<Page>)
    requires s.session.Some? && !WithEngine(PcOf(s, t))
    ensures Carried(s, RequestPage(s, t, revision, pages))
  {
    hide Goto;
    var engine := s.session.value;
    MoveCarried(s, t, AwaitPage(revision, pages, if |pages| in engine.cache then Some(engine.cache[|pages|]) else None, engine.edits));
  }

  lemma KeepPageCarried(s: State, t: Task, revision: Revision, pages: seq<Page>, page: Page)
    requires Flags(s) && s.session.Some? && !WithEngine(PcOf(s, t))
    ensures Carried(s, KeepPage(s, t, revision, pages, page))
  {
    hide Carried, Continue, CommitDocument, RequestPage, Goto, Bytes;
    ContinueCarried(s, t);
    CommitCarried(s, t, revision, pages + [page]);
    MoveCarried(s, t, AwaitCount(revision, pages));
    RequestCarried(s, t, revision, pages + [page]);
  }

  lemma CountCarried(s: State, t: Task, count: Option<nat>)
    requires Flags(s) && PcOf(s, t).AwaitCount?
    ensures Carried(s, CountArrived(s, t, PcOf(s, t).revision, PcOf(s, t).pages, count))
  {
    hide Carried, CommitDocument, Throw;
    CommitCarried(s, t, PcOf(s, t).revision, PcOf(s, t).pages);
    ThrowCarried(s, t);
  }

  lemma StartRenderCarried(s: State, t: Task, revision: Revision)
    requires Flags(s) && !WithEngine(PcOf(s, t))
    ensures Carried(s, StartRender(s, t, revision))
  {
    hide Carried, Continue, RequestPage;
    ContinueCarried(s, t);
    if s.session.Some? { RequestCarried(s, t, revision, []); }
  }

  lemma ReadyCarried(s: State, ok: bool, status: Outcome)
    requires Flags(s) && s.init.Ready?
    ensures Carried(s, ReadySettled(s, s.init.revision, ok, status))
  {
    hide Throw, StartRender;
    ThrowCarried(s, Init);
    StartRenderCarried(s, Init, s.init.revision);
  }

  lemma SendFromCarried(s: State, t: Task, revision: Revision, pages: seq<Page>, index: nat)
    requires !WithEngine(PcOf(s, t))
    ensures Carried(s, SendFrom(s, t, revision, pages, index))
  {
  }

  lemma SelfCarried(s: State, t: Task, revision: Revision)
    ensures Carried(s, s)
    ensures !WithEngine(PcOf(s, t)) ==> Carried(s, SendCompileError(s, t, revision))
  {
  }

  /** Every send but that of a started change. */
  lemma SendSettledCarried(s: State, t: Task, ok: bool)
    requires Flags(s) && !(PcOf(s, t).Started? && ok)
    ensures Carried(s, SendSettled(s, t, ok))
  {
    hide Carried, Throw, Continue, BeginClose, Goto, StartRender, SendFrom, SendCompileError, SendEditSegment, Flags;
    var pc := PcOf(s, t);
    SelfCarried(s, t, 1);
    if pc.BadRange? || pc.Failing? {
      CloseCarried(s, t);
    } else if !WithEngine(pc) {
      ThrowCarried(s, t);
      ContinueCarried(s, t);
      match pc {
        case NotRendered(revision) => SelfCarried(s, t, revision);
        case RenderPending(revision) => StartRenderCarried(s, t, revision);
        case AwaitDocument(revision, pages) => SendFromCarried(s, t, revision, pages, 0);
        case AwaitPageSent(revision, pages, i) => SendFromCarried(s, t, revision, pages, i + 1);
        case _ =>
      }
    }
  }

  lemma CloseCarried(s: State, t: Task)
    ensures Carried(s, Goto(BeginClose(s, true), t, WaitClosed))
  {
    hide BeginClose;
    BeginCloseCloses(s, true);
  }

  lemma FrameCarried(s: State, e: Event)
    requires Flags(s)
    ensures Carried(s, HandleFrame(s, e))
  {
    hide DrainChanges, BeginClose, NormalizePath;
    BeginCloseCloses(s, true);
    if e.ChangeFrame? {
      DrainChangesCarried(s.(latestReceived := e.change.revision, queue := s.queue + [e.change],
                             history := s.history.(accepted := s.history.accepted + [e.change])));
    }
  }

  lemma HandlerCarried(s: State, index: nat, ok: bool)
    ensures Carried(s, HandlerSettled(s, index, ok))
  {
    hide BeginClose;
    if index < |s.handlers| {
      var rest := s.(handlers := s.handlers[..index] + s.handlers[index + 1..]);
      BeginCloseCloses(rest, true);
      BeginCloseCloses(rest, false);
    }
  }

  /** The events on the way out, and those that only note something. */
  lemma CloseEventsCarried(s: State, e: Event)
    requires Flags(s)
    requires e.TimerFires? || e.ServerShutdown? || e.SocketDown? || e.SocketClosed? || e.SocketError? || e.ClosedSent? || e.NativeClosed?
    ensures Carried(s, Step(s, e))
  {
    hide HandleFrame, StartSettled, ReadySettled, InitFinally, Continue, SendSettled, PageArrived, CountArrived, HandlerSettled,
         Settle, NativeExits, BeginClose;
    BeginCloseCloses(s, true);
    BeginCloseCloses(s, false);
    BeginCloseCloses(s.(socketOpen := false), false);
  }

  // ------------------------------------------------------- segments that use the engine

  /** An engine that cannot be in use afterwards is of no concern. */
  lemma ExitInStep(s: State, reported: bool, n: Option<Backends.Native>, paint: Backends.Painter, x: Settings)
    requires InStep(s, n, paint, x)
    ensures InStep(NativeExits(s, reported), n, paint, x)
  {
    hide Mirrors, SendEdit;
  }

  lemma StartInStep(s: State, b: Backend, initial: Outcome, paint: Backends.Painter, x: Settings)
    requires Control(s) && s.init.Starting? && b == x.backend
    ensures InStep(StartSettled(s, s.init.revision, s.init.files, Some(b)), Some(Backends.Opened(s.init.files, initial)), paint, x)
  {
    hide BuffersOf, Simulates, Held;
    OpenSimulated(s.init.files, initial, x);
  }

  lemma StartDoneInStep(s: State, n: Option<Backends.Native>, backend: Option<Backend>, initial: Outcome, paint: Backends.Painter, x: Settings)
    requires Control(s) && InStep(s, n, paint, x) && s.init.Starting? && (backend.Some? ==> backend.value == x.backend)
    ensures InStep(StartSettled(s, s.init.revision, s.init.files, backend), NextBackend(s, n, StartDone(backend), initial, paint, x), paint, x)
  {
    hide InStep, Places, Lifecycle, Throw, OpenedWith;
    if backend.Some? {
      StartInStep(s, backend.value, initial, paint, x);
    } else {
      ThrowCarried(s, Init);
      CarriedInStep(s, Throw(s, Init), n, paint, x);
    }
  }

  /** A change is sent: the backend will take it together with its answer. */
  lemma SendEditInStep(s: State, c: Change, n: Option<Backends.Native>, paint: Backends.Painter, x: Settings)
    requires InStep(s, n, paint, x) && s.session.Some? && s.drain == Started(c)
    ensures InStep(SendEditSegment(s, c), n, paint, x)
  {
    hide Mirrors, EditBuffers;
    var t := SendEditSegment(s, c);
    if InUse(s) && t.drain.sent {
      assert n.value.buffers == s.session.value.buffers && n.value.edits == s.session.value.edits by { MirrorText(n.value, s.session.value, paint, x); }
      assert Unsent(t, n.value) == s.session.value;
    }
  }

  lemma MirrorText(n: Backends.Native, e: Engine, paint: Backends.Painter, x: Settings)
    requires Mirrors(n, e, paint, x)
    ensures n.buffers == e.buffers && n.edits == e.edits && n.alive == e.alive && e.backend == x.backend
  {
  }

  /** The answered change leaves both with the same pages, or with none. */
  lemma AnsweredMirrors(n: Backends.Native, e: Engine, c: Change, outcome: Outcome, paint: Backends.Painter, x: Settings)
    requires Mirrors(n, e, paint, x) && SendEdit(e, c).Some?
    ensures Mirrors(EditBackend(n, c, Some(outcome), x).0, SettleEdit(SendEdit(e, c).value, outcome), paint, x)
  {
    hide EditBuffers, Backends.RenderCacheKey, Simulates;
    EditSimulated(n, e, c, Some(outcome), x);
    MirrorText(n, e, paint, x);
    var m, f := EditBackend(n, c, Some(outcome), x).0, SettleEdit(SendEdit(e, c).value, outcome);
    forall k: nat | k in f.cache ensures Held(m, k, x) == Held(n, k, x) && k in e.cache && f.cache[k] == e.cache[k] {}
  }

  lemma FlushedInStep(s: State, outcome: Option<Outcome>, n: Option<Backends.Native>, paint: Backends.Painter, x: Settings)
    requires InStep(s, n, paint, x) && s.session.Some? && s.drain.Applying?
    ensures InStep(Settle(s, s.drain.change, if s.drain.sent then outcome else None),
                   if n.Some? && Sending(s) then Some(EditBackend(n.value, s.drain.change, outcome, x).0) else n, paint, x)
  {
    hide Mirrors, EditBackend, SendEdit, SettleEdit, PlanFor, PcFor;
    var c := s.drain.change;
    if InUse(s) && s.drain.sent && outcome.Some? {
      AnsweredMirrors(n.value, Unsent(s, n.value), c, outcome.value, paint, x);
      PlannedPc(PlanFor(s, outcome.value), c.revision);
    }
    SettleKeepsUse(s, c, if s.drain.sent then outcome else None);
  }

  lemma PlannedPc(plan: RenderPlan, revision: Revision)
    ensures !WithEngine(PcFor(plan, revision))
  {
  }

  lemma SettleKeepsUse(s: State, c: Change, outcome: Option<Outcome>)
    requires s.session.Some? && s.drain.Applying?
    ensures InUse(Settle(s, c, outcome)) ==> InUse(s) && outcome.Some?
  {
    hide PlanFor, PcFor;
  }

  /** A painted page enters both caches, marked with the edits it was painted for. */
  lemma PaintedMirrors(n: Backends.Native, e: Engine, k: nat, paint: Backends.Painter, x: Settings)
    requires Mirrors(n, e, paint, x) && e.alive && k !in e.cache && (x.backend.Texpresso? ==> Backends.DpiInRange(PageRequest(k, x)))
    ensures var (m, image) := RenderBackend(n, paint, k, x);
            if image.None? then m == n
            else Mirrors(m, e.(cache := e.cache[k := Page(k, |image.value.data|, e.edits)]), paint, x)
  {
    hide Backends.RenderCacheKey;
    RenderSimulated(n, e, paint, k, x);
    var (m, image) := RenderBackend(n, paint, k, x);
    if image.Some? {
      assert image == paint(n.edits, Backends.Shown(x.backend, PageRequest(k, x))) by { NotHeld(n, e, k, x); }
      forall j: nat ensures Held(m, j, x) == if j == k then image else Held(n, j, x) { EntersAlone(n, e, paint, k, j, x); }
    }
  }

  /** What a render knows of its engine. */
  lemma PaintingParts(s: State, t: Task)
    requires Control(s) && Good(s) && PcOf(s, t).AwaitPage? && s.session.Some?
    ensures FreshCache(s.session.value) && PcOf(s, t).asked == s.session.value.edits && !WithEngine(s.drain) && Flags(s)
  {
    hide Buffered, Raster, Committed, Wire, Settled, Order, Lifecycle;
    CacheIsFreshWhileRendering(s, t);
    HitParts(s, t);
  }

  /** The state once the page is in the cache, before the render goes on. */
  function WithPage(s: State, page: Page): State
    requires s.session.Some?
  {
    s.(session := Some(s.session.value.(cache := s.session.value.cache[page.number := page])))
  }

  lemma PaintedInStep(s: State, t: Task, n: Option<Backends.Native>, size: nat, paint: Backends.Painter, x: Settings)
    requires Control(s) && Good(s) && InStep(s, n, paint, x) && Painting(s, t) && n.Some?
    requires x.backend.Texpresso? ==> Backends.DpiInRange(PageRequest(PageAsked(s, t), x))
    requires Some(size) == SizeOf(RenderBackend(n.value, paint, PageAsked(s, t), x).1)
    ensures InStep(WithPage(s, Page(PageAsked(s, t), size, PcOf(s, t).asked)), Some(RenderBackend(n.value, paint, PageAsked(s, t), x).0), paint, x)
  {
    hide Control, Good, Mirrors, RenderBackend, SendEdit;
    PaintingParts(s, t);
    if InUse(s) {
      var k, e := PageAsked(s, t), s.session.value;
      if k in e.cache {
        AlreadyHeld(n.value, e, k, paint, x);
        assert e.cache[k := Page(k, size, PcOf(s, t).asked)] == e.cache;
      } else {
        PaintedMirrors(n.value, e, k, paint, x);
      }
    }
  }

  /** A page that is already held is served as it is. */
  lemma AlreadyHeld(n: Backends.Native, e: Engine, k: nat, paint: Backends.Painter, x: Settings)
    requires Mirrors(n, e, paint, x) && k in e.cache && e.alive && (x.backend.Texpresso? ==> Backends.DpiInRange(PageRequest(k, x)))
    ensures var (m, image) := RenderBackend(n, paint, k, x); m == n && SizeOf(image) == Some(e.cache[k].size) && e.cache[k].number == k
  {
    hide Held;
    MirrorText(n, e, paint, x);
    RenderSimulated(n, e, paint, k, x);
  }

  lemma NothingPainted(n: Backends.Native, paint: Backends.Painter, k: nat, x: Settings)
    requires SizeOf(RenderBackend(n, paint, k, x).1) == None
    ensures RenderBackend(n, paint, k, x).0 == n
  {
    hide Backends.Looked, Backends.Cached;
  }

  lemma OutOfUse(s: State, page: Page, paint: Backends.Painter, x: Settings)
    requires s.session.Some? && InStep(s, None, paint, x)
    ensures InStep(WithPage(s, page), None, paint, x)
  {
  }

  lemma PageInStep(s: State, t: Task, n: Option<Backends.Native>, size: Option<nat>, initial: Outcome, paint: Backends.Painter, x: Settings)
    requires Control(s) && Good(s) && InStep(s, n, paint, x) && PcOf(s, t).AwaitPage? && s.session.Some?
    requires x.backend.Texpresso? ==> Backends.DpiInRange(PageRequest(PageAsked(s, t), x))
    requires Answers(s, n, PageDone(t, size), paint, x)
    ensures InStep(PageArrived(s, t, PcOf(s, t), size), NextBackend(s, n, PageDone(t, size), initial, paint, x), paint, x)
  {
    hide Control, Good, InStep, Carried, KeepPage, Goto, RenderBackend;
    var pc := PcOf(s, t);
    PaintingParts(s, t);
    match pc.hit {
      case Some(page) =>
        KeepPageCarried(s, t, pc.revision, pc.pages, page);
        CarriedInStep(s, KeepPage(s, t, pc.revision, pc.pages, page), n, paint, x);
      case None =>
        if size.None? {
          if n.Some? { NothingPainted(n.value, paint, |pc.pages|, x); }
          MoveCarried(s, t, AwaitCount(pc.revision, pc.pages));
          CarriedInStep(s, Goto(s, t, AwaitCount(pc.revision, pc.pages)), n, paint, x);
        } else {
          var page := Page(|pc.pages|, size.value, pc.asked);
          var r, m := WithPage(s, page), NextBackend(s, n, PageDone(t, size), initial, paint, x);
          if n.Some? { PaintedInStep(s, t, n, size.value, paint, x); } else { OutOfUse(s, page, paint, x); }
          KeepPageCarried(r, t, pc.revision, pc.pages, page);
          CarriedInStep(r, KeepPage(r, t, pc.revision, pc.pages, page), m, paint, x);
        }
    }
  }

  // --------------------------------------------------------------------- runs

  /** The page resolution of a session: the protocol admits no other for TeXpresso. */
  predicate Admitted(x: Settings) {
    x.backend.Texpresso? ==> Backends.MIN_TEXPRESSO_RENDER_DPI <= x.dpi <= Backends.MAX_TEXPRESSO_RENDER_DPI
  }

  /** Events that do not touch the engine, or after which it is not in use. */
  lemma OtherEventCarried(s: State, e: Event)
    requires Flags(s) && !e.StartDone? && !e.Flushed? && !e.PageDone? && !e.NativeExit?
    requires e.Sent? ==> !(PcOf(s, e.task).Started? && e.ok)
    ensures Carried(s, Step(s, e))
  {
    hide Carried, Flags, HandleFrame, ReadySettled, InitFinally, Continue, SendSettled, CountArrived, HandlerSettled, BeginClose, ReapNative;
    SelfCarried(s, Init, 1);
    match e {
      case LateCloseDone => if s.init.LateClosing? { ContinueCarried(s, Init); }
      case ReadySent(ok, status) => if s.init.Ready? { ReadyCarried(s, ok, status); }
      case Sent(t, ok) => SendSettledCarried(s, t, ok);
      case CountDone(t, count) => if PcOf(s, t).AwaitCount? { CountCarried(s, t, count); }
      case HandlerSent(index, ok) => HandlerCarried(s, index, ok);
      case ClosedResolved(t) => if PcOf(s, t).WaitClosed? { ContinueCarried(s, t); }
      case BinaryFrame => FrameCarried(s, e);
      case MalformedFrame => FrameCarried(s, e);
      case ShutdownFrame => FrameCarried(s, e);
      case InitializeFrame(_, _) => FrameCarried(s, e);
      case ChangeFrame(_) => FrameCarried(s, e);
      case _ => CloseEventsCarried(s, e);
    }
  }

  lemma ChangeSentInStep(s: State, t: Task, n: Option<Backends.Native>, paint: Backends.Painter, x: Settings)
    requires Control(s) && InStep(s, n, paint, x) && PcOf(s, t).Started?
    ensures InStep(SendSettled(s, t, true), n, paint, x)
  {
    hide InStep, SendEditSegment, Lifecycle;
    if s.session.Some? { SendEditInStep(s, s.drain.change, n, paint, x); }
  }

  lemma StepInStep(s: State, n: Option<Backends.Native>, e: Event, initial: Outcome, paint: Backends.Painter, x: Settings)
    requires Control(s) && Good(s) && InStep(s, n, paint, x) && Answers(s, n, e, paint, x) && Admitted(x)
    ensures InStep(Step(s, e), NextBackend(s, n, e, initial, paint, x), paint, x)
  {
    hide Good, InStep, Places, Lifecycle, Flags, HandleFrame, ReadySettled, InitFinally, Continue, SendSettled, CountArrived,
         HandlerSettled, BeginClose, ReapNative, StartSettled, Settle, PageArrived, NativeExits, EditBackend, RenderBackend;
    if e.StartDone? {
      if s.init.Starting? { StartDoneInStep(s, n, e.backend, initial, paint, x); }
    } else if e.Flushed? {
      ApplyingHasSession(s);
      if s.drain.Applying? { FlushedInStep(s, e.outcome, n, paint, x); }
    } else if e.PageDone? {
      if PcOf(s, e.task).AwaitPage? && s.session.Some? { PageInStep(s, e.task, n, e.size, initial, paint, x); }
    } else if e.NativeExit? {
      ExitInStep(s, e.reported, n, paint, x);
    } else if e.Sent? && PcOf(s, e.task).Started? && e.ok {
      ChangeSentInStep(s, e.task, n, paint, x);
    } else {
      OtherEventCarried(s, e);
      CarriedInStep(s, Step(s, e), n, paint, x);
    }
  }

  lemma ApplyingHasSession(s: State)
    requires Flags(s)
    ensures s.drain.Applying? ==> s.session.Some?
  {
  }

  lemma {:induction false} InStepOfRun(events: seq<Event>, initial: Outcome, paint: Backends.Painter, x: Settings)
    requires AllAnswer(events, initial, paint, x) && Admitted(x)
    ensures InStep(Run(events), BackendAfter(events, initial, paint, x), paint, x)
  {
    hide Step, Answers, NextBackend, InStep;
    if events == [] {
      NothingYet(paint, x);
    } else {
      var before := events[..|events| - 1];
      InStepOfRun(before, initial, paint, x);
      InvariantOfRun(before);
      StepInStep(Run(before), BackendAfter(before, initial, paint, x), events[|events| - 1], initial, paint, x);
    }
  }

  lemma NothingYet(paint: Backends.Painter, x: Settings)
    ensures InStep(FRESH, None, paint, x)
  {
  }

  /**
   * Over every run in which pages are answered as the backend paints them: while
   * a session in use renders, the backend holds the same text and the same
   * pages, and every page either can serve from its cache is the very image
   * the engine would paint for the changes applied so far.
   */
  lemma {:induction false} ServedPagesAreCurrent(events: seq<Event>, t: Task, initial: Outcome, paint: Backends.Painter, x: Settings, k: nat)
    requires AllAnswer(events, initial, paint, x) && Admitted(x)
    requires InUse(Run(events)) && PcOf(Run(events), t).AwaitPage?
    ensures var s := Run(events); var n := BackendAfter(events, initial, paint, x); var e := s.session.value;
            && n.Some? && n.value.buffers == e.buffers && n.value.edits == s.history.appliedCount
            && (k in e.cache <==> Held(n.value, k, x).Some?)
            && (k in e.cache ==>
                  && Held(n.value, k, x) == paint(s.history.appliedCount, Backends.Shown(x.backend, PageRequest(k, x)))
                  && SizeOf(Held(n.value, k, x)) == Some(e.cache[k].size))
  {
    InStepOfRun(events, initial, paint, x);
    CacheIsFresh(events, t);
    InvariantOfRun(events);
    hide Run, Control, Good, Held, AllAnswer, BackendAfter;
    PaintingParts(Run(events), t);
  }
}
