/**
 * The live-preview session (texpressoLiveSession.ts, over texpressoSession.ts
 * and liveLatexSession.ts) as a transition system.
 *
 * One connection runs several asynchronous activities on the same fields:
 * frame handlers, one initialisation, one drain loop, one close path. Each
 * function below is the code of one activity between two `await`s; an event
 * is whatever ends the `await`. `Step` takes any event in any state and does
 * nothing when no activity waits for it, so a run is an arbitrary sequence of
 * events and every interleaving is covered.
 *
 * The TeX engine is an oracle: it may answer each change with success, a
 * LaTeX error or a failure, and each page request with any page or a failure.
 * A page carries the number of edits the engine had been sent when the page
 * was requested.
 */
module LiveSession {
  import opened Wrappers
  import opened SourceText

  const MAX_QUEUED_REVISIONS: nat := 64
  const MAX_PAGES: nat := 64
  const MAX_PAGE_BYTES: nat := 16 * 1024 * 1024
  const MAX_DOCUMENT_BYTES: nat := 128 * 1024 * 1024

  type Revision = r: nat | r >= 1 witness 1

  // --------------------------------------------------------------- engine

  datatype Backend = Texpresso | FullCompile
  datatype Outcome = Rendered | LatexError
  datatype Page = Page(number: nat, size: nat, edits: nat)
  datatype Change = Change(revision: Revision, path: string, range: Range, text: Text)
  type Buffers = map<string, Text>

  /** The native session: open buffers, edits sent so far, cached rasters by page number. */
  datatype Engine = Engine(backend: Backend, buffers: Buffers, edits: nat, cache: map<nat, Page>, alive: bool)

  function ReplaceBackslashes(path: string): (r: string)
    ensures |r| == |path|
  {
    seq(|path|, i requires 0 <= i < |path| => if path[i] == '\\' then '/' else path[i])
  }

  function NormalizePath(path: string): string {
    var slashed := ReplaceBackslashes(path);
    if |slashed| >= 2 && slashed[..2] == "./" then slashed[2..] else slashed
  }

  function BuffersOf(files: seq<(string, Text)>): Buffers {
    if files == [] then map[]
    else BuffersOf(files[..|files| - 1])[NormalizePath(files[|files| - 1].0) := files[|files| - 1].1]
  }

  /** The buffers after one change, or None if its file is not open or its range is rejected. */
  function EditBuffers(buffers: Buffers, c: Change): Option<Buffers> {
    var path := NormalizePath(c.path);
    if path !in buffers then None
    else match SliceEdit(buffers[path], c.range, c.text)
         case Success(text) => Some(buffers[path := text])
         case Failure(_) => None
  }

  /** The reference for the buffers: the initial text with the changes applied in order. */
  function Replay(initial: Buffers, changes: seq<Change>): Option<Buffers> {
    if changes == [] then Some(initial)
    else match Replay(initial, changes[..|changes| - 1])
         case None => None
         case Some(buffers) => EditBuffers(buffers, changes[|changes| - 1])
  }

  /** The part of applyRangeChange before its await: reject, or send the command and store the new text. */
  function SendEdit(engine: Engine, c: Change): Option<Engine> {
    if !engine.alive then None
    else match EditBuffers(engine.buffers, c)
         case None => None
         case Some(buffers) => Some(engine.(buffers := buffers, edits := engine.edits + 1))
  }

  /** After the flush: TeXpresso drops its rasters on success only, the full compiler always. */
  function SettleEdit(engine: Engine, outcome: Outcome): Engine {
    if outcome.Rendered? || engine.backend.FullCompile? then engine.(cache := map[]) else engine
  }

  function CloseEngine(engine: Engine): Engine {
    engine.(alive := false, cache := if engine.backend.FullCompile? then map[] else engine.cache)
  }

  // ------------------------------------------------------------- messages

  datatype RenderPlan = PendingPlan | CoalescedPlan | NotRenderedPlan
  datatype Message =
    | SessionReady(revision: nat)
    | RevisionStarted(revision: nat, depth: nat)
    | RevisionApplied(revision: nat, plan: RenderPlan, depth: nat)
    | Document(revision: nat, pages: seq<Page>)
    | PageMessage(revision: nat, page: Page)
    | RevisionComplete(revision: nat, pageCount: nat)
    | CompileError(revision: nat, lastGood: Option<nat>)
    | ProtocolError(fatal: bool)
    | SessionError
    | SessionClosed

  /** The revisions announced as applied, in order. */
  function AppliedRevisions(messages: seq<Message>): seq<nat> {
    if messages == [] then []
    else AppliedRevisions(messages[..|messages| - 1])
         + match messages[|messages| - 1] { case RevisionApplied(r, _, _) => [r] case _ => [] }
  }

  predicate IsPublication(m: Message) {
    m.Document? || m.PageMessage? || m.RevisionComplete?
  }

  /** The messages that carry page output, in order. */
  function Publications(messages: seq<Message>): seq<Message> {
    if messages == [] then []
    else Publications(messages[..|messages| - 1])
         + if IsPublication(messages[|messages| - 1]) then [messages[|messages| - 1]] else []
  }

  ghost predicate ErrorReported(messages: seq<Message>, revision: nat) {
    exists i | 0 <= i < |messages| :: messages[i].CompileError? && messages[i].revision == revision
  }

  // ---------------------------------------------------------------- state

  /** Where an activity waits. `Idle` is an activity that is not running. */
  datatype Pc =
    | Idle
    | Starting(revision: Revision, files: seq<(string, Text)>)
    | LateClosing
    | Ready(revision: Revision)
    | Started(change: Change)
    | Applying(change: Change, sent: bool)
    | BadRange(change: Change)
    | NotRendered(revision: Revision)
    | Coalesced
    | RenderPending(revision: Revision)
    | ErrorSent(revision: Revision)
    | AwaitPage(revision: Revision, pages: seq<Page>, hit: Option<Page>, asked: nat)
    | AwaitCount(revision: Revision, pages: seq<Page>)
    | AwaitDocument(revision: Revision, pages: seq<Page>)
    | AwaitPageSent(revision: Revision, pages: seq<Page>, index: nat)
    | AwaitComplete(revision: Revision, pages: seq<Page>)
    | Failing
    | WaitClosed

  datatype Task = Init | Drain
  datatype Closer = NotClosing | Notifying | Reaping | Finished
  datatype Handler = ProtocolFailure(fatal: bool) | NativeFailure
  datatype Commit = Commit(revision: nat, newest: nat, edits: nat, pages: seq<Page>)

  datatype State = State(
    initialized: bool,
    initializing: bool,
    processing: bool,
    closing: bool,
    queue: seq<Change>,
    latestReceived: nat,
    applied: nat,
    lastGood: Option<nat>,
    session: Option<Engine>,
    exitListener: bool,
    socketOpen: bool,
    init: Pc,
    drain: Pc,
    closer: Closer,
    handlers: seq<Handler>,
    emitted: seq<Message>,
    history: History)

  /** What has happened so far; nothing in the code reads it. */
  datatype History = History(
    initial: Buffers,
    firstRevision: nat,
    accepted: seq<Change>,
    dequeued: nat,
    appliedCount: nat,
    settled: Outcome,
    commits: seq<Commit>,
    progress: nat,
    starts: nat,
    closes: nat,
    closedCalls: nat)

  const FRESH: State := State(
    false, false, false, false, [], 0, 0, None, None, false, true, Idle, Idle, NotClosing, [], [],
    History(map[], 0, [], 0, 0, Rendered, [], 0, 0, 0, 0))

  function PcOf(s: State, t: Task): Pc {
    if t.Init? then s.init else s.drain
  }

  function Goto(s: State, t: Task, pc: Pc): State {
    if t.Init? then s.(init := pc) else s.(drain := pc)
  }

  /** Hands one message to the outbound queue. */
  function Emit(s: State, m: Message): State {
    s.(emitted := s.emitted + [m])
  }

  // ------------------------------------------------------------ close path

  /** close() up to its first await. */
  function BeginClose(s: State, notify: bool): State {
    if s.closing then s
    else
      var closing := s.(closing := true, queue := [], exitListener := false);
      if notify && s.socketOpen then Emit(closing, SessionClosed).(closer := Notifying) else ReapNative(closing)
  }

  function ReapNative(s: State): State {
    match s.session
    case None => s.(closer := Reaping)
    case Some(engine) =>
      s.(closer := Reaping, session := Some(CloseEngine(engine)), history := s.history.(closes := s.history.closes + 1))
  }

  // ------------------------------------------------------------ drain loop

  /** The head of the while loop, entered with a queued change. */
  function Dequeue(s: State): State
    requires s.queue != []
  {
    var rest := s.queue[1..];
    var dequeued := s.(queue := rest, drain := Started(s.queue[0]), history := s.history.(dequeued := s.history.dequeued + 1));
    Emit(dequeued, RevisionStarted(s.queue[0].revision, |rest|))
  }

  /** drainChanges(): with nothing queued it sets and clears `processing` without awaiting. */
  function DrainChanges(s: State): State {
    if s.processing || s.initializing || s.closing || s.session.None? || s.queue == [] then s
    else Dequeue(s.(processing := true))
  }

  function DrainFinally(s: State): State {
    var stopped := s.(processing := false, drain := Idle);
    if !s.closing && s.queue != [] then DrainChanges(stopped) else stopped
  }

  function DrainLoop(s: State): State {
    if !s.closing && s.queue != [] then Dequeue(s) else DrainFinally(s)
  }

  function InitFinally(s: State): State {
    var stopped := s.(initializing := false, init := Idle);
    if !s.closing then DrainChanges(stopped) else stopped
  }

  /** The code after a render or an error report returned normally. */
  function Continue(s: State, t: Task): State {
    if t.Init? then InitFinally(s) else DrainLoop(s)
  }

  /** The catch clause: sessionFailure() returns at once when the session is already closing. */
  function Throw(s: State, t: Task): State {
    if s.closing then (if t.Init? then InitFinally(s) else DrainFinally(s))
    else Emit(Goto(s, t, Failing), SessionError)
  }

  function SendCompileError(s: State, t: Task, revision: Revision): State {
    Emit(Goto(s, t, ErrorSent(revision)), CompileError(revision, s.lastGood))
  }

  function SendEditSegment(s: State, c: Change): State
    requires s.session.Some?
  {
    match SendEdit(s.session.value, c)
    case None => s.(drain := Applying(c, false))
    case Some(engine) => s.(drain := Applying(c, true), session := Some(engine))
  }

  /** A change that compiled is rendered unless a newer one is already waiting. */
  function PlanFor(s: State, outcome: Outcome): RenderPlan {
    if outcome.LatexError? then NotRenderedPlan else if s.queue != [] then CoalescedPlan else PendingPlan
  }

  function PcFor(plan: RenderPlan, revision: Revision): Pc {
    match plan
    case NotRenderedPlan => NotRendered(revision)
    case CoalescedPlan => Coalesced
    case PendingPlan => RenderPending(revision)
  }

  /** After applyRangeChange settled; a change that was never sent can only fail. */
  function Settle(s: State, c: Change, outcome: Option<Outcome>): State
    requires s.session.Some?
  {
    match outcome
    case None => Emit(s.(drain := BadRange(c)), ProtocolError(true))
    case Some(o) =>
      var plan := PlanFor(s, o);
      var settled := s.(session := Some(SettleEdit(s.session.value, o)), applied := c.revision, drain := PcFor(plan, c.revision),
                        history := s.history.(appliedCount := s.history.appliedCount + 1, settled := o));
      Emit(settled, RevisionApplied(c.revision, plan, |s.queue|))
  }

  // ---------------------------------------------------------------- render

  function Bytes(pages: seq<Page>): nat {
    if pages == [] then 0 else Bytes(pages[..|pages| - 1]) + pages[|pages| - 1].size
  }

  function StartRender(s: State, t: Task, revision: Revision): State {
    if s.session.None? || s.closing then Continue(s, t) else RequestPage(s, t, revision, [])
  }

  function RequestPage(s: State, t: Task, revision: Revision, pages: seq<Page>): State
    requires s.session.Some?
  {
    var engine := s.session.value;
    var hit := if |pages| in engine.cache then Some(engine.cache[|pages|]) else None;
    Goto(s, t, AwaitPage(revision, pages, hit, engine.edits))
  }

  /** renderPage() resolved: a cached raster, a new one that enters the cache, or an error. */
  function PageArrived(s: State, t: Task, pc: Pc, size: Option<nat>): State
    requires s.session.Some? && pc.AwaitPage?
  {
    match pc.hit
    case Some(page) => KeepPage(s, t, pc.revision, pc.pages, page)
    case None =>
      match size
      case None => Goto(s, t, AwaitCount(pc.revision, pc.pages))
      case Some(bytes) =>
        var page := Page(|pc.pages|, bytes, pc.asked);
        var engine := s.session.value;
        KeepPage(s.(session := Some(engine.(cache := engine.cache[page.number := page]))), t, pc.revision, pc.pages, page)
  }

  /** The limit checks throw inside the try block, so they too end in the page-count probe. */
  function KeepPage(s: State, t: Task, revision: Revision, pages: seq<Page>, page: Page): State
    requires s.session.Some?
  {
    if |pages| == MAX_PAGES || page.size > MAX_PAGE_BYTES || Bytes(pages) + page.size > MAX_DOCUMENT_BYTES then
      Goto(s, t, AwaitCount(revision, pages))
    else
      NextPage(s, t, revision, pages + [page])
  }

  function NextPage(s: State, t: Task, revision: Revision, pages: seq<Page>): State
    requires s.session.Some?
  {
    if |pages| > MAX_PAGES then CommitDocument(s, t, revision, pages)
    else if revision != s.latestReceived && |pages| > 0 then Continue(s, t)
    else RequestPage(s, t, revision, pages)
  }

  function CountArrived(s: State, t: Task, revision: Revision, pages: seq<Page>, count: Option<nat>): State {
    if |pages| < MAX_PAGES && count == Some(|pages|) && |pages| > 0 then CommitDocument(s, t, revision, pages)
    else Throw(s, t)
  }

  function CommitDocument(s: State, t: Task, revision: Revision, pages: seq<Page>): State {
    if revision != s.latestReceived then Continue(s, t)
    else
      var edits := if s.session.Some? then s.session.value.edits else 0;
      var committed := s.(lastGood := Some(revision),
                          history := s.history.(commits := s.history.commits + [Commit(revision, s.latestReceived, edits, pages)], progress := 1));
      Emit(Goto(committed, t, AwaitDocument(revision, pages)), Document(revision, pages))
  }

  function NextSend(revision: Revision, pages: seq<Page>, index: nat): Message {
    if index < |pages| then PageMessage(revision, pages[index]) else RevisionComplete(revision, |pages|)
  }

  function NextPc(revision: Revision, pages: seq<Page>, index: nat): Pc {
    if index < |pages| then AwaitPageSent(revision, pages, index) else AwaitComplete(revision, pages)
  }

  /** The sends that follow the document message: every page in order, then the commit point. */
  function SendFrom(s: State, t: Task, revision: Revision, pages: seq<Page>, index: nat): State {
    var advanced := s.(history := s.history.(progress := s.history.progress + 1));
    Emit(Goto(advanced, t, NextPc(revision, pages, index)), NextSend(revision, pages, index))
  }

  // ---------------------------------------------------------------- events

  datatype Event =
    | BinaryFrame
    | MalformedFrame
    | ShutdownFrame
    | InitializeFrame(revision: Revision, files: seq<(string, Text)>)
    | ChangeFrame(change: Change)
    | StartDone(backend: Option<Backend>)
    | LateCloseDone
    | ReadySent(ok: bool, status: Outcome)
    | Sent(task: Task, ok: bool)
    | Flushed(outcome: Option<Outcome>)
    | PageDone(task: Task, size: Option<nat>)
    | CountDone(task: Task, count: Option<nat>)
    | HandlerSent(index: nat, ok: bool)
    | NativeExit(reported: bool)
    | TimerFires
    | ServerShutdown
    | SocketDown
    | SocketClosed
    | SocketError
    | ClosedSent
    | NativeClosed
    | ClosedResolved(task: Task)

  function Refuse(s: State, fatal: bool): State {
    Emit(s.(handlers := s.handlers + [ProtocolFailure(fatal)]), ProtocolError(fatal))
  }

  /** handleFrame() for an initialize message, then initialize() up to its first await. */
  function HandleInitialize(s: State, revision: Revision, files: seq<(string, Text)>): State {
    if s.initialized || s.initializing then Refuse(s, false)
    else s.(initializing := true, init := Starting(revision, files))
  }

  /** enqueueChange(). */
  function HandleChange(s: State, c: Change): State {
    if !s.initialized || s.session.None? then Refuse(s, false)
    else if c.revision <= s.latestReceived then Refuse(s, false)
    else if |s.queue| >= MAX_QUEUED_REVISIONS then Refuse(s, true)
    else if NormalizePath(c.path) !in s.session.value.buffers then Refuse(s, false)
    else
      var queued := s.(latestReceived := c.revision, queue := s.queue + [c],
                       history := s.history.(accepted := s.history.accepted + [c]));
      if !s.initializing then DrainChanges(queued) else queued
  }

  function HandleFrame(s: State, e: Event): State {
    if s.closing then s
    else match e
      case BinaryFrame => Refuse(s, true)
      case MalformedFrame => Refuse(s, false)
      case ShutdownFrame => BeginClose(s, true)
      case InitializeFrame(revision, files) => HandleInitialize(s, revision, files)
      case ChangeFrame(c) => HandleChange(s, c)
      case _ => s
  }

  function OpenedWith(s: State, revision: Revision, engine: Engine): State {
    var ready := s.(session := Some(engine), latestReceived := revision, applied := revision,
                    initialized := true, exitListener := true, init := Ready(revision),
                    history := s.history.(initial := engine.buffers, firstRevision := revision));
    Emit(ready, SessionReady(revision))
  }

  /** startLiveLatexSession() settled, in the middle of initialize(). */
  function StartSettled(s: State, revision: Revision, files: seq<(string, Text)>, backend: Option<Backend>): State {
    match backend
    case None => Throw(s, Init)
    case Some(b) =>
      var started := s.(history := s.history.(starts := s.history.starts + 1));
      if s.closing then
        started.(init := LateClosing, history := started.history.(closes := started.history.closes + 1))
      else
        OpenedWith(started, revision, Engine(b, BuffersOf(files), 0, map[], true))
  }

  function ReadySettled(s: State, revision: Revision, ok: bool, status: Outcome): State {
    if !ok then Throw(s, Init)
    else if status.LatexError? then SendCompileError(s, Init, revision)
    else StartRender(s, Init, revision)
  }

  /** A send of the initialisation or of the drain loop settled. */
  function SendSettled(s: State, t: Task, ok: bool): State {
    match PcOf(s, t)
    case BadRange(_) => Goto(BeginClose(s, true), t, WaitClosed)
    case Failing => Goto(BeginClose(s, true), t, WaitClosed)
    case Started(c) => if !ok then Throw(s, t) else if s.session.None? then s else SendEditSegment(s, c)
    case NotRendered(revision) => if ok then SendCompileError(s, t, revision) else Throw(s, t)
    case ErrorSent(_) => if ok then Continue(s, t) else Throw(s, t)
    case Coalesced => if ok then Continue(s, t) else Throw(s, t)
    case RenderPending(revision) => if ok then StartRender(s, t, revision) else Throw(s, t)
    case AwaitDocument(revision, pages) => if ok then SendFrom(s, t, revision, pages, 0) else Throw(s, t)
    case AwaitPageSent(revision, pages, i) => if ok then SendFrom(s, t, revision, pages, i + 1) else Throw(s, t)
    case AwaitComplete(_, _) => if ok then Continue(s, t) else Throw(s, t)
    case _ => s
  }

  /** The send inside protocolFailure() or nativeSessionFailed() settled. */
  function HandlerSettled(s: State, index: nat, ok: bool): State {
    if index >= |s.handlers| then s
    else
      var rest := s.(handlers := s.handlers[..index] + s.handlers[index + 1..]);
      match s.handlers[index]
      case NativeFailure => BeginClose(rest, true)
      case ProtocolFailure(fatal) => if fatal then BeginClose(rest, true) else if ok then rest else BeginClose(rest, false)
  }

  /** The native process dies; a listener still registered is told unless the session was closing it. */
  function NativeExits(s: State, reported: bool): State {
    if s.session.None? || !s.session.value.alive then s
    else
      var dead := s.(session := Some(s.session.value.(alive := false)));
      if reported && s.exitListener && !s.closing then
        Emit(dead.(handlers := s.handlers + [NativeFailure]), SessionError)
      else dead
  }

  function Step(s: State, e: Event): State {
    match e
    case BinaryFrame => HandleFrame(s, e)
    case MalformedFrame => HandleFrame(s, e)
    case ShutdownFrame => HandleFrame(s, e)
    case InitializeFrame(_, _) => HandleFrame(s, e)
    case ChangeFrame(_) => HandleFrame(s, e)
    case StartDone(backend) => if s.init.Starting? then StartSettled(s, s.init.revision, s.init.files, backend) else s
    case LateCloseDone => if s.init.LateClosing? then InitFinally(s) else s
    case ReadySent(ok, status) => if s.init.Ready? then ReadySettled(s, s.init.revision, ok, status) else s
    case Sent(t, ok) => SendSettled(s, t, ok)
    case Flushed(outcome) =>
      if s.drain.Applying? && s.session.Some? then Settle(s, s.drain.change, if s.drain.sent then outcome else None) else s
    case PageDone(t, size) =>
      if PcOf(s, t).AwaitPage? && s.session.Some? then PageArrived(s, t, PcOf(s, t), size) else s
    case CountDone(t, count) =>
      if PcOf(s, t).AwaitCount? then CountArrived(s, t, PcOf(s, t).revision, PcOf(s, t).pages, count) else s
    case HandlerSent(index, ok) => HandlerSettled(s, index, ok)
    case NativeExit(reported) => NativeExits(s, reported)
    case TimerFires => BeginClose(s, true)
    case ServerShutdown => BeginClose(s, true)
    case SocketDown => s.(socketOpen := false)
    case SocketClosed => BeginClose(s.(socketOpen := false), false)
    case SocketError => BeginClose(s, false)
    case ClosedSent => if s.closer.Notifying? then ReapNative(s.(socketOpen := false)) else s
    case NativeClosed =>
      if s.closer.Reaping? then
        s.(closer := Finished, socketOpen := false, history := s.history.(closedCalls := s.history.closedCalls + 1))
      else s
    case ClosedResolved(t) => if PcOf(s, t).WaitClosed? && s.closer.Finished? then Continue(s, t) else s
  }

  function After(s: State, events: seq<Event>): State {
    if events == [] then s else Step(After(s, events[..|events| - 1]), events[|events| - 1])
  }

  /** The state after a run, from a freshly accepted connection. */
  function Run(events: seq<Event>): State {
    After(FRESH, events)
  }
}
