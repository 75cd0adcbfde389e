/**
 * How many pages a live document may have, against an engine that answers
 * truthfully; and which change frames are accepted.
 */
module LiveSessionPages {
  import opened Wrappers
  import opened SourceText
  import opened LiveSession
  import opened LiveSessionControl
  import opened LiveSessionData
  import opened LiveSessionSteps
  import opened LiveSessionTheorems

  // --------------------------------------------------------- truthful engine

  function Total(sizes: seq<nat>): nat {
    if sizes == [] then 0 else Total(sizes[..|sizes| - 1]) + sizes[|sizes| - 1]
  }

  /** The pages of a document delivered one after the other; `sizes` are their lengths in bytes. */
  function PageAnswers(t: Task, sizes: seq<nat>): (r: seq<Event>)
    ensures |r| == |sizes|
  {
    if sizes == [] then [] else PageAnswers(t, sizes[..|sizes| - 1]) + [PageDone(t, Some(sizes[|sizes| - 1]))]
  }

  /**
   * What an engine says of such a document: its pages, "no such page", its
   * count. A page that comes when the render no longer asks for one is ignored.
   */
  function TruthfulAnswers(t: Task, sizes: seq<nat>): seq<Event> {
    PageAnswers(t, sizes) + [PageDone(t, None), CountDone(t, Some(|sizes|))]
  }

  /** The limits of one page and of all, and room for every page in the page numbers. */
  predicate Fits(sizes: seq<nat>) {
    && |sizes| <= MAX_PAGES && Total(sizes) <= MAX_DOCUMENT_BYTES
    && forall i | 0 <= i < |sizes| :: sizes[i] <= MAX_PAGE_BYTES
  }

  /** The documents a session shows: those that fit, with at least one page and at most 63. */
  predicate Publishable(sizes: seq<nat>) {
    Fits(sizes) && 1 <= |sizes| < MAX_PAGES
  }

  /** A render of the newest revision is about to ask for page 0 with nothing cached. */
  predicate RenderBegins(s: State, t: Task) {
    && PcOf(s, t).AwaitPage? && PcOf(s, t).pages == [] && PcOf(s, t).hit.None?
    && PcOf(s, t).revision == s.latestReceived
    && s.session.Some? && s.session.value.cache == map[]
  }

  predicate PagesOf(pages: seq<Page>, sizes: seq<nat>) {
    |pages| == |sizes| && forall i | 0 <= i < |sizes| :: pages[i].number == i && pages[i].size == sizes[i]
  }

  ghost predicate SameRender(s: State, r: State) {
    && r.closing == s.closing && r.latestReceived == s.latestReceived && r.lastGood == s.lastGood && r.history == s.history
    && r.session.Some?
  }

  /** The render goes on, with these pages so far. */
  ghost predicate Rendering(s: State, t: Task, sizes: seq<nat>, r: State) {
    && SameRender(s, r) && (forall n | n in r.session.value.cache :: n < |sizes|)
    && PcOf(r, t).AwaitPage? && PcOf(r, t).revision == s.latestReceived && PcOf(r, t).hit.None?
    && PagesOf(PcOf(r, t).pages, sizes) && Bytes(PcOf(r, t).pages) == Total(sizes)
  }

  /** The render has stopped after these pages and asked for the page count. */
  ghost predicate Counting(s: State, t: Task, sizes: seq<nat>, r: State) {
    && SameRender(s, r)
    && PcOf(r, t).AwaitCount? && PagesOf(PcOf(r, t).pages, sizes) && PcOf(r, t).revision == s.latestReceived
  }

  /** One more page is kept exactly when the document still fits; otherwise the render stops. */
  lemma OnePage(s: State, t: Task, sizes: seq<nat>, size: nat, r: State)
    requires Rendering(s, t, sizes, r) && Fits(sizes)
    ensures var next := Step(r, PageDone(t, Some(size)));
            if Fits(sizes + [size]) then Rendering(s, t, sizes + [size], next) else Counting(s, t, sizes, next)
  {
    hide Continue, CommitDocument, Bytes, Total;
    var pc := PcOf(r, t);
    BytesOfAppend(pc.pages, Page(|sizes|, size, pc.asked));
    FitsOneMore(sizes, size);
  }

  lemma FitsOneMore(sizes: seq<nat>, size: nat)
    requires Fits(sizes)
    ensures Total(sizes + [size]) == Total(sizes) + size
    ensures Fits(sizes + [size]) <==> |sizes| < MAX_PAGES && size <= MAX_PAGE_BYTES && Total(sizes) + size <= MAX_DOCUMENT_BYTES
  {
    assert (sizes + [size])[..|sizes|] == sizes;
    assert forall i | 0 <= i < |sizes| :: (sizes + [size])[i] == sizes[i];
    assert (sizes + [size])[|sizes|] == size;
  }

  lemma FitsBefore(sizes: seq<nat>)
    requires sizes != [] && Fits(sizes)
    ensures Fits(sizes[..|sizes| - 1])
  {
  }

  /** After its pages a document that fits is still being rendered; for any other the render has stopped at some page. */
  lemma {:induction false} AfterPages(s: State, t: Task, sizes: seq<nat>) returns (kept: seq<nat>)
    requires RenderBegins(s, t)
    ensures var r := After(s, PageAnswers(t, sizes));
            if Fits(sizes) then kept == sizes && Rendering(s, t, sizes, r) else |kept| < |sizes| && Counting(s, t, kept, r)
  {
    hide Step, Rendering, RenderBegins, After, PageAnswers, Counting, Fits;
    if sizes == [] {
      kept := [];
      NoPagesYet(s, t);
    } else {
      var before, size := sizes[..|sizes| - 1], sizes[|sizes| - 1];
      assert sizes == before + [size];
      kept := AfterPages(s, t, before);
      var r := After(s, PageAnswers(t, before));
      AfterOneMorePage(s, t, sizes);
      if Fits(before) {
        OnePage(s, t, before, size, r);
        if Fits(sizes) { kept := sizes; }
      } else {
        if Fits(sizes) { FitsBefore(sizes); }
        PageIgnored(s, t, kept, r, Some(size));
      }
    }
  }

  lemma AfterOneMorePage(s: State, t: Task, sizes: seq<nat>)
    requires sizes != []
    ensures var before := sizes[..|sizes| - 1];
            After(s, PageAnswers(t, sizes)) == Step(After(s, PageAnswers(t, before)), PageDone(t, Some(sizes[|sizes| - 1])))
  {
    hide Step;
    assert PageAnswers(t, sizes)[..|sizes| - 1] == PageAnswers(t, sizes[..|sizes| - 1]);
  }

  lemma NoPagesYet(s: State, t: Task)
    requires RenderBegins(s, t)
    ensures Fits([]) && Rendering(s, t, [], After(s, PageAnswers(t, [])))
  {
  }

  lemma PageIgnored(s: State, t: Task, kept: seq<nat>, r: State, size: Option<nat>)
    requires Counting(s, t, kept, r)
    ensures Step(r, PageDone(t, size)) == r
  {
  }

  lemma AfterTwoMore(s: State, events: seq<Event>, a: Event, b: Event)
    ensures After(s, events + [a, b]) == Step(Step(After(s, events), a), b)
  {
    hide Step;
    assert (events + [a, b])[..|events| + 1] == events + [a];
    assert (events + [a])[..|events|] == events;
  }

  /** Where a render ends: the document is committed with these pages, or the session fails and nothing changed. */
  ghost predicate CommittedWith(s: State, t: Task, sizes: seq<nat>, r: State) {
    && PcOf(r, t).AwaitDocument? && PagesOf(PcOf(r, t).pages, sizes) && r.lastGood == Some(s.latestReceived)
    && |r.history.commits| == |s.history.commits| + 1 && r.history.commits[..|s.history.commits|] == s.history.commits
    && r.history.commits[|s.history.commits|].pages == PcOf(r, t).pages
    && r.history.commits[|s.history.commits|].revision == s.latestReceived
  }

  ghost predicate Rejected(s: State, t: Task, r: State) {
    r.history == s.history && r.lastGood == s.lastGood && (PcOf(r, t).Failing? || (s.closing && PcOf(r, t).Idle?))
  }

  /**
   * Whatever its pages are, a document whose render is not overtaken is
   * committed exactly when every page and all of them together are within the
   * byte limits and there are between 1 and 63: the probe for the page after
   * the last must itself fall below MAX_PAGES, so a document of exactly
   * MAX_PAGES pages ends the session, as does one that exceeds a limit.
   */
  lemma {:induction false} DocumentCommittedIff(s: State, t: Task, sizes: seq<nat>)
    requires RenderBegins(s, t)
    ensures var r := After(s, TruthfulAnswers(t, sizes));
            if 1 <= |sizes| < MAX_PAGES && (forall i | 0 <= i < |sizes| :: sizes[i] <= MAX_PAGE_BYTES) && Total(sizes) <= MAX_DOCUMENT_BYTES
            then CommittedWith(s, t, sizes, r) else Rejected(s, t, r)
  {
    hide Step, Rendering, RenderBegins, CommittedWith, Rejected, After, PageAnswers, Counting, Total;
    var kept := AfterPages(s, t, sizes);
    var r := After(s, PageAnswers(t, sizes));
    AfterTwoMore(s, PageAnswers(t, sizes), PageDone(t, None), CountDone(t, Some(|sizes|)));
    if Fits(sizes) { ProbeAfterLast(s, t, sizes, r); } else { PageIgnored(s, t, kept, r, None); }
    CountAfterProbe(s, t, kept, |sizes|, Step(r, PageDone(t, None)));
  }

  lemma ProbeAfterLast(s: State, t: Task, sizes: seq<nat>, r: State)
    requires Rendering(s, t, sizes, r)
    ensures Counting(s, t, sizes, Step(r, PageDone(t, None)))
  {
    hide Bytes, Total;
  }

  /** The count confirms the end exactly when it is that of the pages kept, above 0 and below MAX_PAGES. */
  lemma CountAfterProbe(s: State, t: Task, kept: seq<nat>, count: nat, c: State)
    requires Counting(s, t, kept, c)
    ensures var r := Step(c, CountDone(t, Some(count)));
            if 1 <= |kept| < MAX_PAGES && count == |kept| then CommittedWith(s, t, kept, r) else Rejected(s, t, r)
  {
    hide Bytes, Continue, Throw;
    if !(1 <= |kept| < MAX_PAGES && count == |kept|) { ThrowKeepsHistory(c, t); }
  }

  lemma ThrowKeepsHistory(s: State, t: Task)
    ensures var r := Throw(s, t);
            r.history == s.history && r.lastGood == s.lastGood && (PcOf(r, t).Failing? || (s.closing && PcOf(r, t).Idle?))
  {
  }

  // ------------------------------------------------- the first document of a run

  /** A client opens a session and the engine starts and compiles its source. */
  function Opening(revision: Revision, files: seq<(string, Text)>, backend: Backend): seq<Event> {
    [InitializeFrame(revision, files), StartDone(Some(backend)), ReadySent(true, Rendered)]
  }

  lemma OpeningRenders(revision: Revision, files: seq<(string, Text)>, backend: Backend)
    ensures var s := Run(Opening(revision, files, backend));
            RenderBegins(s, Init) && s.latestReceived == revision && s.history.commits == [] && s.lastGood == None && !s.closing
  {
    hide BuffersOf;
    var a, b, c := InitializeFrame(revision, files), StartDone(Some(backend)), ReadySent(true, Rendered);
    RunStep([], a);
    RunStep([a], b);
    RunStep([a, b], c);
    assert [] + [a] == [a] && [a] + [b] == [a, b] && [a, b] + [c] == Opening(revision, files, backend);
  }

  lemma RunStep(events: seq<Event>, e: Event)
    ensures Run(events + [e]) == Step(Run(events), e)
  {
    hide Step;
    assert (events + [e])[..|events|] == events;
  }

  lemma {:induction false} AfterConcat(s: State, a: seq<Event>, b: seq<Event>)
    ensures After(s, a + b) == After(After(s, a), b)
    decreases |b|
  {
    hide Step;
    if b == [] {
      assert a + b == a;
    } else {
      AfterConcat(s, a, b[..|b| - 1]);
      assert (a + b)[..|a + b| - 1] == a + b[..|b| - 1];
    }
  }

  /** The runs of one document, from a fresh connection: exactly the publishable ones are committed. */
  lemma {:induction false} FirstDocument(revision: Revision, files: seq<(string, Text)>, backend: Backend, sizes: seq<nat>)
    ensures var r := Run(Opening(revision, files, backend) + TruthfulAnswers(Init, sizes));
            if Publishable(sizes) then |r.history.commits| == 1 && r.lastGood == Some(revision) && PagesOf(r.history.commits[0].pages, sizes)
            else r.history.commits == [] && r.lastGood == None && r.init.Failing?
  {
    hide After, Step, RenderBegins, TruthfulAnswers, Opening, Total;
    var s := Run(Opening(revision, files, backend));
    OpeningRenders(revision, files, backend);
    AfterConcat(FRESH, Opening(revision, files, backend), TruthfulAnswers(Init, sizes));
    DocumentCommittedIff(s, Init, sizes);
  }

  /** A document of 64 pages of one byte each is far within both byte limits, and is never shown. */
  lemma {:induction false} SixtyFourPagesFail(revision: Revision, files: seq<(string, Text)>, backend: Backend)
    ensures var sizes := seq(MAX_PAGES, _ => 1);
            && Fits(sizes) && Total(sizes) == 64
            && var r := Run(Opening(revision, files, backend) + TruthfulAnswers(Init, sizes));
               r.history.commits == [] && r.lastGood == None && r.init.Failing?
  {
    hide Run, Opening, TruthfulAnswers, Total;
    var sizes: seq<nat> := seq(MAX_PAGES, _ => 1);
    TotalOfOnes(MAX_PAGES);
    FirstDocument(revision, files, backend, sizes);
  }

  lemma {:induction false} TotalOfOnes(n: nat)
    ensures Total(seq(n, _ => 1)) == n
  {
    if n == 0 {
      assert seq(n, _ => 1) == [];
    } else {
      var ones: seq<nat> := seq(n, _ => 1);
      var fewer: seq<nat> := seq(n - 1, _ => 1);
      TotalOfOnes(n - 1);
      assert ones[..n - 1] == fewer;
    }
  }

  // ------------------------------------------------------- accepted changes

  /** enqueueChange() accepts a change exactly under these conditions. */
  predicate Accepts(s: State, c: Change) {
    && !s.closing && s.initialized && s.session.Some? && c.revision > s.latestReceived
    && |s.queue| < MAX_QUEUED_REVISIONS && NormalizePath(c.path) in s.session.value.buffers
  }

  predicate SameAccepted(s: State, r: State) {
    r.history.accepted == s.history.accepted && r.history.initial == s.history.initial
  }

  lemma BeginCloseAccepted(s: State, notify: bool)
    ensures SameAccepted(s, BeginClose(s, notify))
  {
  }

  lemma DrainChangesAccepted(s: State)
    ensures SameAccepted(s, DrainChanges(s))
  {
  }

  lemma DrainLoopAccepted(s: State)
    ensures SameAccepted(s, DrainFinally(s)) && SameAccepted(s, DrainLoop(s))
  {
    hide DrainChanges;
    DrainChangesAccepted(s.(processing := false, drain := Idle));
  }

  lemma InitFinallyAccepted(s: State)
    ensures SameAccepted(s, InitFinally(s))
  {
    hide DrainChanges;
    DrainChangesAccepted(s.(initializing := false, init := Idle));
  }

  lemma ContinueAccepted(s: State, t: Task)
    ensures SameAccepted(s, Continue(s, t)) && SameAccepted(s, InitFinally(s)) && SameAccepted(s, DrainFinally(s))
  {
    hide SameAccepted, DrainLoop, DrainFinally, InitFinally;
    DrainLoopAccepted(s);
    InitFinallyAccepted(s);
  }

  lemma ThrowAccepted(s: State, t: Task)
    ensures SameAccepted(s, Throw(s, t))
  {
    hide InitFinally, DrainFinally;
    ContinueAccepted(s, t);
  }

  lemma CommitAccepted(s: State, t: Task, revision: Revision, pages: seq<Page>)
    ensures SameAccepted(s, CommitDocument(s, t, revision, pages))
  {
    hide Continue;
    ContinueAccepted(s, t);
  }

  lemma MoveAccepted(s: State, t: Task, pc: Pc)
    ensures SameAccepted(s, Goto(s, t, pc))
  {
  }

  lemma RequestAccepted(s: State, t: Task, revision: Revision, pages: seq<Page>)
    requires s.session.Some?
    ensures SameAccepted(s, RequestPage(s, t, revision, pages))
  {
  }

  lemma KeepPageAccepted(s: State, t: Task, revision: Revision, pages: seq<Page>, page: Page)
    requires s.session.Some?
    ensures SameAccepted(s, KeepPage(s, t, revision, pages, page))
  {
    hide SameAccepted, Continue, CommitDocument, RequestPage, Goto, Bytes;
    ContinueAccepted(s, t);
    CommitAccepted(s, t, revision, pages + [page]);
    MoveAccepted(s, t, AwaitCount(revision, pages));
    RequestAccepted(s, t, revision, pages + [page]);
  }

  lemma PageArrivedAccepted(s: State, t: Task, pc: Pc, size: Option<nat>)
    requires s.session.Some? && pc.AwaitPage?
    ensures SameAccepted(s, PageArrived(s, t, pc, size))
  {
    hide KeepPage;
    match pc.hit {
      case Some(page) => KeepPageAccepted(s, t, pc.revision, pc.pages, page);
      case None =>
        if size.Some? {
          var page := Page(|pc.pages|, size.value, pc.asked);
          KeepPageAccepted(Cached(s, page), t, pc.revision, pc.pages, page);
        }
    }
  }

  lemma SendSettledAccepted(s: State, t: Task, ok: bool)
    ensures SameAccepted(s, SendSettled(s, t, ok))
  {
    hide SameAccepted, Goto, Throw, Continue, BeginClose, StartRender, SendFrom, SendCompileError, SendEditSegment;
    ThrowAccepted(s, t);
    ContinueAccepted(s, t);
    CloseAndWaitAccepted(s, t);
    var pc := PcOf(s, t);
    match pc {
      case RenderPending(revision) => StartRenderAccepted(s, t, revision);
      case Started(c) => if s.session.Some? { SendEditAccepted(s, c); }
      case NotRendered(revision) => ErrorAccepted(s, t, revision);
      case AwaitDocument(revision, pages) => SendFromAccepted(s, t, revision, pages, 0);
      case AwaitPageSent(revision, pages, i) => SendFromAccepted(s, t, revision, pages, i + 1);
      case _ =>
    }
  }

  lemma CloseAndWaitAccepted(s: State, t: Task)
    ensures SameAccepted(s, Goto(BeginClose(s, true), t, WaitClosed)) && SameAccepted(s, s)
  {
    hide BeginClose;
    BeginCloseAccepted(s, true);
  }

  lemma StartRenderAccepted(s: State, t: Task, revision: Revision)
    ensures SameAccepted(s, StartRender(s, t, revision))
  {
    hide Continue;
    ContinueAccepted(s, t);
  }

  lemma SendEditAccepted(s: State, c: Change)
    requires s.session.Some?
    ensures SameAccepted(s, SendEditSegment(s, c))
  {
    hide SendEdit;
  }

  lemma ErrorAccepted(s: State, t: Task, revision: Revision)
    ensures SameAccepted(s, SendCompileError(s, t, revision))
  {
  }

  lemma SendFromAccepted(s: State, t: Task, revision: Revision, pages: seq<Page>, index: nat)
    ensures SameAccepted(s, SendFrom(s, t, revision, pages, index))
  {
  }

  lemma SmallStepsAccepted(s: State, e: Event)
    requires e.NativeExit? || e.SocketDown? || e.ClosedSent? || e.NativeClosed? || e.Flushed?
    ensures SameAccepted(s, Step(s, e))
  {
    hide HandleFrame, StartSettled, ReadySettled, InitFinally, Continue, SendSettled, PageArrived, CountArrived, HandlerSettled,
         BeginClose, Settle, NativeExits, ReapNative;
    if e.Flushed? && s.drain.Applying? && s.session.Some? { SettleAccepted(s, s.drain.change, if s.drain.sent then e.outcome else None); }
    ReapAccepted(s.(socketOpen := false));
    NativeExitAccepted(s, e.NativeExit? && e.reported);
  }

  lemma SettleAccepted(s: State, c: Change, outcome: Option<Outcome>)
    requires s.session.Some?
    ensures SameAccepted(s, Settle(s, c, outcome))
  {
    hide SettleEdit, PcFor, PlanFor;
  }

  lemma ReapAccepted(s: State)
    ensures SameAccepted(s, ReapNative(s))
  {
  }

  lemma NativeExitAccepted(s: State, reported: bool)
    ensures SameAccepted(s, NativeExits(s, reported))
  {
  }

  /** Starting records the initial buffers; nothing has been accepted then. */
  lemma StartAccepted(s: State, backend: Option<Backend>)
    requires s.init.Starting?
    ensures StartSettled(s, s.init.revision, s.init.files, backend).history.accepted == s.history.accepted
    ensures var r := StartSettled(s, s.init.revision, s.init.files, backend);
            r.history.initial == if backend.Some? && !s.closing then BuffersOf(s.init.files) else s.history.initial
  {
    hide Throw;
    ThrowAccepted(s, Init);
  }

  lemma HandlerAccepted(s: State, index: nat, ok: bool)
    ensures SameAccepted(s, HandlerSettled(s, index, ok))
  {
    hide BeginClose;
    if index < |s.handlers| {
      var rest := s.(handlers := s.handlers[..index] + s.handlers[index + 1..]);
      BeginCloseAccepted(rest, true);
      BeginCloseAccepted(rest, false);
    }
  }

  lemma ChangeAccepted(s: State, c: Change)
    ensures Accepts(s, c) ==> !s.closing
    ensures !s.closing ==> HandleChange(s, c).history.accepted == s.history.accepted + if Accepts(s, c) then [c] else []
    ensures HandleChange(s, c).history.initial == s.history.initial
  {
    hide DrainChanges, NormalizePath;
    DrainChangesAccepted(Push(s, c));
  }

  lemma FrameAccepted(s: State, e: Event)
    requires IsFrame(e)
    ensures Step(s, e).history.accepted ==
            s.history.accepted + if e.ChangeFrame? && Accepts(s, e.change) then [e.change] else []
    ensures Step(s, e).history.initial == s.history.initial
  {
    hide DrainChanges, BeginClose, NormalizePath, StartSettled, ReadySettled, InitFinally, Continue, SendSettled, PageArrived, CountArrived,
         HandlerSettled, Settle, NativeExits, ReapNative, HandleChange, Accepts;
    BeginCloseAccepted(s, true);
    if e.ChangeFrame? { ChangeAccepted(s, e.change); }
  }

  /**
   * The accepted changes are exactly the change frames that met the
   * conditions when they arrived, in order; no other event adds, drops or
   * reorders one.
   */
  lemma AcceptedExactly(s: State, e: Event)
    ensures Step(s, e).history.accepted ==
            s.history.accepted + if e.ChangeFrame? && Accepts(s, e.change) then [e.change] else []
    ensures Step(s, e).history.initial ==
            if e.StartDone? && e.backend.Some? && s.init.Starting? && !s.closing then BuffersOf(s.init.files)
            else s.history.initial
  {
    hide Accepts, HandleFrame, StartSettled, ReadySettled, InitFinally, Continue, SendSettled, PageArrived, Settle,
         CountArrived, HandlerSettled, BeginClose, NativeExits, ReapNative, BuffersOf;
    match e {
      case StartDone(backend) => if s.init.Starting? { StartAccepted(s, backend); }
      case LateCloseDone => ContinueAccepted(s, Init);
      case ReadySent(ok, status) => if s.init.Ready? { ReadyAccepted(s, ok, status); }
      case Sent(t, ok) => SendSettledAccepted(s, t, ok);
      case PageDone(t, size) => if PcOf(s, t).AwaitPage? && s.session.Some? { PageArrivedAccepted(s, t, PcOf(s, t), size); }
      case CountDone(t, count) => if PcOf(s, t).AwaitCount? { CountAccepted(s, t, count); }
      case HandlerSent(index, ok) => HandlerAccepted(s, index, ok);
      case TimerFires => BeginCloseAccepted(s, true);
      case ServerShutdown => BeginCloseAccepted(s, true);
      case SocketClosed => BeginCloseAccepted(s.(socketOpen := false), false);
      case SocketError => BeginCloseAccepted(s, false);
      case ClosedResolved(t) => ContinueAccepted(s, t);
      case Flushed(_) => SmallStepsAccepted(s, e);
      case NativeExit(_) => SmallStepsAccepted(s, e);
      case SocketDown => SmallStepsAccepted(s, e);
      case ClosedSent => SmallStepsAccepted(s, e);
      case NativeClosed => SmallStepsAccepted(s, e);
      case _ => FrameAccepted(s, e);
    }
  }

  lemma ReadyAccepted(s: State, ok: bool, status: Outcome)
    requires s.init.Ready?
    ensures SameAccepted(s, ReadySettled(s, s.init.revision, ok, status))
  {
    hide Throw, StartRender;
    ThrowAccepted(s, Init);
    StartRenderAccepted(s, Init, s.init.revision);
  }

  lemma CountAccepted(s: State, t: Task, count: Option<nat>)
    requires PcOf(s, t).AwaitCount?
    ensures SameAccepted(s, CountArrived(s, t, PcOf(s, t).revision, PcOf(s, t).pages, count))
  {
    hide Throw, CommitDocument;
    ThrowAccepted(s, t);
    CommitAccepted(s, t, PcOf(s, t).revision, PcOf(s, t).pages);
  }
}
