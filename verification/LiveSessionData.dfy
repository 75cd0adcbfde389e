/**
 * The data invariant of the live session: what the queue, the revision
 * counters, the buffers, the raster cache and the published documents have to
 * do with the changes accepted so far.
 */
module LiveSessionData {
  import opened Wrappers
  import opened SourceText
  import opened LiveSession
  import opened LiveSessionControl

  // ------------------------------------------------------------- revisions

  function RevisionAfter(first: nat, accepted: seq<Change>, k: nat): nat
    requires k <= |accepted|
  {
    if k == 0 then first else accepted[k - 1].revision
  }

  /** The revision reached after the first `k` accepted changes. */
  function RevisionAt(h: History, k: nat): nat
    requires k <= |h.accepted|
  {
    RevisionAfter(h.firstRevision, h.accepted, k)
  }

  function Revisions(changes: seq<Change>): (r: seq<nat>)
    ensures |r| == |changes|
  {
    if changes == [] then [] else Revisions(changes[..|changes| - 1]) + [changes[|changes| - 1].revision]
  }

  ghost predicate Increasing(h: History) {
    forall i | 0 <= i < |h.accepted| ::
      RevisionAfter(h.firstRevision, h.accepted, i) < RevisionAfter(h.firstRevision, h.accepted, i + 1)
  }

  lemma {:induction false} RevisionsIncrease(h: History, i: nat, j: nat)
    requires Increasing(h) && i < j <= |h.accepted|
    ensures RevisionAt(h, i) < RevisionAt(h, j)
    decreases j
  {
    if i == j - 1 {
    } else {
      RevisionsIncrease(h, i, j - 1);
    }
    assert RevisionAfter(h.firstRevision, h.accepted, j - 1) < RevisionAfter(h.firstRevision, h.accepted, j - 1 + 1);
  }

  /** The change taken from the queue and not yet applied. */
  function InFlight(pc: Pc): Option<Change> {
    match pc
    case Started(c) => Some(c)
    case Applying(c, _) => Some(c)
    case BadRange(c) => Some(c)
    case _ => None
  }

  function PcRevision(pc: Pc): Option<nat> {
    match pc
    case Ready(r) => Some(r)
    case NotRendered(r) => Some(r)
    case RenderPending(r) => Some(r)
    case ErrorSent(r) => Some(r)
    case AwaitPage(r, _, _, _) => Some(r)
    case AwaitCount(r, _) => Some(r)
    case AwaitDocument(r, _) => Some(r)
    case AwaitPageSent(r, _, _) => Some(r)
    case AwaitComplete(r, _) => Some(r)
    case _ => None
  }

  ghost predicate Order(s: State) {
    var h := s.history;
    && (!s.initialized ==> h.accepted == [] && h.firstRevision == 0)
    && Increasing(h)
    && h.appliedCount <= h.dequeued <= |h.accepted| && h.dequeued <= h.appliedCount + 1
    && s.latestReceived == RevisionAt(h, |h.accepted|)
    && s.applied == RevisionAt(h, h.appliedCount)
    && (!s.closing ==> s.queue == h.accepted[h.dequeued..])
    && (s.initializing ==> h.dequeued == 0)
    && AppliedRevisions(s.emitted) == Revisions(h.accepted[..h.appliedCount])
  }

  ghost predicate Tasks(s: State) {
    var h := s.history;
    && h.appliedCount <= |h.accepted|
    && (InFlight(s.drain).Some? ==> h.dequeued == h.appliedCount + 1 && h.appliedCount < |h.accepted|)
    && (InFlight(s.drain).Some? ==> h.accepted[h.appliedCount] == InFlight(s.drain).value)
    && (InFlight(s.drain).None? && !s.drain.Failing? && !s.closing ==> h.dequeued == h.appliedCount)
    && (PcRevision(s.init).Some? ==> PcRevision(s.init).value == s.applied)
    && (PcRevision(s.drain).Some? ==> PcRevision(s.drain).value == s.applied)
    && (s.drain.Coalesced? && !s.closing ==> s.queue != [])
  }

  // --------------------------------------------------------------- buffers

  /** Where the engine may be one edit ahead of the last applied revision. */
  predicate Loose(s: State) {
    s.drain.BadRange? || s.drain.WaitClosed? || (s.drain.Idle? && s.closing && !s.initializing)
  }

  ghost predicate Buffered(s: State) {
    s.session.Some? ==>
      var h, e := s.history, s.session.value;
      && h.appliedCount <= e.edits <= h.dequeued <= |h.accepted|
      && Replay(h.initial, h.accepted[..e.edits]) == Some(e.buffers)
      && (s.drain.Applying? ==> e.edits == h.appliedCount + if s.drain.sent then 1 else 0)
      && (!Loose(s) && !s.drain.Applying? ==> e.edits == h.appliedCount)
  }

  // --------------------------------------------------------------- rasters

  ghost predicate GoodPages(pages: seq<Page>, edits: nat) {
    && |pages| <= MAX_PAGES
    && Bytes(pages) <= MAX_DOCUMENT_BYTES
    && forall i | 0 <= i < |pages| ::
         pages[i].number == i && pages[i].edits == edits && pages[i].size <= MAX_PAGE_BYTES
  }

  ghost predicate GoodCache(e: Engine) {
    forall n | n in e.cache :: e.cache[n].number == n && e.cache[n].edits <= e.edits
  }

  /** Every cached raster shows the source as it is now. */
  ghost predicate FreshCache(e: Engine) {
    forall n | n in e.cache :: e.cache[n].number == n && e.cache[n].edits == e.edits
  }

  predicate Rendering(pc: Pc) {
    pc.RenderPending? || pc.AwaitPage? || pc.AwaitCount?
  }

  ghost predicate RasterPc(pc: Pc, e: Engine) {
    match pc
    case AwaitPage(_, pages, hit, asked) =>
      GoodPages(pages, e.edits) && asked == e.edits
      && (hit.Some? ==> hit.value.number == |pages| && hit.value.edits == e.edits)
    case AwaitCount(_, pages) => GoodPages(pages, e.edits)
    case _ => true
  }

  ghost predicate Raster(s: State) {
    && (s.initializing || !s.initialized ==> s.history.settled.Rendered?)
    && (Rendering(s.drain) ==> s.history.settled.Rendered?)
    && (s.session.Some? ==>
          var e := s.session.value;
          && GoodCache(e)
          && (s.history.settled.Rendered? && e.edits == s.history.appliedCount ==> FreshCache(e))
          && RasterPc(s.init, e) && RasterPc(s.drain, e))
  }

  // ------------------------------------------------------------- documents

  /**
   * A committed document: between 1 and 63 pages, all of the source after the
   * same accepted change, which was the newest one when the document was committed.
   */
  ghost predicate GoodCommit(h: History, c: Commit) {
    && 1 <= |c.pages| < MAX_PAGES && GoodPages(c.pages, c.edits)
    && c.edits <= |h.accepted| && c.revision == RevisionAt(h, c.edits) == c.newest
  }

  function LastGood(commits: seq<Commit>): Option<nat> {
    if commits == [] then None else Some(commits[|commits| - 1].revision)
  }

  function PageMessages(revision: nat, pages: seq<Page>): (r: seq<Message>)
    ensures |r| == |pages|
    ensures forall i | 0 <= i < |pages| :: r[i] == PageMessage(revision, pages[i])
  {
    seq(|pages|, i requires 0 <= i < |pages| => PageMessage(revision, pages[i]))
  }

  /** What one committed document puts on the wire. */
  function Burst(c: Commit): (r: seq<Message>)
    ensures |r| == |c.pages| + 2
  {
    [Document(c.revision, c.pages)] + PageMessages(c.revision, c.pages) + [RevisionComplete(c.revision, |c.pages|)]
  }

  function Bursts(commits: seq<Commit>): seq<Message> {
    if commits == [] then [] else Bursts(commits[..|commits| - 1]) + Burst(commits[|commits| - 1])
  }

  predicate Publishing(pc: Pc) {
    pc.AwaitDocument? || pc.AwaitPageSent? || pc.AwaitComplete?
  }

  predicate BeforeCommit(pc: Pc) {
    pc.Starting? || pc.LateClosing? || pc.Ready? || pc.ErrorSent? || Rendering(pc)
  }

  predicate Broken(s: State) {
    s.init.Failing? || s.init.WaitClosed? || s.drain.Failing? || s.drain.WaitClosed?
    || (s.init.Idle? && s.drain.Idle? && s.closing)
  }

  ghost predicate PublishingPc(h: History, pc: Pc) {
    match pc
    case AwaitDocument(r, pages) => CurrentCommit(h, r, pages) && h.progress == 1
    case AwaitPageSent(r, pages, i) => CurrentCommit(h, r, pages) && i < |pages| && h.progress == i + 2
    case AwaitComplete(r, pages) => CurrentCommit(h, r, pages) && h.progress == |pages| + 2
    case _ => true
  }

  ghost predicate CurrentCommit(h: History, r: nat, pages: seq<Page>) {
    h.commits != [] && h.commits[|h.commits| - 1] == Commit(r, r, h.appliedCount, pages)
  }

  /** Every committed document has gone out whole, except possibly the last one. */
  ghost predicate Wire(s: State) {
    var h := s.history;
    if h.commits == [] then Publications(s.emitted) == []
    else
      var last := Burst(h.commits[|h.commits| - 1]);
      && h.progress <= |last|
      && Publications(s.emitted) == Bursts(h.commits[..|h.commits| - 1]) + last[..h.progress]
      && (!Publishing(s.init) && !Publishing(s.drain) && !Broken(s) ==> h.progress == |last|)
  }

  ghost predicate Committed(s: State) {
    var h := s.history;
    && (forall i | 0 <= i < |h.commits| :: GoodCommit(h, h.commits[i]))
    && (forall i, j | 0 <= i < j < |h.commits| :: h.commits[i].edits < h.commits[j].edits)
    && s.lastGood == LastGood(h.commits)
    && (h.commits != [] ==> h.commits[|h.commits| - 1].edits <= h.appliedCount)
    && (BeforeCommit(s.init) ==> h.commits == [])
    && (Rendering(s.drain) && h.commits != [] ==> h.commits[|h.commits| - 1].edits < h.appliedCount)
    && (!s.initialized ==> h.commits == [])
    && PublishingPc(h, s.init) && PublishingPc(h, s.drain)
  }

  // ------------------------------------------------------------ convergence

  /** The newest applied revision is on the client's screen, or its error is. */
  ghost predicate Shown(s: State) {
    s.lastGood == Some(s.applied) || ErrorReported(s.emitted, s.applied)
  }

  ghost predicate Settled(s: State) {
    && (s.init.ErrorSent? || s.drain.ErrorSent? ==> ErrorReported(s.emitted, s.applied))
    && (!s.closing && s.initialized && !s.initializing && !s.processing ==> s.queue == [] && Shown(s))
  }

  ghost predicate Good(s: State) {
    Order(s) && Tasks(s) && Buffered(s) && Raster(s) && Committed(s) && Wire(s) && Settled(s)
  }
}
