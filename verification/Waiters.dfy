/**
 * The pending requests of a native TeXpresso session (texpressoSession.ts):
 * three sets of waiters in insertion order, each waiter a promise with a timer.
 */
module Waiters {
  import opened Wrappers

  datatype Kind = FlushAfter(flush: nat) | PageOf(page: nat, dpi: nat) | PageTotal
  datatype Waiter = Waiter(id: nat, kind: Kind)
  datatype Settlement = FlushSeen(flush: nat) | PageShown(page: nat, dpi: nat) | PagesCounted(count: nat) | Rejected

  /** `settled` holds the promises that have settled, `armed` the timers that run. */
  datatype Book = Book(
    flushCount: nat,
    flush: seq<Waiter>,
    pages: seq<Waiter>,
    counts: seq<Waiter>,
    exited: bool,
    closed: bool,
    issued: nat,
    armed: set<nat>,
    settled: map<nat, Settlement>)

  const EMPTY: Book := Book(0, [], [], [], false, false, 0, {}, map[])

  datatype Event =
    | AskFlush
    | AskPage(page: nat, dpi: nat)
    | AskCount
    | FlushLine
    | PageLine(page: nat, valid: bool)
    | PageErrorLine(page: nat)
    | CountLine(count: nat)
    | Timeout(id: nat)
    | ChildError
    | ChildClosed
    | Close

  function SettleOne(b: Book, id: nat, how: Settlement): Book {
    b.(armed := b.armed - {id}, settled := b.settled[id := how])
  }

  /** The edit command is written first, so on a closed or dead session no waiter is made. */
  function RequestFlush(b: Book): Book {
    if b.closed || b.exited then b
    else b.(issued := b.issued + 1, flush := b.flush + [Waiter(b.issued, FlushAfter(b.flushCount))], armed := b.armed + {b.issued})
  }

  /** The waiter is made first: on a dead session it is rejected at once, on a closed one it is left to its timer. */
  function RequestPage(b: Book, page: nat, dpi: nat): Book {
    if b.exited then SettleOne(b.(issued := b.issued + 1), b.issued, Rejected)
    else b.(issued := b.issued + 1, pages := b.pages + [Waiter(b.issued, PageOf(page, dpi))], armed := b.armed + {b.issued})
  }

  function RequestCount(b: Book): Book {
    if b.exited then SettleOne(b.(issued := b.issued + 1), b.issued, Rejected)
    else b.(issued := b.issued + 1, counts := b.counts + [Waiter(b.issued, PageTotal)], armed := b.armed + {b.issued})
  }

  function Without(s: seq<Waiter>, id: nat): seq<Waiter> {
    if s == [] then [] else if s[0].id == id then Without(s[1..], id) else [s[0]] + Without(s[1..], id)
  }

  /** The loop over a copy of the flush waiters, answering those the flush is new for. */
  function AnswerFlush(b: Book, todo: seq<Waiter>): Book {
    if todo == [] then b
    else
      var rest := AnswerFlush(b, todo[..|todo| - 1]);
      var waiter := todo[|todo| - 1];
      if waiter.kind.FlushAfter? && rest.flushCount > waiter.kind.flush then
        SettleOne(rest.(flush := Without(rest.flush, waiter.id)), waiter.id, FlushSeen(rest.flushCount))
      else rest
  }

  function OnFlush(b: Book): Book {
    AnswerFlush(b.(flushCount := b.flushCount + 1), b.flush)
  }

  /** `[...pageImageWaiters].find(...)`: the oldest waiter for the page. */
  function FindPage(s: seq<Waiter>, page: nat): (r: Option<nat>)
    ensures r.Some? ==> r.value < |s| && s[r.value].kind.PageOf? && s[r.value].kind.page == page
  {
    if s == [] then None
    else if s[0].kind.PageOf? && s[0].kind.page == page then Some(0)
    else match FindPage(s[1..], page) { case None => None case Some(i) => Some(i + 1) }
  }

  function OnPage(b: Book, page: nat, shown: bool): Book {
    match FindPage(b.pages, page)
    case None => b
    case Some(i) =>
      var waiter := b.pages[i];
      SettleOne(b.(pages := Without(b.pages, waiter.id)), waiter.id, if shown then PageShown(page, waiter.kind.dpi) else Rejected)
  }

  function OnCount(b: Book, count: nat): Book {
    if b.counts == [] then b
    else SettleOne(b.(counts := Without(b.counts, b.counts[0].id)), b.counts[0].id, PagesCounted(count))
  }

  /** A timer fires: its waiter leaves its set, is rejected, and the session starts to close. */
  function OnTimeout(b: Book, id: nat): Book {
    if id !in b.armed then b
    else
      SettleOne(b.(flush := Without(b.flush, id), pages := Without(b.pages, id), counts := Without(b.counts, id), closed := true),
                id, Rejected)
  }

  function RejectAll(b: Book, waiters: seq<Waiter>): Book {
    if waiters == [] then b
    else SettleOne(RejectAll(b, waiters[..|waiters| - 1]), waiters[|waiters| - 1].id, Rejected)
  }

  /** fail(): once, every waiter of every set is rejected and the sets are cleared. */
  function Fail(b: Book): Book {
    if b.exited then b
    else
      RejectAll(RejectAll(RejectAll(b, b.flush), b.pages), b.counts).(flush := [], pages := [], counts := [], exited := true)
  }

  function Step(b: Book, e: Event): Book {
    match e
    case AskFlush => RequestFlush(b)
    case AskPage(page, dpi) => RequestPage(b, page, dpi)
    case AskCount => RequestCount(b)
    case FlushLine => OnFlush(b)
    case PageLine(page, valid) => OnPage(b, page, valid)
    case PageErrorLine(page) => OnPage(b, page, false)
    case CountLine(count) => OnCount(b, count)
    case Timeout(id) => OnTimeout(b, id)
    case ChildError => Fail(b)
    case ChildClosed => if b.closed then b else Fail(b)
    case Close => b.(closed := true)
  }

  function Run(events: seq<Event>): Book {
    if events == [] then EMPTY else Step(Run(events[..|events| - 1]), events[|events| - 1])
  }

  // --------------------------------------------------------------- invariant

  function Ids(s: seq<Waiter>): set<nat> {
    set w | w in s :: w.id
  }

  ghost predicate Increasing(s: seq<Waiter>) {
    forall i, j | 0 <= i < j < |s| :: s[i].id < s[j].id
  }

  /**
   * A request is in exactly one set, once, while its timer runs, and its
   * timer runs exactly while it has not settled.
   */
  ghost predicate Accounted(b: Book) {
    && Increasing(b.flush) && Increasing(b.pages) && Increasing(b.counts)
    && Ids(b.flush) !! Ids(b.pages) && Ids(b.flush) !! Ids(b.counts) && Ids(b.pages) !! Ids(b.counts)
    && b.armed == Ids(b.flush) + Ids(b.pages) + Ids(b.counts)
    && b.armed !! b.settled.Keys
    && (forall id: nat :: id < b.issued <==> id in b.armed || id in b.settled)
  }

  /** Every flush waiter waits for the very next flush. */
  ghost predicate FlushCurrent(b: Book) {
    forall w | w in b.flush :: w.kind == FlushAfter(b.flushCount)
  }

  ghost predicate DeadIsEmpty(b: Book) {
    b.exited ==> b.flush == [] && b.pages == [] && b.counts == []
  }

  ghost predicate Sound(b: Book) {
    Accounted(b) && FlushCurrent(b) && DeadIsEmpty(b)
  }

  /** What has settled stays settled, the same way. */
  ghost predicate Keeps(b: Book, c: Book) {
    (forall id | id in b.settled :: id in c.settled && c.settled[id] == b.settled[id]) && (b.exited ==> c.exited)
  }

  lemma {:induction false} WithoutMembers(s: seq<Waiter>, id: nat)
    ensures forall w :: w in Without(s, id) <==> w in s && w.id != id
  {
    if s == [] {
    } else {
      WithoutMembers(s[1..], id);
      assert s == [s[0]] + s[1..];
    }
  }

  lemma IncreasingTail(s: seq<Waiter>)
    requires s != [] && Increasing(s)
    ensures Increasing(s[1..]) && forall w | w in s[1..] :: s[0].id < w.id
  {
    assert forall i | 0 <= i < |s| - 1 :: s[1..][i] == s[i + 1];
  }

  lemma IncreasingCons(w: Waiter, s: seq<Waiter>)
    requires Increasing(s) && forall v | v in s :: w.id < v.id
    ensures Increasing([w] + s)
  {
  }

  lemma {:induction false} WithoutIncreasing(s: seq<Waiter>, id: nat)
    requires Increasing(s)
    ensures Increasing(Without(s, id))
  {
    if s == [] {
    } else {
      IncreasingTail(s);
      WithoutIncreasing(s[1..], id);
      WithoutMembers(s[1..], id);
      IncreasingCons(s[0], Without(s[1..], id));
    }
  }

  lemma WithoutRemoves(s: seq<Waiter>, id: nat)
    requires Increasing(s)
    ensures Increasing(Without(s, id))
    ensures forall w :: w in Without(s, id) <==> w in s && w.id != id
    ensures Ids(Without(s, id)) == Ids(s) - {id}
  {
    hide Increasing;
    WithoutIncreasing(s, id);
    WithoutMembers(s, id);
  }

  lemma WithoutHead(s: seq<Waiter>)
    requires s != [] && Increasing(s)
    ensures Without(s, s[0].id) == s[1..]
  {
    WithoutAbsent(s[1..], s[0].id);
  }

  lemma {:induction false} WithoutAbsent(s: seq<Waiter>, id: nat)
    requires forall w | w in s :: w.id != id
    ensures Without(s, id) == s
  {
    if s == [] {
    } else {
      WithoutAbsent(s[1..], id);
      assert s == [s[0]] + s[1..];
    }
  }

  lemma AppendSound(s: seq<Waiter>, w: Waiter)
    requires Increasing(s) && (forall v | v in s :: v.id < w.id)
    ensures Increasing(s + [w]) && Ids(s + [w]) == Ids(s) + {w.id}
  {
  }

  lemma IdsBelow(b: Book)
    requires Accounted(b)
    ensures forall w | w in b.flush || w in b.pages || w in b.counts :: w.id in b.armed && w.id < b.issued
    ensures b.issued !in b.armed && b.issued !in b.settled
  {
    forall w | w in b.flush || w in b.pages || w in b.counts ensures w.id in b.armed {
      assert w.id in Ids(b.flush) || w.id in Ids(b.pages) || w.id in Ids(b.counts);
    }
  }

  lemma RequestSound(b: Book, e: Event)
    requires Sound(b) && (e.AskFlush? || e.AskPage? || e.AskCount?)
    ensures Sound(Step(b, e)) && Keeps(b, Step(b, e))
  {
    IdsBelow(b);
    match e {
      case AskFlush => AppendSound(b.flush, Waiter(b.issued, FlushAfter(b.flushCount)));
      case AskPage(page, dpi) => AppendSound(b.pages, Waiter(b.issued, PageOf(page, dpi)));
      case AskCount => AppendSound(b.counts, Waiter(b.issued, PageTotal));
    }
  }

  /** Settling one pending request and taking it out of every set keeps the accounts. */
  lemma SettleSound(b: Book, id: nat, how: Settlement, closed: bool)
    requires Sound(b) && id in b.armed
    ensures var c := SettleOne(b.(flush := Without(b.flush, id), pages := Without(b.pages, id), counts := Without(b.counts, id),
                                  closed := closed), id, how);
            Sound(c) && Keeps(b, c)
  {
    WithoutRemoves(b.flush, id);
    WithoutRemoves(b.pages, id);
    WithoutRemoves(b.counts, id);
  }

  lemma OnlyIn(b: Book, id: nat)
    requires Accounted(b)
    ensures id !in Ids(b.flush) ==> Without(b.flush, id) == b.flush
    ensures id !in Ids(b.pages) ==> Without(b.pages, id) == b.pages
    ensures id !in Ids(b.counts) ==> Without(b.counts, id) == b.counts
  {
    if id !in Ids(b.flush) { WithoutAbsent(b.flush, id); }
    if id !in Ids(b.pages) { WithoutAbsent(b.pages, id); }
    if id !in Ids(b.counts) { WithoutAbsent(b.counts, id); }
  }

  lemma OnPageSound(b: Book, page: nat, shown: bool)
    requires Sound(b)
    ensures Sound(OnPage(b, page, shown)) && Keeps(b, OnPage(b, page, shown))
  {
    match FindPage(b.pages, page) {
      case None =>
      case Some(i) =>
        var w := b.pages[i];
        assert w in b.pages && w.id in Ids(b.pages);
        OnlyIn(b, w.id);
        SettleSound(b, w.id, if shown then PageShown(page, w.kind.dpi) else Rejected, b.closed);
    }
  }

  lemma OnCountSound(b: Book, count: nat)
    requires Sound(b)
    ensures Sound(OnCount(b, count)) && Keeps(b, OnCount(b, count))
  {
    if b.counts != [] {
      var w := b.counts[0];
      assert w in b.counts && w.id in Ids(b.counts);
      OnlyIn(b, w.id);
      SettleSound(b, w.id, PagesCounted(count), b.closed);
    }
  }

  /** While the flush loop runs: the first `k` waiters are answered, the others still pending. */
  ghost predicate Answering(b: Book, k: nat, c: Book) {
    && k <= |b.flush| && c.flush == b.flush[k..] && c.flushCount == b.flushCount + 1
    && Accounted(c) && DeadIsEmpty(c) && Keeps(b, c)
    && c.pages == b.pages && c.counts == b.counts && c.issued == b.issued
    && (forall i | 0 <= i < k :: b.flush[i].id in c.settled && c.settled[b.flush[i].id] == FlushSeen(c.flushCount))
  }

  /** Settling a flush waiter touches the other sets no more than it should. */
  lemma SettleFlushWaiter(c: Book, how: Settlement)
    requires Accounted(c) && DeadIsEmpty(c) && c.flush != []
    ensures var id := c.flush[0].id;
            var d := SettleOne(c.(flush := Without(c.flush, id)), id, how);
            && Accounted(d) && DeadIsEmpty(d) && d.flush == c.flush[1..] && Keeps(c, d)
  {
    var w := c.flush[0];
    assert w in c.flush && w.id in Ids(c.flush);
    WithoutRemoves(c.flush, w.id);
    WithoutHead(c.flush);
  }

  lemma AnswerOne(b: Book, k: nat, c: Book)
    requires Sound(b) && Answering(b, k, c) && k < |b.flush|
    ensures var w := b.flush[k];
            && w.kind.FlushAfter? && c.flushCount > w.kind.flush
            && Answering(b, k + 1, SettleOne(c.(flush := Without(c.flush, w.id)), w.id, FlushSeen(c.flushCount)))
  {
    hide Accounted, DeadIsEmpty;
    assert b.flush[k] in b.flush;
    SettleFlushWaiter(c, FlushSeen(c.flushCount));
    assert b.flush[k..][1..] == b.flush[k + 1..];
  }

  lemma NothingAnswered(b: Book)
    requires Sound(b)
    ensures Answering(b, 0, AnswerFlush(b.(flushCount := b.flushCount + 1), b.flush[..0]))
  {
    hide Increasing;
    assert b.flush[0..] == b.flush;
  }

  lemma {:induction false} FlushSoFar(b: Book, k: nat)
    requires Sound(b) && k <= |b.flush|
    ensures Answering(b, k, AnswerFlush(b.(flushCount := b.flushCount + 1), b.flush[..k]))
  {
    hide Sound, Answering;
    if k == 0 {
      NothingAnswered(b);
    } else {
      FlushSoFar(b, k - 1);
      assert b.flush[..k][..k - 1] == b.flush[..k - 1];
      AnswerOne(b, k - 1, AnswerFlush(b.(flushCount := b.flushCount + 1), b.flush[..k - 1]));
    }
  }

  /** A flush answers every pending flush request. */
  lemma OnFlushSound(b: Book)
    requires Sound(b)
    ensures Sound(OnFlush(b)) && Keeps(b, OnFlush(b)) && OnFlush(b).flush == []
    ensures forall w | w in b.flush :: w.id in OnFlush(b).settled && OnFlush(b).settled[w.id] == FlushSeen(b.flushCount + 1)
  {
    hide Accounted, DeadIsEmpty, AnswerFlush;
    FlushSoFar(b, |b.flush|);
    assert b.flush[..|b.flush|] == b.flush;
    forall w | w in b.flush ensures w.id in OnFlush(b).settled && OnFlush(b).settled[w.id] == FlushSeen(b.flushCount + 1) {
      var k :| 0 <= k < |b.flush| && b.flush[k] == w;
    }
  }

  lemma {:induction false} RejectAllEffect(b: Book, s: seq<Waiter>)
    ensures var c := RejectAll(b, s);
            && c.armed == b.armed - Ids(s)
            && c.settled.Keys == b.settled.Keys + Ids(s)
            && (forall id | id in c.settled :: c.settled[id] == if id in Ids(s) then Rejected else b.settled[id])
            && c.flush == b.flush && c.pages == b.pages && c.counts == b.counts
            && c.issued == b.issued && c.flushCount == b.flushCount && c.exited == b.exited
  {
    if s == [] {
    } else {
      RejectAllEffect(b, s[..|s| - 1]);
      assert Ids(s) == Ids(s[..|s| - 1]) + {s[|s| - 1].id};
    }
  }

  lemma FailSound(b: Book)
    requires Sound(b)
    ensures Sound(Fail(b)) && Keeps(b, Fail(b)) && Fail(b).exited && Fail(b).armed == {}
  {
    if !b.exited {
      var c1 := RejectAll(b, b.flush);
      RejectAllEffect(b, b.flush);
      RejectAllEffect(c1, b.pages);
      RejectAllEffect(RejectAll(c1, b.pages), b.counts);
    }
  }

  lemma SoundStep(b: Book, e: Event)
    requires Sound(b)
    ensures Sound(Step(b, e)) && Keeps(b, Step(b, e))
  {
    hide RequestFlush, RequestPage, RequestCount, OnFlush, OnPage, OnCount, OnTimeout, Fail, Accounted, FlushCurrent;
    match e {
      case FlushLine => OnFlushSound(b);
      case PageLine(page, valid) => OnPageSound(b, page, valid);
      case PageErrorLine(page) => OnPageSound(b, page, false);
      case CountLine(count) => OnCountSound(b, count);
      case Timeout(id) => OnTimeoutSound(b, id);
      case ChildError => FailSound(b);
      case ChildClosed => FailSound(b);
      case Close => CloseSound(b);
      case _ => RequestSound(b, e);
    }
  }

  lemma OnTimeoutSound(b: Book, id: nat)
    requires Sound(b)
    ensures Sound(OnTimeout(b, id)) && Keeps(b, OnTimeout(b, id))
  {
    if id in b.armed { SettleSound(b, id, Rejected, true); }
  }

  lemma CloseSound(b: Book)
    requires Sound(b)
    ensures Sound(b.(closed := true))
  {
  }

  /**
   * On every run: each request waits in exactly one set while its timer runs
   * and has settled otherwise; flush requests wait for the next flush; a dead
   * session has no waiters.
   */
  lemma {:induction false} WaiterAccounting(events: seq<Event>)
    ensures Sound(Run(events))
  {
    if events == [] {
    } else {
      WaiterAccounting(events[..|events| - 1]);
      SoundStep(Run(events[..|events| - 1]), events[|events| - 1]);
    }
  }

  /** However a run goes on, what has settled is not settled again, and a dead session stays dead and empty. */
  lemma {:induction false} SettledOnce(events: seq<Event>, n: nat)
    requires n <= |events|
    ensures Keeps(Run(events[..n]), Run(events))
    ensures Run(events[..n]).exited ==> Run(events).flush == [] && Run(events).pages == [] && Run(events).counts == []
    decreases |events|
  {
    WaiterAccounting(events);
    if n < |events| {
      var before := events[..|events| - 1];
      assert before[..n] == events[..n];
      SettledOnce(before, n);
      WaiterAccounting(before);
      SoundStep(Run(before), events[|events| - 1]);
    } else {
      assert events[..n] == events;
    }
  }

  // -------------------------------------------------------------- the object

  class PendingRequests {
    var flushCount: nat
    var flushWaiters: seq<Waiter>
    var pageImageWaiters: seq<Waiter>
    var pageCountWaiters: seq<Waiter>
    var exited: bool
    var closed: bool
    var issued: nat
    var armed: set<nat>
    var settled: map<nat, Settlement>

    ghost function View(): Book
      reads this
    {
      Book(flushCount, flushWaiters, pageImageWaiters, pageCountWaiters, exited, closed, issued, armed, settled)
    }

    constructor ()
      ensures View() == EMPTY
    {
      flushCount, flushWaiters, pageImageWaiters, pageCountWaiters := 0, [], [], [];
      exited, closed, issued, armed, settled := false, false, 0, {}, map[];
    }

    method SettleWaiter(id: nat, how: Settlement)
      modifies this`armed, this`settled
      ensures View() == SettleOne(old(View()), id, how)
    {
      armed := armed - {id};
      settled := settled[id := how];
    }

    method Request(e: Event)
      requires e.AskFlush? || e.AskPage? || e.AskCount?
      modifies this
      ensures View() == Step(old(View()), e)
    {
      if e.AskFlush? && (closed || exited) { return; }
      var id := issued;
      issued := issued + 1;
      if exited {
        SettleWaiter(id, Rejected);
        return;
      }
      armed := armed + {id};
      match e {
        case AskFlush => flushWaiters := flushWaiters + [Waiter(id, FlushAfter(flushCount))];
        case AskPage(page, dpi) => pageImageWaiters := pageImageWaiters + [Waiter(id, PageOf(page, dpi))];
        case AskCount => pageCountWaiters := pageCountWaiters + [Waiter(id, PageTotal)];
      }
    }

    method HandleFlushLine()
      modifies this
      ensures View() == OnFlush(old(View()))
    {
      flushCount := flushCount + 1;
      var copy := flushWaiters;
      ghost var start := View();
      var i := 0;
      assert copy[..0] == [];
      while i < |copy|
        invariant 0 <= i <= |copy|
        invariant View() == AnswerFlush(start, copy[..i])
      {
        var waiter := copy[i];
        assert copy[..i + 1][..i] == copy[..i];
        if waiter.kind.FlushAfter? && flushCount > waiter.kind.flush {
          flushWaiters := Without(flushWaiters, waiter.id);
          SettleWaiter(waiter.id, FlushSeen(flushCount));
        }
        i := i + 1;
      }
      assert copy[..|copy|] == copy;
    }

    method HandlePageLine(page: nat, shown: bool)
      modifies this
      ensures View() == OnPage(old(View()), page, shown)
    {
      var found := FindPage(pageImageWaiters, page);
      if found.None? { return; }
      var waiter := pageImageWaiters[found.value];
      pageImageWaiters := Without(pageImageWaiters, waiter.id);
      SettleWaiter(waiter.id, if shown then PageShown(page, waiter.kind.dpi) else Rejected);
    }

    method HandleCountLine(count: nat)
      modifies this
      ensures View() == OnCount(old(View()), count)
    {
      if pageCountWaiters == [] { return; }
      var waiter := pageCountWaiters[0];
      pageCountWaiters := Without(pageCountWaiters, waiter.id);
      SettleWaiter(waiter.id, PagesCounted(count));
    }

    method TimerFired(id: nat)
      modifies this
      ensures View() == OnTimeout(old(View()), id)
    {
      if id !in armed { return; }
      flushWaiters := Without(flushWaiters, id);
      pageImageWaiters := Without(pageImageWaiters, id);
      pageCountWaiters := Without(pageCountWaiters, id);
      closed := true;
      SettleWaiter(id, Rejected);
    }

    method RejectWaiters(waiters: seq<Waiter>)
      modifies this`armed, this`settled
      ensures View() == RejectAll(old(View()), waiters)
    {
      var i := 0;
      assert waiters[..0] == [];
      while i < |waiters|
        invariant 0 <= i <= |waiters|
        invariant View() == RejectAll(old(View()), waiters[..i])
      {
        assert waiters[..i + 1][..i] == waiters[..i];
        SettleWaiter(waiters[i].id, Rejected);
        i := i + 1;
      }
      assert waiters[..|waiters|] == waiters;
    }

    method SessionFailed()
      modifies this
      ensures View() == Fail(old(View()))
    {
      if exited { return; }
      RejectWaiters(flushWaiters);
      RejectWaiters(pageImageWaiters);
      RejectWaiters(pageCountWaiters);
      flushWaiters, pageImageWaiters, pageCountWaiters := [], [], [];
      exited := true;
    }

    method Handle(e: Event)
      modifies this
      ensures View() == Step(old(View()), e)
    {
      match e {
        case FlushLine => HandleFlushLine();
        case PageLine(page, valid) => HandlePageLine(page, valid);
        case PageErrorLine(page) => HandlePageLine(page, false);
        case CountLine(count) => HandleCountLine(count);
        case Timeout(id) => TimerFired(id);
        case ChildError => SessionFailed();
        case ChildClosed => if !closed { SessionFailed(); }
        case Close => closed := true;
        case _ => Request(e);
      }
    }
  }

  /** A session's requests from its first event to its last. */
  method Serve(events: seq<Event>) returns (requests: PendingRequests)
    ensures fresh(requests) && requests.View() == Run(events)
  {
    hide Step;
    requests := new PendingRequests();
    for n := 0 to |events|
      invariant fresh(requests) && requests.View() == Run(events[..n])
    {
      requests.Handle(events[n]);
      assert events[..n + 1][..n] == events[..n];
    }
    assert events[..|events|] == events;
  }
}
