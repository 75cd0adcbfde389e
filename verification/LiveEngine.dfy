/**
 * The two native backends behind the live session (texpressoSession.ts and
 * liveLatexSession.ts): buffers and cached pages, for any request.
 */
module LiveEngine {
  import opened LiveSession
  import opened SourceText
  import opened Splitting
  import opened Wrappers

  const MIN_TEXPRESSO_RENDER_DPI: nat := 72
  const MAX_TEXPRESSO_RENDER_DPI: nat := 300

  datatype Theme = Theme(foreground: nat, background: nat)
  datatype Request = Request(page: int, dpi: nat, theme: Option<Theme>)
  datatype Image = Image(width: nat, height: nat, data: seq<bv8>)

  /**
   * The engine as an oracle: the image of a page after so many edits, or
   * nothing where the engine would report an error. The outcome of an edit
   * comes with the edit.
   */
  type Painter = (nat, Request) -> Option<Image>

  // ----------------------------------------------------------------- cache keys

  function Decimal(n: nat): (s: string)
    ensures |s| > 0 && ':' !in s && forall i | 0 <= i < |s| :: '0' <= s[i] <= '9'
  {
    var digit := ('0' as int + n % 10) as char;
    if n < 10 then [digit] else Decimal(n / 10) + [digit]
  }

  /** What a backend looks at of a request: the full compiler knows no themes. */
  function Shown(b: Backend, request: Request): Request {
    if b.Texpresso? then request else request.(theme := None)
  }

  function KeyParts(b: Backend, request: Request): seq<string>
    requires request.page >= 0
  {
    var place := [Decimal(request.page), Decimal(request.dpi)];
    if b.FullCompile? then place
    else match request.theme
         case Some(theme) => place + [Decimal(theme.foreground), Decimal(theme.background)]
         case None => place + ["paper"]
  }

  /** renderCacheKey, and the key of the full compiler. */
  function RenderCacheKey(b: Backend, request: Request): string
    requires request.page >= 0
  {
    JoinOn(KeyParts(b, request), ':')
  }

  lemma {:induction false} DecimalIsInjective(m: nat, n: nat)
    requires Decimal(m) == Decimal(n)
    ensures m == n
  {
    var s, t := Decimal(m), Decimal(n);
    assert s[|s| - 1] == t[|t| - 1];
    if m < 10 || n < 10 {
    } else {
      assert Decimal(m / 10) == s[..|s| - 1] == Decimal(n / 10);
      DecimalIsInjective(m / 10, n / 10);
    }
  }

  lemma {:induction false} PartsAreSeparable(b: Backend, request: Request)
    requires request.page >= 0
    ensures SplitOn(RenderCacheKey(b, request), ':') == KeyParts(b, request)
  {
    assert ':' !in "paper";
    SplitOfJoin(KeyParts(b, request), ':');
  }

  /** Requests that show different things never share a cache entry. */
  lemma {:induction false} CacheKeyIsInjective(b: Backend, request: Request, other: Request)
    requires request.page >= 0 && other.page >= 0
    requires RenderCacheKey(b, request) == RenderCacheKey(b, other)
    ensures Shown(b, request) == Shown(b, other)
  {
    hide Decimal, RenderCacheKey;
    PartsAreSeparable(b, request);
    PartsAreSeparable(b, other);
    var parts := KeyParts(b, request);
    assert parts == KeyParts(b, other);
    assert parts[0] == Decimal(request.page) == Decimal(other.page) && parts[1] == Decimal(request.dpi) == Decimal(other.dpi);
    DecimalIsInjective(request.page, other.page);
    DecimalIsInjective(request.dpi, other.dpi);
    if b.Texpresso? {
      if request.theme.Some? {
        assert |parts| == 4 && other.theme.Some?;
        assert parts[2] == Decimal(request.theme.value.foreground) == Decimal(other.theme.value.foreground);
        assert parts[3] == Decimal(request.theme.value.background) == Decimal(other.theme.value.background);
        DecimalIsInjective(request.theme.value.foreground, other.theme.value.foreground);
        DecimalIsInjective(request.theme.value.background, other.theme.value.background);
      } else {
        assert |parts| == 3;
      }
    }
  }

  // ---------------------------------------------------------------- operations

  /**
   * A backend: `edits` changes stored so far, `compiled` of them in the last
   * output, `snapshot` its result, and whether the last change was answered.
   */
  datatype Native = Native(
    buffers: Buffers,
    edits: nat,
    rendered: map<string, Image>,
    snapshot: Outcome,
    compiled: nat,
    answered: bool,
    alive: bool
  )

  function Opened(files: seq<(string, Text)>, outcome: Outcome): Native {
    Native(BuffersOf(files), 0, map[], outcome, 0, true, true)
  }

  function Stored(n: Native, buffers: Buffers): Native {
    n.(buffers := buffers, edits := n.edits + 1, answered := false)
  }

  /** The change reached the output with this result. */
  function Answered(n: Native, outcome: Outcome, clear: bool): Native {
    n.(snapshot := outcome, compiled := n.edits, answered := true, rendered := if clear then map[] else n.rendered)
  }

  /** TexpressoSession.applyRangeChange. A change without an answer has closed the session: the wait timed out or the process died. */
  function EditTexpresso(n: Native, c: Change, outcome: Option<Outcome>): (Native, Option<Outcome>) {
    match EditBuffers(n.buffers, c)
    case None => (n, None)
    case Some(buffers) =>
      if !n.alive then (n, None)
      else match outcome
           case None => (Stored(n, buffers).(alive := false), None)
           case Some(o) => (Answered(Stored(n, buffers), o, o.Rendered?), Some(o))
  }

  /** FullCompileLiveSession.applyRangeChange. A failure to write or compile leaves the session open, with its old output. */
  function EditFull(n: Native, c: Change, outcome: Option<Outcome>): (Native, Option<Outcome>) {
    if !n.alive then (n, None)
    else match EditBuffers(n.buffers, c)
         case None => (n, None)
         case Some(buffers) =>
           match outcome
           case None => (Stored(n, buffers), None)
           case Some(o) => (Answered(Stored(n, buffers), o, true), Some(o))
  }

  function Cached(b: Backend, n: Native, request: Request, image: Image): Native
    requires request.page >= 0
  {
    n.(rendered := n.rendered[RenderCacheKey(b, request) := image])
  }

  function Looked(b: Backend, n: Native, request: Request): Option<Image>
    requires request.page >= 0
  {
    if RenderCacheKey(b, request) in n.rendered then Some(n.rendered[RenderCacheKey(b, request)]) else None
  }

  predicate DpiInRange(request: Request) {
    MIN_TEXPRESSO_RENDER_DPI <= request.dpi <= MAX_TEXPRESSO_RENDER_DPI
  }

  /** TexpressoSession.renderPage: the cache is asked before the process. */
  function RenderTexpresso(n: Native, paint: Painter, request: Request): (Native, Option<Image>) {
    if request.page < 0 || !DpiInRange(request) then (n, None)
    else if Looked(Texpresso, n, request).Some? then (n, Looked(Texpresso, n, request))
    else if !n.alive then (n, None)
    else match paint(n.edits, request)
         case None => (n, None)
         case Some(image) => (Cached(Texpresso, n, request, image), Some(image))
  }

  /** FullCompileLiveSession.renderPage: the pages of the last successful build, whatever the theme; no page is below the first. */
  function RenderFull(n: Native, paint: Painter, request: Request): (Native, Option<Image>) {
    if !n.alive || request.page < 0 then (n, None)
    else if Looked(FullCompile, n, request).Some? then (n, Looked(FullCompile, n, request))
    else if n.snapshot.LatexError? then (n, None)
    else match paint(n.compiled, Shown(FullCompile, request))
         case None => (n, None)
         case Some(image) => (Cached(FullCompile, n, request, image), Some(image))
  }

  // ---------------------------------------------------------------------- runs

  datatype Command = Edit(change: Change, outcome: Option<Outcome>) | Render(request: Request) | Close

  function StepNative(b: Backend, n: Native, paint: Painter, command: Command): Native {
    match command
    case Edit(c, outcome) => if b.Texpresso? then EditTexpresso(n, c, outcome).0 else EditFull(n, c, outcome).0
    case Render(request) =>
      if b.Texpresso? then RenderTexpresso(n, paint, request).0 else RenderFull(n, paint, request).0
    case Close => n.(alive := false, rendered := if b.FullCompile? then map[] else n.rendered)
  }

  function RunNative(b: Backend, n: Native, paint: Painter, commands: seq<Command>): Native {
    if commands == [] then n
    else StepNative(b, RunNative(b, n, paint, commands[..|commands| - 1]), paint, commands[|commands| - 1])
  }

  /** The output is that of the buffers as they are, and it can be shown. */
  predicate Current(n: Native) {
    n.answered && n.snapshot.Rendered?
  }

  /** The last change was answered, and not with the LaTeX error after which TeXpresso keeps its pages. */
  predicate Trusted(b: Backend, n: Native) {
    n.answered && (b.FullCompile? || n.snapshot.Rendered?)
  }

  /** While the cache can be trusted, every page in it is what the engine would paint now. */
  ghost predicate Fresh(b: Backend, n: Native, paint: Painter) {
    && (n.answered ==> n.compiled == n.edits)
    && (Trusted(b, n) ==> forall request: Request | request.page >= 0 && Looked(b, n, request).Some? ::
          paint(n.edits, Shown(b, request)) == Looked(b, n, request))
  }

  lemma CachedKeepsFresh(b: Backend, n: Native, paint: Painter, request: Request, image: Image)
    requires Fresh(b, n, paint) && request.page >= 0 && (Trusted(b, n) ==> paint(n.edits, Shown(b, request)) == Some(image))
    ensures Fresh(b, Cached(b, n, request, image), paint)
  {
    hide RenderCacheKey, Shown;
    var r := Cached(b, n, request, image);
    forall other: Request | Trusted(b, r) && other.page >= 0 && Looked(b, r, other).Some?
      ensures paint(r.edits, Shown(b, other)) == Looked(b, r, other)
    {
      if RenderCacheKey(b, other) == RenderCacheKey(b, request) {
        CacheKeyIsInjective(b, other, request);
      } else {
        assert Looked(b, n, other) == Looked(b, r, other);
      }
    }
  }

  /** Whatever an edit leaves is fresh: an answered change that succeeds empties the cache. */
  lemma EditKeepsFresh(b: Backend, n: Native, c: Change, outcome: Option<Outcome>, paint: Painter)
    requires Fresh(b, n, paint)
    ensures Fresh(b, if b.Texpresso? then EditTexpresso(n, c, outcome).0 else EditFull(n, c, outcome).0, paint)
  {
    hide RenderCacheKey, EditBuffers, Shown;
  }

  lemma StepKeepsFresh(b: Backend, n: Native, paint: Painter, command: Command)
    requires Fresh(b, n, paint)
    ensures Fresh(b, StepNative(b, n, paint, command), paint)
  {
    hide RenderCacheKey, EditTexpresso, EditFull, Fresh, Cached, RenderTexpresso, RenderFull;
    match command {
      case Edit(c, outcome) => EditKeepsFresh(b, n, c, outcome, paint);
      case Render(request) => RenderKeepsFresh(b, n, paint, request);
      case Close => CloseKeepsFresh(b, n, paint);
    }
  }

  lemma CloseKeepsFresh(b: Backend, n: Native, paint: Painter)
    requires Fresh(b, n, paint)
    ensures Fresh(b, n.(alive := false), paint) && Fresh(b, n.(alive := false, rendered := map[]), paint)
  {
    hide RenderCacheKey, Shown;
    var closed := n.(alive := false);
    forall request: Request | request.page >= 0 ensures Looked(b, closed, request) == Looked(b, n, request) {}
  }

  lemma RenderKeepsFresh(b: Backend, n: Native, paint: Painter, request: Request)
    requires Fresh(b, n, paint)
    ensures Fresh(b, if b.Texpresso? then RenderTexpresso(n, paint, request).0 else RenderFull(n, paint, request).0, paint)
  {
    hide RenderCacheKey, Cached, Looked;
    if request.page >= 0 {
      var made := if b.Texpresso? then n.edits else n.compiled;
      var image := paint(made, Shown(b, request));
      if image.Some? && (n.answered ==> n.compiled == n.edits) { CachedKeepsFresh(b, n, paint, request, image.value); }
    }
  }

  lemma {:induction false} FreshOfRun(b: Backend, n: Native, paint: Painter, commands: seq<Command>)
    requires Fresh(b, n, paint)
    ensures Fresh(b, RunNative(b, n, paint, commands), paint)
  {
    hide Fresh, StepNative;
    if commands == [] {
    } else {
      FreshOfRun(b, n, paint, commands[..|commands| - 1]);
      StepKeepsFresh(b, RunNative(b, n, paint, commands[..|commands| - 1]), paint, commands[|commands| - 1]);
    }
  }

  /**
   * Over any run of either backend: whenever the last change was answered with
   * success, rendering a page answers what the engine would paint now, cached
   * or not.
   */
  lemma {:induction false} CachedPageIsCurrent(b: Backend, files: seq<(string, Text)>, outcome: Outcome, paint: Painter, commands: seq<Command>, request: Request)
    requires request.page >= 0 && (b.Texpresso? ==> DpiInRange(request))
    ensures var n := RunNative(b, Opened(files, outcome), paint, commands);
            Current(n) && n.alive ==>
              (if b.Texpresso? then RenderTexpresso(n, paint, request).1 else RenderFull(n, paint, request).1)
              == paint(n.edits, Shown(b, request))
  {
    hide RenderCacheKey, RunNative, BuffersOf;
    FreshOfRun(b, Opened(files, outcome), paint, commands);
  }

  /**
   * Over any run of either backend: a cached page that is not what the engine
   * would paint now is there only because the last change got no answer, or,
   * with TeXpresso, because its answer was a LaTeX error.
   */
  lemma {:induction false} StalePageHasItsReason(b: Backend, files: seq<(string, Text)>, outcome: Outcome, paint: Painter, commands: seq<Command>,
                                                 request: Request)
    requires request.page >= 0
    ensures var n := RunNative(b, Opened(files, outcome), paint, commands);
            Looked(b, n, request).Some? && Looked(b, n, request) != paint(n.edits, Shown(b, request)) ==>
              !n.answered || (b.Texpresso? && n.snapshot.LatexError?)
  {
    hide Looked, RunNative, BuffersOf, Shown;
    NothingCachedIsFresh(b, files, outcome, paint);
    FreshOfRun(b, Opened(files, outcome), paint, commands);
  }

  lemma NothingCachedIsFresh(b: Backend, files: seq<(string, Text)>, outcome: Outcome, paint: Painter)
    ensures Fresh(b, Opened(files, outcome), paint)
  {
  }

  /** That reason does occur: a page shown before a change that ends in a LaTeX error stays in TeXpresso's cache. */
  lemma {:induction false} LatexErrorKeepsStalePage(files: seq<(string, Text)>, c: Change, paint: Painter, request: Request)
    requires request.page >= 0 && DpiInRange(request) && EditBuffers(BuffersOf(files), c).Some?
    requires paint(0, request).Some? && paint(1, request) != paint(0, request)
    ensures var n := RunNative(Texpresso, Opened(files, Rendered), paint, [Render(request), Edit(c, Some(LatexError))]);
            n.answered && Looked(Texpresso, n, request) == paint(0, request) != paint(n.edits, request)
  {
    hide EditBuffers, BuffersOf, RenderCacheKey;
    var shown, edited := Render(request), Edit(c, Some(LatexError));
    var n := Opened(files, Rendered);
    assert [shown][..0] == [] && [shown, edited][..1] == [shown];
    assert RunNative(Texpresso, n, paint, [shown]) == StepNative(Texpresso, RunNative(Texpresso, n, paint, []), paint, shown);
  }

  // ------------------------------------------------------- the backends agree

  predicate Agree(t: Native, f: Native) {
    t.buffers == f.buffers && t.edits == f.edits && t.alive == f.alive && t.snapshot == f.snapshot
  }

  predicate Unanswered(command: Command) {
    command.Edit? && command.outcome.None?
  }

  /**
   * After any commands TeXpresso holds the text that the full compiler held
   * after the first `m` of them. Either that is all of them and the backends
   * agree, or the last of them was a change without an answer, which ended
   * TeXpresso and not the other.
   */
  lemma {:induction false} BackendsHoldSameText(files: seq<(string, Text)>, outcome: Outcome, paint: Painter, commands: seq<Command>)
    returns (m: nat)
    ensures m <= |commands|
    ensures var t := RunNative(Texpresso, Opened(files, outcome), paint, commands);
            var f := RunNative(FullCompile, Opened(files, outcome), paint, commands[..m]);
            && t.buffers == f.buffers && t.edits == f.edits
            && ((m == |commands| && Agree(t, f)) || (!t.alive && m > 0 && Unanswered(commands[m - 1])))
  {
    hide StepNative, BuffersOf;
    assert commands[..|commands|] == commands;
    if commands == [] {
      m := 0;
    } else {
      var before, last := commands[..|commands| - 1], commands[|commands| - 1];
      m := BackendsHoldSameText(files, outcome, paint, before);
      var t := RunNative(Texpresso, Opened(files, outcome), paint, before);
      assert before[..|before|] == before && before[..m] == commands[..m];
      if Agree(t, RunNative(FullCompile, Opened(files, outcome), paint, before)) {
        StepsAgree(t, RunNative(FullCompile, Opened(files, outcome), paint, before), paint, last);
        m := |commands|;
      } else {
        EndedKeepsText(t, paint, last);
      }
    }
  }

  lemma EndedKeepsText(t: Native, paint: Painter, command: Command)
    requires !t.alive
    ensures var u := StepNative(Texpresso, t, paint, command); u.buffers == t.buffers && u.edits == t.edits && !u.alive
  {
    hide RenderCacheKey, EditBuffers;
  }

  /** On equal text both backends reject the same changes, answer alike and store the same; only a change without an answer parts them. */
  lemma StepsAgree(t: Native, f: Native, paint: Painter, command: Command)
    requires Agree(t, f)
    ensures var u, g := StepNative(Texpresso, t, paint, command), StepNative(FullCompile, f, paint, command);
            && u.buffers == g.buffers && u.edits == g.edits
            && (Agree(u, g) || (Unanswered(command) && !u.alive && g.alive))
    ensures command.Edit? ==>
              (EditTexpresso(t, command.change, command.outcome).1 == EditFull(f, command.change, command.outcome).1)
  {
    hide RenderCacheKey, EditBuffers;
  }

  // ------------------------------------------------------------------- objects

  /** The session over the TeXpresso process. */
  class TexpressoSession {
    var buffers: Buffers
    var renderedPages: map<string, Image>
    var closed: bool
    ghost var edits: nat
    ghost var snapshot: Outcome
    ghost var compiled: nat
    ghost var answered: bool

    ghost function View(): Native
      reads this
    {
      Native(buffers, edits, renderedPages, snapshot, compiled, answered, !closed)
    }

    constructor (files: seq<(string, Text)>, outcome: Outcome)
      ensures View() == Opened(files, outcome)
    {
      buffers, renderedPages, closed := BuffersOf(files), map[], false;
      edits, snapshot, compiled, answered := 0, outcome, 0, true;
    }

    /** `answer` is what the flush after the command reports; without one the wait has closed the session. */
    method ApplyRangeChange(c: Change, answer: Option<Outcome>) returns (r: Option<Outcome>)
      modifies this
      ensures (View(), r) == EditTexpresso(old(View()), c, answer)
    {
      var path := NormalizePath(c.path);
      if path !in buffers { return None; }
      var current := buffers[path];
      var next := SliceEdit(current, c.range, c.text);
      if next.Failure? { return None; }
      if closed { return None; }
      edits, answered := edits + 1, false;
      buffers := buffers[path := next.value];
      if answer.None? {
        closed := true;
        return None;
      }
      snapshot, compiled, answered := answer.value, edits, true;
      if answer.value.Rendered? { renderedPages := map[]; }
      return answer;
    }

    /** `response` is what the process answers if it is asked. */
    method RenderPage(request: Request, paint: Painter, response: Option<Image>) returns (r: Option<Image>)
      requires response == paint(edits, request)
      modifies this`renderedPages
      ensures (View(), r) == RenderTexpresso(old(View()), paint, request)
    {
      if request.page < 0 { return None; }
      if request.dpi < MIN_TEXPRESSO_RENDER_DPI || request.dpi > MAX_TEXPRESSO_RENDER_DPI { return None; }
      var cacheKey := RenderCacheKey(Texpresso, request);
      if cacheKey in renderedPages { return Some(renderedPages[cacheKey]); }
      if closed || response.None? { return None; }
      renderedPages := renderedPages[cacheKey := response.value];
      return response;
    }
  }

  /** The session that compiles the whole project for every change. */
  class FullCompileLiveSession {
    var buffers: Buffers
    var renderedPages: map<string, Image>
    var snapshotValue: Outcome
    var closed: bool
    ghost var edits: nat
    ghost var compiled: nat
    ghost var answered: bool

    ghost function View(): Native
      reads this
    {
      Native(buffers, edits, renderedPages, snapshotValue, compiled, answered, !closed)
    }

    constructor (files: seq<(string, Text)>, outcome: Outcome)
      ensures View() == Opened(files, outcome)
    {
      buffers, renderedPages, snapshotValue, closed := BuffersOf(files), map[], outcome, false;
      edits, compiled, answered := 0, 0, true;
    }

    method Compile(result: Outcome)
      modifies this
      ensures View() == Answered(old(View()), result, true)
    {
      snapshotValue := result;
      renderedPages := map[];
      compiled, answered := edits, true;
    }

    /** `answer` is the result of the build, if writing the file and building did not fail. */
    method ApplyRangeChange(c: Change, answer: Option<Outcome>) returns (r: Option<Outcome>)
      modifies this
      ensures (View(), r) == EditFull(old(View()), c, answer)
    {
      if closed { return None; }
      var normalized := NormalizePath(c.path);
      if normalized !in buffers { return None; }
      var next := SliceEdit(buffers[normalized], c.range, c.text);
      if next.Failure? { return None; }
      buffers := buffers[normalized := next.value];
      edits, answered := edits + 1, false;
      if answer.None? { return None; }
      Compile(answer.value);
      return answer;
    }

    /** `response` is the page of the last build, if the PDF has it. */
    method RenderPage(request: Request, paint: Painter, response: Option<Image>) returns (r: Option<Image>)
      requires response == paint(compiled, Shown(FullCompile, request))
      modifies this`renderedPages
      ensures (View(), r) == RenderFull(old(View()), paint, request)
    {
      if closed || request.page < 0 { return None; }
      var key := RenderCacheKey(FullCompile, request);
      if key in renderedPages { return Some(renderedPages[key]); }
      if snapshotValue.LatexError? || response.None? { return None; }
      renderedPages := renderedPages[key := response.value];
      return response;
    }

    method Close()
      modifies this
      ensures View() == old(View()).(alive := false, rendered := map[])
    {
      closed := true;
      renderedPages := map[];
    }
  }
}
