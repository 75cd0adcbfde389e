/**
 * The engine of the transition system and the backends in full are the same
 * thing: for the resolution and theme of one session, the first is the second
 * with its images forgotten.
 */
module LiveEngineSimulation {
  import opened Wrappers
  import opened SourceText
  import opened LiveSession
  import Backends = LiveEngine

  /** How one session asks for its pages. */
  datatype Settings = Settings(backend: Backend, dpi: nat, theme: Option<Backends.Theme>)

  function PageRequest(k: nat, x: Settings): Backends.Request {
    Backends.Request(k, x.dpi, x.theme)
  }

  function Held(n: Backends.Native, k: nat, x: Settings): Option<Backends.Image> {
    Backends.Looked(x.backend, n, PageRequest(k, x))
  }

  /** Same text, same edits, same pages in the cache, of the same sizes. */
  ghost predicate Simulates(n: Backends.Native, e: Engine, x: Settings) {
    && e.backend == x.backend && e.buffers == n.buffers && e.edits == n.edits && e.alive == n.alive
    && forall k: nat ::
         && (k in e.cache <==> Held(n, k, x).Some?)
         && (k in e.cache ==> e.cache[k].number == k && e.cache[k].size == |Held(n, k, x).value.data|)
  }

  function EditBackend(n: Backends.Native, c: Change, outcome: Option<Outcome>, x: Settings): (Backends.Native, Option<Outcome>) {
    if x.backend.Texpresso? then Backends.EditTexpresso(n, c, outcome) else Backends.EditFull(n, c, outcome)
  }

  function RenderBackend(n: Backends.Native, paint: Backends.Painter, k: nat, x: Settings): (Backends.Native, Option<Backends.Image>) {
    if x.backend.Texpresso? then Backends.RenderTexpresso(n, paint, PageRequest(k, x)) else Backends.RenderFull(n, paint, PageRequest(k, x))
  }

  lemma OpenSimulated(files: seq<(string, Text)>, outcome: Outcome, x: Settings)
    ensures Simulates(Backends.Opened(files, outcome), Engine(x.backend, BuffersOf(files), 0, map[], true), x)
  {
  }

  /** The engine after a change it was sent: settled with an answer, or, without one, closed if it is TeXpresso. */
  function AfterEdit(e: Engine, outcome: Option<Outcome>): Engine {
    match outcome
    case Some(o) => SettleEdit(e, o)
    case None => if e.backend.Texpresso? then e.(alive := false) else e
  }

  /** Both reject the same changes and keep in step over the others, whatever the answer. */
  lemma EditSimulated(n: Backends.Native, e: Engine, c: Change, outcome: Option<Outcome>, x: Settings)
    requires Simulates(n, e, x)
    ensures var (m, answer) := EditBackend(n, c, outcome, x);
            match SendEdit(e, c)
            case None => m == n && answer == None
            case Some(sent) => answer == outcome && Simulates(m, AfterEdit(sent, outcome), x)
  {
    hide EditBuffers, Backends.RenderCacheKey;
    var m := EditBackend(n, c, outcome, x).0;
    forall k: nat ensures m.rendered == n.rendered ==> Held(m, k, x) == Held(n, k, x) {}
    forall k: nat ensures m.rendered == map[] ==> Held(m, k, x) == None {}
  }

  lemma NotHeld(n: Backends.Native, e: Engine, k: nat, x: Settings)
    requires Simulates(n, e, x) && k !in e.cache
    ensures Held(n, k, x) == None
  {
    hide Held;
  }

  lemma EntersAlone(n: Backends.Native, e: Engine, paint: Backends.Painter, k: nat, j: nat, x: Settings)
    requires Simulates(n, e, x) && k !in e.cache && RenderBackend(n, paint, k, x).1.Some?
    ensures var (m, image) := RenderBackend(n, paint, k, x); Held(m, j, x) == if j == k then image else Held(n, j, x)
  {
    hide Backends.RenderCacheKey;
    NotHeld(n, e, k, x);
    if Backends.RenderCacheKey(x.backend, PageRequest(j, x)) == Backends.RenderCacheKey(x.backend, PageRequest(k, x)) {
      Backends.CacheKeyIsInjective(x.backend, PageRequest(j, x), PageRequest(k, x));
    }
  }

  /** A page is served from one cache exactly when it is from the other, and a new one enters both. */
  lemma RenderSimulated(n: Backends.Native, e: Engine, paint: Backends.Painter, k: nat, x: Settings)
    requires Simulates(n, e, x) && (x.backend.FullCompile? ==> n.alive)
    requires x.backend.Texpresso? ==> Backends.DpiInRange(PageRequest(k, x))
    ensures var (m, image) := RenderBackend(n, paint, k, x);
            if k in e.cache then m == n && image.Some? && |image.value.data| == e.cache[k].size
            else if image.None? then m == n
            else Simulates(m, e.(cache := e.cache[k := Page(k, |image.value.data|, e.edits)]), x)
  {
    hide Backends.RenderCacheKey;
    var (m, image) := RenderBackend(n, paint, k, x);
    assert k in e.cache <==> Held(n, k, x).Some?;
    if k !in e.cache && image.Some? {
      forall j: nat ensures Held(m, j, x) == if j == k then image else Held(n, j, x) { EntersAlone(n, e, paint, k, j, x); }
    }
  }

  lemma CloseSimulated(n: Backends.Native, e: Engine, paint: Backends.Painter, x: Settings)
    requires Simulates(n, e, x)
    ensures Simulates(Backends.StepNative(x.backend, n, paint, Backends.Close), CloseEngine(e), x)
  {
    hide Backends.RenderCacheKey;
    var m := Backends.StepNative(x.backend, n, paint, Backends.Close);
    forall k: nat ensures Held(m, k, x) == if x.backend.FullCompile? then None else Held(n, k, x) {}
  }
}
