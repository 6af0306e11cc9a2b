/** The middleware chain: how the matched pattern travels back through layers that clone the request,
    what a panic or an aborted connection does to it, and the in-flight gauge. */
module Middleware {
  import opened Collections

  /** What matters here about a layer: whether it hands on a copy of the request and copies Pattern
      back afterwards, whether it meters requests in flight, and whether it recovers panics. */
  datatype Layer = Plain | Metered | Clone(copiesBack: bool) | Recoverer

  /** How a call ends: it returns, it panics, or it panics with http.ErrAbortHandler. */
  datatype Exit = Returned | Panicked | Aborted

  /** A middleware as wired: some hand requests for certain paths straight on. */
  datatype Ware = Always(layer: Layer) | Unless(paths: set<string>, layer: Layer)

  predicate Skips(ware: Ware, path: string) {
    ware.Unless? && path in ware.paths
  }

  /** The layers that a request for this path goes through. A layer that skips it does nothing. */
  function ForPath(wares: seq<Ware>, path: string): (layers: seq<Layer>)
    ensures |layers| == |wares|
    ensures forall i :: 0 <= i < |wares| ==> layers[i] == if Skips(wares[i], path) then Plain else wares[i].layer
  {
    if wares == [] then []
    else [if Skips(wares[0], path) then Plain else wares[0].layer] + ForPath(wares[1..], path)
  }

  datatype Handler = Mux | Wrapped(ware: Ware, next: Handler)

  function Wares(h: Handler): seq<Ware> {
    match h
    case Mux => []
    case Wrapped(ware, next) => [ware] + Wares(next)
  }

  /** chain: mw[0] ends up outermost. */
  method Chain(mw: seq<Ware>) returns (h: Handler)
    ensures Wares(h) == mw
  {
    h := Mux;
    var i := |mw| - 1;
    while i >= 0
      invariant -1 <= i < |mw| && Wares(h) == mw[i + 1..]
    {
      h := Wrapped(mw[i], h);
      i := i - 1;
    }
  }

  // ---- The effect of a call, as a function ---------------------------------------------------

  datatype Label = NoPanic | PanicAt(pattern: string)

  /** The exit, the Pattern left on the caller's request, and the pattern a recovery labelled. */
  datatype Outcome = Outcome(exit: Exit, pattern: string, blame: Label)

  function Call(layers: seq<Layer>, before: string, matched: string, fate: Exit): Outcome {
    if layers == [] then Outcome(fate, matched, NoPanic)
    else
      var inner := Call(layers[1..], before, matched, fate);
      match layers[0]
      case Plain => inner
      case Metered => inner
      case Clone(copiesBack) =>
        inner.(pattern := if inner.exit == Returned && copiesBack then inner.pattern else before)
      case Recoverer =>
        if inner.exit == Panicked then Outcome(Returned, inner.pattern, PanicAt(inner.pattern)) else inner
  }

  // ---- The same on the heap -------------------------------------------------------------------

  class Request {
    const path: string
    var pattern: string

    constructor (path: string, pattern: string)
      ensures this.path == path && this.pattern == pattern
    {
      this.path, this.pattern := path, pattern;
    }
  }

  /** The in-flight gauge, shared by all requests; `others` is what the other requests have added. */
  class Gauge {
    var inFlight: int
    ghost var others: int

    constructor ()
      ensures inFlight == 0 && others == 0
    {
      inFlight, others := 0, 0;
    }

    /** The part of the gauge that is due to this request. */
    ghost function Own(): int
      reads this
    {
      inFlight - others
    }

    method Add(n: int)
      modifies this
      ensures Own() == old(Own()) + n
    {
      inFlight := inFlight + n;
    }

    /** Any number of other requests enter and leave. */
    method Others()
      modifies this
      ensures Own() == old(Own())
    {
      var n: int := *;
      inFlight, others := inFlight + n, others + n;
    }
  }

  /** How often a request that has gone through these layers has been counted in. */
  function Meters(layers: seq<Layer>): nat {
    if layers == [] then 0 else Meters(layers[1..]) + if layers[0] == Metered then 1 else 0
  }

  /** ServeHTTP through the whole chain, among other requests. The handler at the end sets nothing but
      what ServeMux sets and then ends with `fate`; `during` is what this request adds to the in-flight
      gauge while that handler runs. */
  method ServeHTTP(h: Handler, r: Request, g: Gauge, matched: string, fate: Exit)
      returns (exit: Exit, blame: Label, ghost during: int)
    modifies r, g
    ensures Outcome(exit, r.pattern, blame) == Call(ForPath(Wares(h), r.path), old(r.pattern), matched, fate)
    ensures g.Own() == old(g.Own()) && during == old(g.Own()) + Meters(ForPath(Wares(h), r.path))
    decreases h
  {
    g.Others();
    match h
    case Mux =>
      r.pattern := matched;
      exit, blame, during := fate, NoPanic, g.Own();
    case Wrapped(ware, next) =>
      assert Wares(h)[1..] == Wares(next);
      if Skips(ware, r.path) {
        exit, blame, during := ServeHTTP(next, r, g, matched, fate);
        return;
      }
      match ware.layer {
        case Plain =>
          exit, blame, during := ServeHTTP(next, r, g, matched, fate);
        case Metered =>
          g.Add(1);
          exit, blame, during := ServeHTTP(next, r, g, matched, fate);
          // deferred, so it runs on every exit
          g.Add(-1);
        case Clone(copiesBack) =>
          var inner := new Request(r.path, r.pattern);
          exit, blame, during := ServeHTTP(next, inner, g, matched, fate);
          if exit == Returned && copiesBack {
            r.pattern := inner.pattern;
          }
        case Recoverer =>
          exit, blame, during := ServeHTTP(next, r, g, matched, fate);
          if exit == Panicked {
            blame := PanicAt(r.pattern);
            exit := Returned;
          }
      }
  }

  // ---- Which layers see the pattern --------------------------------------------------------------

  /** On a normal return the caller of these layers holds the matched pattern exactly when no layer
      among them clones without copying back. Any layer sees what the layers inside it leave, so
      this is said of every suffix of a chain. */
  lemma {:induction false} PatternReturnsIff(layers: seq<Layer>, before: string, matched: string)
    requires before != matched
    ensures Call(layers, before, matched, Returned).exit == Returned
    ensures Call(layers, before, matched, Returned).pattern == matched <==> Clone(false) !in layers
    ensures Clone(false) in layers ==> Call(layers, before, matched, Returned).pattern == before
  {
    if layers != [] {
      PatternReturnsIff(layers[1..], before, matched);
      assert layers == [layers[0]] + layers[1..];
    }
  }

  /** Leaving out one copy-back blinds every layer outside that clone, and no layer inside it. */
  lemma OneMissingCopyBack(outer: seq<Layer>, inner: seq<Layer>, before: string, matched: string, k: nat)
    requires before != matched && Clone(false) !in outer && Clone(false) !in inner
    requires k <= |outer|
    ensures Call(outer[k..] + [Clone(false)] + inner, before, matched, Returned).pattern == before
    ensures Call(inner, before, matched, Returned).pattern == matched
  {
    var all := outer[k..] + [Clone(false)] + inner;
    assert all[|outer| - k] == Clone(false);
    PatternReturnsIff(all, before, matched);
    PatternReturnsIff(inner, before, matched);
  }

  predicate Clones(layers: seq<Layer>) {
    exists i :: 0 <= i < |layers| && layers[i].Clone?
  }

  /** A panic passes through layers without a recovery; it skips every copy-back on its way. */
  lemma {:induction false} PanicPasses(layers: seq<Layer>, before: string, matched: string, fate: Exit)
    requires before != matched && fate != Returned
    requires fate == Panicked ==> Recoverer !in layers
    ensures Call(layers, before, matched, fate)
      == Outcome(fate, if Clones(layers) then before else matched, NoPanic)
  {
    if layers != [] {
      PanicPasses(layers[1..], before, matched, fate);
      assert layers == [layers[0]] + layers[1..];
      if Clones(layers[1..]) {
        var i :| 0 <= i < |layers[1..]| && layers[1..][i].Clone?;
        assert layers[i + 1].Clone?;
      }
    }
  }

  /** A recovered panic is labelled with the matched pattern exactly when no cloning layer sits between
      the recovery and the mux; everything outside then behaves as on a normal return. */
  lemma PanicLabel(outer: seq<Layer>, inner: seq<Layer>, before: string, matched: string)
    requires before != matched && Recoverer !in inner
    ensures var all := Call(outer + [Recoverer] + inner, before, matched, Panicked);
      && all.exit == Returned
      && all.blame == PanicAt(if Clones(inner) then before else matched)
      && (all.pattern == matched <==> !Clones(inner) && Clone(false) !in outer)
  {
    PanicPasses(inner, before, matched, Panicked);
    assert ([Recoverer] + inner)[1..] == inner;
    OutsideRecovery(outer, [Recoverer] + inner, before, matched);
    assert outer + [Recoverer] + inner == outer + ([Recoverer] + inner);
  }

  lemma {:induction false} OutsideRecovery(outer: seq<Layer>, core: seq<Layer>, before: string, matched: string)
    requires before != matched && Call(core, before, matched, Panicked).exit == Returned
    ensures var c, all := Call(core, before, matched, Panicked), Call(outer + core, before, matched, Panicked);
      && all.exit == Returned && all.blame == c.blame
      && all.pattern == if Clone(false) in outer then before else c.pattern
  {
    if outer == [] {
      assert outer + core == core;
    } else {
      OutsideRecovery(outer[1..], core, before, matched);
      assert (outer + core)[1..] == outer[1..] + core;
      assert outer == [outer[0]] + outer[1..];
    }
  }

  /** An aborted connection is never recovered or labelled. */
  lemma {:induction false} AbortPasses(layers: seq<Layer>, before: string, matched: string)
    requires before != matched
    ensures Call(layers, before, matched, Aborted)
      == Outcome(Aborted, if Clones(layers) then before else matched, NoPanic)
  {
    PanicPasses(layers, before, matched, Aborted);
  }

  /** The health probes, which tracing, metrics and access log pass over. */
  const PROBES: set<string> := {"/healthz", "/readyz"}

  /** The chain of main: tracing, metrics, request id, access log, recovery. */
  const WIRED: seq<Ware> := [
    Unless(PROBES, Clone(true)), Unless(PROBES, Metered), Always(Clone(true)), Unless(PROBES, Plain),
    Always(Recoverer)]

  /** As wired, on every path, all five layers hold the matched pattern after a normal return and after a
      recovered panic, whose label is that pattern too. */
  lemma WiredLayersAgree(path: string, before: string, matched: string, fate: Exit, k: nat)
    requires before != matched && fate != Aborted && k < |WIRED|
    ensures var c := Call(ForPath(WIRED, path)[k..], before, matched, fate);
      c.exit == Returned && c.pattern == matched && (fate == Panicked ==> c.blame == PanicAt(matched))
    ensures ForPath(WIRED, path) ==
      if path == "/healthz" || path == "/readyz" then [Plain, Plain, Clone(true), Plain, Recoverer]
      else [Clone(true), Metered, Clone(true), Plain, Recoverer]
  {
    var layers := ForPath(WIRED, path);
    assert Clone(false) !in layers;
    if fate == Returned {
      PatternReturnsIff(layers[k..], before, matched);
    } else {
      assert layers[4] == Recoverer;
      assert layers[k..] == layers[k..4] + [Recoverer] + [];
      PanicLabel(layers[k..4], [], before, matched);
    }
  }

  // ---- Concurrent requests, one step at a time ---------------------------------------------------

  /** A call on its way in, or on its way out with the exit of the layer just left. */
  datatype Going = In | Out(exit: Exit)

  /** One request: the layers of its path, what the mux will match and how its handler will end; how
      many layers it is inside, its way, and the Pattern of each request object that these layers hold,
      the innermost last. */
  datatype Thread = Thread(
    layers: seq<Layer>, before: string, matched: string, fate: Exit,
    depth: nat, going: Going, held: seq<string>, blame: Label)

  predicate WellPlaced(t: Thread) {
    t.depth <= |t.layers| && t.held != []
  }

  predicate Finished(t: Thread) {
    t.depth == 0 && t.going.Out?
  }

  function Top(held: seq<string>): string
    requires held != []
  {
    held[|held| - 1]
  }

  /** Entering the next layer, or running the handler inside the last. */
  function Enter(t: Thread): Thread
    requires WellPlaced(t) && t.going.In?
  {
    if t.depth == |t.layers| then t.(going := Out(t.fate), held := t.held[|t.held| - 1 := t.matched])
    else t.(depth := t.depth + 1,
            held := if t.layers[t.depth].Clone? then t.held + [Top(t.held)] else t.held)
  }

  /** Leaving the layer: a return runs the rest of its body, a panic only what it deferred. */
  function Unwind(t: Thread): Thread
    requires WellPlaced(t) && t.going.Out? && t.depth > 0
    requires t.layers[t.depth - 1].Clone? ==> |t.held| > 1
  {
    var out := t.(depth := t.depth - 1);
    var n := |t.held| - 1;
    match t.layers[t.depth - 1]
    case Plain => out
    case Metered => out
    case Clone(copiesBack) =>
      out.(held := if t.going.exit == Returned && copiesBack then t.held[..n][n - 1 := t.held[n]] else t.held[..n])
    case Recoverer =>
      if t.going.exit == Panicked then out.(going := Out(Returned), blame := PanicAt(Top(t.held))) else out
  }

  predicate CanMove(t: Thread) {
    && WellPlaced(t) && !Finished(t)
    && (t.going.Out? && t.layers[t.depth - 1].Clone? ==> |t.held| > 1)
  }

  function Move(t: Thread): Thread
    requires CanMove(t)
  {
    if t.going.In? then Enter(t) else Unwind(t)
  }

  /** What the step does to the shared gauge: Inc on entering a metered layer, the deferred Dec on
      leaving it. */
  function GaugeMove(t: Thread): int
    requires CanMove(t)
  {
    if t.going.In? then (if t.depth < |t.layers| && t.layers[t.depth] == Metered then 1 else 0)
    else if t.layers[t.depth - 1] == Metered then -1 else 0
  }

  type RequestId = nat

  datatype Server = Server(threads: map<RequestId, Thread>, inFlight: int)

  datatype Event =
    | Arrive(id: RequestId, path: string, before: string, matched: string, fate: Exit)
    | Step(id: RequestId)
    | Depart(id: RequestId)

  predicate CanDo(s: Server, e: Event) {
    match e
    case Arrive(id, _, _, _, _) => id !in s.threads
    case Step(id) => id in s.threads && CanMove(s.threads[id])
    case Depart(id) => id in s.threads && Finished(s.threads[id])
  }

  function Do(wares: seq<Ware>, s: Server, e: Event): Server
    requires CanDo(s, e)
  {
    match e
    case Arrive(id, path, before, matched, fate) =>
      s.(threads := s.threads[id := Thread(ForPath(wares, path), before, matched, fate, 0, In, [before], NoPanic)])
    case Step(id) =>
      Server(s.threads[id := Move(s.threads[id])], s.inFlight + GaugeMove(s.threads[id]))
    case Depart(id) => s.(threads := s.threads - {id})
  }

  /** Any interleaving of any number of requests through one chain. */
  predicate IsTraffic(wares: seq<Ware>, es: seq<Event>)
    decreases |es|, 0
  {
    es == [] || (IsTraffic(wares, es[..|es| - 1]) && CanDo(Served(wares, es[..|es| - 1]), es[|es| - 1]))
  }

  function Served(wares: seq<Ware>, es: seq<Event>): Server
    requires IsTraffic(wares, es)
    decreases |es|, 1
  {
    if es == [] then Server(map[], 0) else Do(wares, Served(wares, es[..|es| - 1]), es[|es| - 1])
  }

  // ---- Each request ends as its call says ----------------------------------------------------------

  /** How many of the layers a request is inside clone it. */
  function Copies(layers: seq<Layer>, depth: nat): nat
    requires depth <= |layers|
  {
    if depth == 0 then 0 else Copies(layers, depth - 1) + if layers[depth - 1].Clone? then 1 else 0
  }

  /** On the way in nothing has been matched. On the way out the innermost request object and the exit are
      those of the call through the layers already left, and the objects outside are untouched. */
  ghost predicate OnCourse(t: Thread) {
    && t.depth <= |t.layers| && |t.held| == 1 + Copies(t.layers, t.depth)
    && (forall i :: 0 <= i < |t.held| - 1 ==> t.held[i] == t.before)
    && match t.going
       case In => Top(t.held) == t.before && t.blame == NoPanic
       case Out(exit) =>
         Outcome(exit, Top(t.held), t.blame) == Call(t.layers[t.depth..], t.before, t.matched, t.fate)
  }

  lemma EnterKeepsCourse(t: Thread)
    requires OnCourse(t) && CanMove(t) && t.going.In?
    ensures OnCourse(Enter(t))
  {
    if t.depth == |t.layers| {
      assert t.layers[t.depth..] == [];
    }
  }

  lemma UnwindKeepsCourse(t: Thread)
    requires OnCourse(t) && CanMove(t) && t.going.Out?
    ensures OnCourse(Unwind(t))
  {
    assert t.layers[t.depth - 1..][1..] == t.layers[t.depth..];
  }

  /** No request gets stuck between its arrival and its end. */
  lemma AlwaysMoves(t: Thread)
    requires OnCourse(t)
    ensures Finished(t) || CanMove(t)
  {
  }

  lemma {:induction false} AllOnCourse(wares: seq<Ware>, es: seq<Event>, id: RequestId)
    requires IsTraffic(wares, es) && id in Served(wares, es).threads
    ensures OnCourse(Served(wares, es).threads[id])
    decreases |es|
  {
    var front, e := es[..|es| - 1], es[|es| - 1];
    if id in Served(wares, front).threads {
      AllOnCourse(wares, front, id);
      if e == Step(id) {
        var t := Served(wares, front).threads[id];
        if t.going.In? {
          EnterKeepsCourse(t);
        } else {
          UnwindKeepsCourse(t);
        }
      }
    }
  }

  /** Whatever the other requests do, a request moves until it is finished, and then its exit, pattern
      and panic label are those of the call by itself. */
  lemma RequestEndsAsCalled(wares: seq<Ware>, es: seq<Event>, id: RequestId)
    requires IsTraffic(wares, es) && id in Served(wares, es).threads
    ensures var t := Served(wares, es).threads[id];
      if !Finished(t) then CanMove(t)
      else
        && |t.held| == 1
        && Outcome(t.going.exit, t.held[0], t.blame) == Call(t.layers, t.before, t.matched, t.fate)
  {
    AllOnCourse(wares, es, id);
    var t := Served(wares, es).threads[id];
    AlwaysMoves(t);
    assert t.layers[0..] == t.layers;
  }

  // ---- The gauge ---------------------------------------------------------------------------------

  /** How many metered layers a request is inside. */
  function Metering(layers: seq<Layer>, depth: nat): nat
    requires depth <= |layers|
  {
    if depth == 0 then 0 else Metering(layers, depth - 1) + if layers[depth - 1] == Metered then 1 else 0
  }

  function Inside(t: Thread): nat {
    if t.depth <= |t.layers| then Metering(t.layers, t.depth) else 0
  }

  ghost function AllInside(s: Server): map<RequestId, nat> {
    map id | id in s.threads :: Inside(s.threads[id])
  }

  lemma InsideMove(t: Thread)
    requires CanMove(t)
    ensures Inside(Move(t)) == Inside(t) + GaugeMove(t)
  {
  }

  lemma GaugeStep(wares: seq<Ware>, s: Server, e: Event)
    requires CanDo(s, e) && s.inFlight == Sum(AllInside(s))
    ensures Do(wares, s, e).inFlight == Sum(AllInside(Do(wares, s, e)))
  {
    var s' := Do(wares, s, e);
    if e.Depart? {
      SumRemove(AllInside(s), e.id);
      assert AllInside(s') == AllInside(s) - {e.id};
    } else {
      var t := s'.threads[e.id];
      if e.Step? {
        InsideMove(s.threads[e.id]);
      }
      SumUpdate(AllInside(s), e.id, Inside(t));
      assert AllInside(s') == AllInside(s)[e.id := Inside(t)];
    }
  }

  /** In every interleaving, with panics and aborts, the gauge is the sum of the metered layers that the
      requests are inside. */
  lemma {:induction false} GaugeIsSum(wares: seq<Ware>, es: seq<Event>)
    requires IsTraffic(wares, es)
    ensures Served(wares, es).inFlight == Sum(AllInside(Served(wares, es)))
    decreases |es|
  {
    if es != [] {
      GaugeIsSum(wares, es[..|es| - 1]);
      GaugeStep(wares, Served(wares, es[..|es| - 1]), es[|es| - 1]);
    } else {
      assert AllInside(Served(wares, es)) == map[];
    }
  }

  /** The chain meters at one place. */
  predicate MetersAt(wares: seq<Ware>, k: nat) {
    && k < |wares| && wares[k].layer == Metered
    && forall i :: 0 <= i < |wares| && i != k ==> wares[i].layer != Metered
  }

  /** A request counts once while it is inside that layer, unless the layer skipped it. */
  lemma {:induction false} MeteringAt(layers: seq<Layer>, k: nat, depth: nat)
    requires k < |layers| && depth <= |layers|
    requires forall i :: 0 <= i < |layers| && i != k ==> layers[i] != Metered
    ensures Metering(layers, depth) == if layers[k] == Metered && k < depth then 1 else 0
    decreases depth
  {
    if depth > 0 {
      MeteringAt(layers, k, depth - 1);
    }
  }

  /** The requests that are inside layer k and were not skipped by it. */
  ghost function Active(s: Server, k: nat): set<RequestId> {
    set id | id in s.threads && k < s.threads[id].depth <= |s.threads[id].layers|
             && s.threads[id].layers[k] == Metered
  }

  lemma {:induction false} LayersOfThreads(wares: seq<Ware>, es: seq<Event>, id: RequestId) returns (path: string)
    requires IsTraffic(wares, es) && id in Served(wares, es).threads
    ensures Served(wares, es).threads[id].layers == ForPath(wares, path)
    decreases |es|
  {
    var front, e := es[..|es| - 1], es[|es| - 1];
    if e.Arrive? && e.id == id {
      path := e.path;
    } else {
      path := LayersOfThreads(wares, front, id);
    }
  }

  /** The in-flight gauge is the number of requests inside the metrics layer that it did not skip, in every
      interleaving of any number of requests, however they end. */
  lemma GaugeCountsActive(wares: seq<Ware>, k: nat, es: seq<Event>)
    requires IsTraffic(wares, es) && MetersAt(wares, k)
    ensures Served(wares, es).inFlight == |Active(Served(wares, es), k)|
  {
    var s := Served(wares, es);
    GaugeIsSum(wares, es);
    forall id | id in s.threads
      ensures AllInside(s)[id] == if id in Active(s, k) then 1 else 0
    {
      var path := LayersOfThreads(wares, es, id);
      AllOnCourse(wares, es, id);
      MeteringAt(s.threads[id].layers, k, s.threads[id].depth);
    }
    SumOfFlags(AllInside(s), Active(s, k));
  }

  /** As wired, no health probe counts, and every other request counts while it is inside. */
  lemma WiredGauge(es: seq<Event>)
    requires IsTraffic(WIRED, es)
    ensures Served(WIRED, es).inFlight == |Active(Served(WIRED, es), 1)|
    ensures forall path :: ForPath(WIRED, path)[1] == Metered <==> path != "/healthz" && path != "/readyz"
  {
    GaugeCountsActive(WIRED, 1, es);
  }

  // ---- The route label ---------------------------------------------------------------------------

  const UNMATCHED := "unmatched"

  /** The text after the last space. */
  function AfterLastSpace(p: string): string {
    if p == "" then ""
    else if p[|p| - 1] == ' ' then ""
    else AfterLastSpace(p[..|p| - 1]) + [p[|p| - 1]]
  }

  /** routeLabel, routePattern and routeTemplate. */
  function Route(pattern: string): string {
    var p := AfterLastSpace(pattern);
    if pattern == "" || p == "" || p == "/" then UNMATCHED else p
  }

  lemma {:induction false} AfterLastSpaceOfPair(verb: string, path: string)
    requires ' ' !in path
    ensures AfterLastSpace(verb + [' '] + path) == path && AfterLastSpace(path) == path
  {
    if path != "" {
      var front := path[..|path| - 1];
      AfterLastSpaceOfPair(verb, front);
      var whole := verb + [' '] + path;
      assert whole[..|whole| - 1] == verb + [' '] + front;
    }
  }

  /** "METHOD /path" is labelled by its path, and the catch-all and the empty pattern by one value. */
  lemma RouteOfPattern(verb: string, path: string)
    requires ' ' !in path
    ensures Route(verb + " " + path) == Route(path) == if path == "" || path == "/" then "unmatched" else path
  {
    AfterLastSpaceOfPair(verb, path);
  }
}
