/** What a tick of the worker is: from the things it does not decide, how it ends and every step it
    takes; and what the heartbeat of many ticks says. */
module WorkerTicks {
  import opened Domain
  import opened OrderQueue

  // ---- What the worker does not decide -----------------------------------------------------

  /** What the database does with a claim: replies, returns an error or makes the call panic. The last
      two say nothing about whether the statement committed. */
  datatype ClaimFate = Replies | Fails(committed: bool) | Breaks(committed: bool)

  /** What becomes of MarkOrder, if its deadline has not passed: it replies, never runs, runs and its reply
      is lost, is left to the server, or panics. */
  datatype MarkFate = Answers | NeverRuns | RunsUnheard | RunsLater | Explodes

  /** One order: a panic before or in the processor, or its answer, whether it outlasted the write deadline,
      and what becomes of the mark and of the Transition call after it. */
  datatype OrderFate = OrderFate(
    panics: bool,
    outcome: Status, err: bool, cancelled: bool, expired: bool,
    mark: MarkFate, reportPanics: bool)

  /** Where, if at all, a panic outside processOne's guard ends the batch: in the first loop after n calls,
      or in the second before order n, or when the run is recorded. */
  datatype BatchFate = Completes | PanicsCounting(n: nat) | PanicsBefore(n: nat)

  /** `cancelled` is the context when a claim error is looked at; orders beyond the list go well. */
  datatype Env = Env(claim: ClaimFate, cancelled: bool, batch: BatchFate, orders: seq<OrderFate>)

  function FateOf(fates: seq<OrderFate>, i: nat): OrderFate {
    if i < |fates| then fates[i] else OrderFate(false, Paid, false, false, false, Answers, false)
  }

  // ---- The steps of a tick --------------------------------------------------------------------

  /** MarkOrder, whose Transition call follows only a reply. */
  function MarkTrace(w: WorkerId, f: OrderFate): seq<Event> {
    if f.mark == Explodes then [OrderPanic(w)]
    else if f.expired then [MarkFailed(w)]
    else
      match f.mark
      case Answers => [MarkOk(w), if f.reportPanics then OrderPanic(w) else CountMark(w)]
      case NeverRuns => [MarkFailed(w)]
      case RunsUnheard => [MarkLost(w)]
      case RunsLater => [MarkDeferred(w)]
      case Explodes => [OrderPanic(w)]
  }

  /** processOne: a panic, or one processor call and one MarkOrder. */
  function OrderTrace(w: WorkerId, f: OrderFate): seq<Event> {
    if f.panics then [OrderPanic(w)]
    else [Return(w, f.outcome, f.err, f.cancelled, f.expired)] + MarkTrace(w, f)
  }

  function OrdersTrace(w: WorkerId, fates: seq<OrderFate>, n: nat): seq<Event> {
    if n == 0 then [] else OrdersTrace(w, fates, n - 1) + OrderTrace(w, FateOf(fates, n - 1))
  }

  lemma OneMoreOrder(before: seq<Event>, w: WorkerId, fates: seq<OrderFate>, n: nat)
    ensures before + OrdersTrace(w, fates, n) + OrderTrace(w, FateOf(fates, n))
      == before + OrdersTrace(w, fates, n + 1)
  {
  }

  function Repeat(e: Event, n: nat): seq<Event> {
    seq(n, _ => e)
  }

  predicate StopsCounting(f: BatchFate, size: nat) {
    f.PanicsCounting? && f.n < size
  }

  predicate StopsWorking(f: BatchFate, size: nat) {
    f.PanicsBefore? && f.n <= size
  }

  /** The first loop of runOnce. */
  function CountTrace(w: WorkerId, f: BatchFate, size: nat): seq<Event> {
    if StopsCounting(f, size) then Repeat(CountClaim(w), f.n) + [BatchPanic(w)]
    else Repeat(CountClaim(w), size)
  }

  /** The second loop, and the end of the tick. */
  function WorkTrace(w: WorkerId, f: BatchFate, fates: seq<OrderFate>, size: nat): seq<Event> {
    if StopsWorking(f, size) then OrdersTrace(w, fates, f.n) + [BatchPanic(w)]
    else OrdersTrace(w, fates, size) + [FinishBatch(w)]
  }

  /** Everything after a claim that returned orders. */
  function BatchTrace(w: WorkerId, env: Env, size: nat): seq<Event> {
    CountTrace(w, env.batch, size)
    + if StopsCounting(env.batch, size) then [] else WorkTrace(w, env.batch, env.orders, size)
  }

  /** The claim, which an error or a panic leaves committed or not. */
  function ClaimTrace(w: WorkerId, limit: nat, fate: ClaimFate, ids: seq<OrderId>): seq<Event> {
    match fate
    case Replies => [ClaimOk(w, limit, ids)]
    case Fails(committed) => if committed then [ClaimLost(w, limit, ids)] else []
    case Breaks(committed) => if committed then [ClaimLost(w, limit, ids)] else []
  }

  /** The steps of runOnce, given the orders that its claim takes. */
  function TickTrace(w: WorkerId, limit: nat, env: Env, ids: seq<OrderId>): seq<Event> {
    ClaimTrace(w, limit, env.claim, ids)
    + if env.claim.Replies? && ids != [] then BatchTrace(w, env, |ids|) else []
  }

  lemma TraceOfTick(before: seq<Event>, w: WorkerId, limit: nat, env: Env, ids: seq<OrderId>)
    ensures var rest := if env.claim.Replies? && ids != [] then BatchTrace(w, env, |ids|) else [];
      before + ClaimTrace(w, limit, env.claim, ids) + rest == before + TickTrace(w, limit, env, ids)
  {
  }

  // ---- How a tick ends ---------------------------------------------------------------------------

  datatype RunKind = Ok | Empty | Error

  /** A recorded WorkerRun, the silent return under cancellation, or a panic that the batch guard
      recovers. */
  datatype Tick = Beat(kind: RunKind, size: nat) | Silent | Panicked

  function TickOf(env: Env, ids: seq<OrderId>): Tick {
    match env.claim
    case Fails(_) => if env.cancelled then Silent else Beat(Error, 0)
    case Breaks(_) => Panicked
    case Replies =>
      if ids == [] then Beat(Empty, 0)
      else if StopsCounting(env.batch, |ids|) || StopsWorking(env.batch, |ids|) then Panicked
      else Beat(Ok, |ids|)
  }

  predicate EndsIn(tr: seq<Event>, e: Event) {
    tr != [] && tr[|tr| - 1] == e
  }

  /** The tick leaves no heartbeat: its claim failed under cancellation, or it panicked. */
  predicate SkipsBeat(env: Env, tr: seq<Event>, w: WorkerId) {
    (env.claim.Fails? && env.cancelled) || env.claim.Breaks? || EndsIn(tr, BatchPanic(w))
  }

  lemma HeartbeatIff(w: WorkerId, limit: nat, env: Env, ids: seq<OrderId>)
    ensures var t, tr := TickOf(env, ids), TickTrace(w, limit, env, ids);
      && (t.Silent? <==> env.claim.Fails? && env.cancelled)
      && (t == Beat(Error, 0) <==> env.claim.Fails? && !env.cancelled)
      && (t.Panicked? <==> env.claim.Breaks? || EndsIn(tr, BatchPanic(w)))
      && (t.Beat? <==> !SkipsBeat(env, tr, w))
  {
    if env.claim.Replies? && ids != [] {
      BatchEnds(w, env, |ids|);
    }
  }

  lemma BatchEnds(w: WorkerId, env: Env, size: nat)
    ensures var tr := BatchTrace(w, env, size);
      if StopsCounting(env.batch, size) || StopsWorking(env.batch, size) then EndsIn(tr, BatchPanic(w))
      else EndsIn(tr, FinishBatch(w))
  {
  }

  // ---- Many ticks ------------------------------------------------------------------------------

  /** One tick: its environment and the orders that its claim takes. */
  datatype Entry = Entry(env: Env, ids: seq<OrderId>)

  /** The steps of all ticks. */
  function Steps(log: seq<Entry>, w: WorkerId, limit: nat): seq<Event> {
    if log == [] then []
    else Steps(log[..|log| - 1], w, limit) + TickTrace(w, limit, log[|log| - 1].env, log[|log| - 1].ids)
  }

  /** The heartbeats of all ticks. */
  function Beats(log: seq<Entry>): nat {
    if log == [] then 0
    else Beats(log[..|log| - 1]) + if TickOf(log[|log| - 1].env, log[|log| - 1].ids).Beat? then 1 else 0
  }

  lemma LogAppend(log: seq<Entry>, entry: Entry, w: WorkerId, limit: nat, before: seq<Event>)
    ensures before + Steps(log, w, limit) + TickTrace(w, limit, entry.env, entry.ids)
      == before + Steps(log + [entry], w, limit)
    ensures Beats(log + [entry]) == Beats(log) + if TickOf(entry.env, entry.ids).Beat? then 1 else 0
  {
    assert (log + [entry])[..|log|] == log;
  }

  /** The heartbeat has no hole exactly when no tick failed its claim under cancellation or panicked. */
  lemma NoHolesIff(log: seq<Entry>, w: WorkerId, limit: nat)
    ensures Beats(log) == |log| <==> forall i :: 0 <= i < |log| ==>
      !SkipsBeat(log[i].env, TickTrace(w, limit, log[i].env, log[i].ids), w)
  {
    forall i | 0 <= i < |log|
      ensures TickOf(log[i].env, log[i].ids).Beat?
        <==> !SkipsBeat(log[i].env, TickTrace(w, limit, log[i].env, log[i].ids), w)
    {
      HeartbeatIff(w, limit, log[i].env, log[i].ids);
    }
    AllBeats(log);
  }

  lemma {:induction false} AllBeats(log: seq<Entry>)
    ensures Beats(log) <= |log|
    ensures Beats(log) == |log| <==> forall i :: 0 <= i < |log| ==> TickOf(log[i].env, log[i].ids).Beat?
  {
    if log != [] {
      var front := log[..|log| - 1];
      AllBeats(front);
      assert forall i :: 0 <= i < |front| ==> front[i] == log[i];
    }
  }
}
