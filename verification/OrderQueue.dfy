/** The shared `orders` table, the HTTP creators and N worker replicas, as a state machine.

    One event is one atomic effect: a committed SQL statement, one metrics call, or one step of
    a worker's control flow. A run is any sequence of enabled events, so it covers every
    interleaving of the creators and the workers. */
module OrderQueue {
  import opened Collections
  import opened Domain

  type OrderId = nat
  type WorkerId = nat

  datatype Row = Row(status: Status, createdAt: int, order: NewOrder)

  type Table = map<OrderId, Row>

  /** Where one worker is inside runOnce and processOne. */
  datatype Phase =
      // not running: never started, exited or crashed
    | Down
      // between two ticks of Run
    | Idle
      // the claim replied; `counted` calls of the first Transition loop have been made
    | Counting(batch: seq<OrderId>, counted: nat)
      // processOne is due, or running its processor, on todo[0]; [] means the loop is done
    | Working(todo: seq<OrderId>)
      // the processor returned and MarkOrder(todo[0], target) is under way; expired says that the
      // processor outlasted the write deadline, which was set before it started
    | Marking(todo: seq<OrderId>, target: Status, expired: bool)
      // MarkOrder replied and its Transition call is due; todo is the rest of the batch
    | Reporting(todo: seq<OrderId>, target: Status)

  datatype State = State(
    table: Table,
    workers: seq<Phase>,
    // mark statements whose caller gave up, which the server may still execute
    late: map<OrderId, Status>,
    // orders whose createOrder call is between the committed insert and OrderCreated
    creating: set<OrderId>,
    // orders_state_transitions_total: the series that exist and their values, over all processes
    counted: map<Transition, nat>)

  datatype Event =
      // createOrder
    | Insert(id: OrderId, at: int, order: NewOrder)
    | InsertLost(id: OrderId, at: int, order: NewOrder)
    | CountCreate(id: OrderId)
    | DropCreate(id: OrderId)
      // runOnce
    | ClaimOk(w: WorkerId, limit: nat, ids: seq<OrderId>)
    | ClaimLost(w: WorkerId, limit: nat, ids: seq<OrderId>)
    | CountClaim(w: WorkerId)
    | FinishBatch(w: WorkerId)
      // processOne
    | Return(w: WorkerId, outcome: Status, err: bool, cancelled: bool, expired: bool)
    | MarkOk(w: WorkerId)
    | MarkConflict(w: WorkerId)
    | MarkFailed(w: WorkerId)
    | MarkLost(w: WorkerId)
    | MarkDeferred(w: WorkerId)
    | CountMark(w: WorkerId)
      // the two guards, and the process around them
    | OrderPanic(w: WorkerId)
    | BatchPanic(w: WorkerId)
    | Crash(w: WorkerId, deferred: bool)
    | Start(w: WorkerId)
    | Exit(w: WorkerId)
      // the server executing, or losing, a statement nobody waits for
    | LateMark(id: OrderId)
    | LateDropped(id: OrderId)

  /** The event is a step of worker w. */
  predicate Mine(e: Event, w: WorkerId) {
    !e.Insert? && !e.InsertLost? && !e.CountCreate? && !e.DropCreate? && !e.LateMark?
    && !e.LateDropped? && e.w == w
  }

  // ---- The three statements that write the table ---------------------------

  function WithStatus(t: Table, st: Status): set<OrderId> {
    set id | id in t && t[id].status == st
  }

  function Level(t: Table, st: Status): nat {
    |WithStatus(t, st)|
  }

  function Elements(ids: seq<OrderId>): set<OrderId> {
    set id | id in ids
  }

  /** qClaimPending: the oldest `limit` pending rows, in whatever order RETURNING lists them. */
  predicate IsClaim(t: Table, limit: nat, ids: seq<OrderId>) {
    var pending := WithStatus(t, Pending);
    && NoRepeats(ids)
    && Elements(ids) <= pending
    && |ids| == (if limit < |pending| then limit else |pending|)
    && forall x, y :: x in Elements(ids) && y in pending - Elements(ids) ==> t[x].createdAt <= t[y].createdAt
  }

  function SetStatus(t: Table, ids: set<OrderId>, st: Status): Table {
    map id | id in t :: if id in ids then t[id].(status := st) else t[id]
  }

  /** The guard of qMarkOrderStatus: RowsAffected is one exactly when this holds. */
  predicate MarkHits(t: Table, id: OrderId) {
    id in t && t[id].status == Processing
  }

  // ---- Worker program state -------------------------------------------------

  /** Orders this worker has claimed and not yet finished with. */
  function Unfinished(p: Phase): seq<OrderId> {
    match p
    case Down => []
    case Idle => []
    case Counting(batch, _) => batch
    case Working(todo) => todo
    case Marking(todo, _, _) => todo
    case Reporting(todo, _) => todo
  }

  /** How many `tr` changes are committed whose Transition call this worker still has to make. */
  function Uncounted(p: Phase, tr: Transition): nat {
    match p
    case Counting(batch, n) => if tr == CLAIMED && n <= |batch| then |batch| - n else 0
    case Reporting(_, target) => if tr == Finished(target) then 1 else 0
    case _ => 0
  }

  /** The status processOne asks MarkOrder for, from what the processor returned. */
  function Target(outcome: Status, err: bool, cancelled: bool): Status {
    if err && cancelled then Pending
    else if err then Failed
    else outcome
  }

  /** What simulatePayment can return. */
  predicate DefaultReturn(outcome: Status, err: bool, cancelled: bool) {
    || (outcome == Pending && err && cancelled)
    || ((outcome == Paid || outcome == Failed) && !err)
  }

  // ---- Steps ------------------------------------------------------------------

  predicate IsWorker(s: State, w: WorkerId) { w < |s.workers| }

  /** A phase that a panic caught by the batch guard, or a crash, can interrupt. */
  predicate InBatch(p: Phase) { !p.Down? && !p.Idle? }

  predicate Enabled(s: State, e: Event) {
    match e
    // createOrder validates before it inserts
    case Insert(id, _, order) => id !in s.table && Validate(order) == Accepted
    case InsertLost(id, _, order) => id !in s.table && Validate(order) == Accepted
    case CountCreate(id) => id in s.creating
    case DropCreate(id) => id in s.creating
    case ClaimOk(w, limit, ids) =>
      IsWorker(s, w) && s.workers[w].Idle? && limit > 0 && IsClaim(s.table, limit, ids)
    case ClaimLost(w, limit, ids) => IsWorker(s, w) && limit > 0 && IsClaim(s.table, limit, ids)
    case CountClaim(w) =>
      IsWorker(s, w) && s.workers[w].Counting? && s.workers[w].counted < |s.workers[w].batch|
    case FinishBatch(w) => IsWorker(s, w) && s.workers[w] == Working([])
    case Return(w, _, _, _, _) => IsWorker(s, w) && s.workers[w].Working? && s.workers[w].todo != []
    case MarkOk(w) => MarkSent(s, w) && MarkHits(s.table, s.workers[w].todo[0])
    case MarkConflict(w) => MarkSent(s, w) && !MarkHits(s.table, s.workers[w].todo[0])
    case MarkFailed(w) => MarkDue(s, w)
    case MarkLost(w) => MarkSent(s, w) && MarkHits(s.table, s.workers[w].todo[0])
    case MarkDeferred(w) => MarkSent(s, w)
    case CountMark(w) => IsWorker(s, w) && s.workers[w].Reporting?
    case OrderPanic(w) =>
      && IsWorker(s, w)
      && (var p := s.workers[w];
          p.Reporting? || ((p.Working? || p.Marking?) && p.todo != []))
    case BatchPanic(w) => IsWorker(s, w) && InBatch(s.workers[w])
    case Crash(w, deferred) =>
      IsWorker(s, w) && !s.workers[w].Down? && (deferred ==> MarkSent(s, w))
    case Start(w) => IsWorker(s, w) && s.workers[w].Down?
    case Exit(w) => IsWorker(s, w) && s.workers[w].Idle?
    case LateMark(id) => id in s.late
    case LateDropped(id) => id in s.late
  }

  predicate MarkDue(s: State, w: WorkerId) {
    IsWorker(s, w) && s.workers[w].Marking? && s.workers[w].todo != []
  }

  /** A call on an expired context fails before it sends anything. */
  predicate MarkSent(s: State, w: WorkerId) {
    MarkDue(s, w) && !s.workers[w].expired
  }

  function Move(s: State, w: WorkerId, p: Phase): State
    requires IsWorker(s, w)
  {
    s.(workers := s.workers[w := p])
  }

  function Mark(s: State, id: OrderId, target: Status): State {
    if MarkHits(s.table, id) then s.(table := SetStatus(s.table, {id}, target)) else s
  }

  /** The value of one series; a series that does not exist reads as zero. */
  function Value(counted: map<Transition, nat>, tr: Transition): nat {
    if tr in counted then counted[tr] else 0
  }

  /** Business.Transition: increments the series, creating it if it does not exist. */
  function Count(s: State, tr: Transition): State {
    s.(counted := s.counted[tr := Value(s.counted, tr) + 1])
  }

  function Apply(s: State, e: Event): State
    requires Enabled(s, e)
  {
    match e
    case Insert(id, at, order) =>
      s.(table := s.table[id := Row(Pending, at, order)], creating := s.creating + {id})
    case InsertLost(id, at, order) => s.(table := s.table[id := Row(Pending, at, order)])
    case CountCreate(id) => Count(s.(creating := s.creating - {id}), CREATED)
    case DropCreate(id) => s.(creating := s.creating - {id})
    case ClaimOk(w, _, ids) =>
      var claimed := s.(table := SetStatus(s.table, Elements(ids), Processing));
      // an empty batch is an idle tick: runOnce returns at once
      Move(claimed, w, if ids == [] then Idle else Counting(ids, 0))
    case ClaimLost(_, _, ids) => s.(table := SetStatus(s.table, Elements(ids), Processing))
    case CountClaim(w) =>
      var Counting(batch, n) := s.workers[w];
      Move(Count(s, CLAIMED), w, if n + 1 == |batch| then Working(batch) else Counting(batch, n + 1))
    case FinishBatch(w) => Move(s, w, Idle)
    case Return(w, outcome, err, cancelled, expired) =>
      Move(s, w, Marking(s.workers[w].todo, Target(outcome, err, cancelled), expired))
    case MarkOk(w) =>
      var Marking(todo, target, _) := s.workers[w];
      Move(Mark(s, todo[0], target), w, Reporting(todo[1..], target))
    case MarkConflict(w) => Move(s, w, Working(s.workers[w].todo[1..]))
    case MarkFailed(w) => Move(s, w, Working(s.workers[w].todo[1..]))
    case MarkLost(w) =>
      var Marking(todo, target, _) := s.workers[w];
      Move(Mark(s, todo[0], target), w, Working(todo[1..]))
    case MarkDeferred(w) =>
      var Marking(todo, target, _) := s.workers[w];
      Move(s.(late := s.late[todo[0] := target]), w, Working(todo[1..]))
    case CountMark(w) =>
      var Reporting(todo, target) := s.workers[w];
      Move(Count(s, Finished(target)), w, Working(todo))
    case OrderPanic(w) =>
      var p := s.workers[w];
      Move(s, w, Working(if p.Reporting? then p.todo else p.todo[1..]))
    case BatchPanic(w) => Move(s, w, Idle)
    case Crash(w, deferred) =>
      var p := s.workers[w];
      Move(if deferred then s.(late := s.late[p.todo[0] := p.target]) else s, w, Down)
    case Start(w) => Move(s, w, Idle)
    case Exit(w) => Move(s, w, Down)
    case LateMark(id) =>
      var done := Mark(s, id, s.late[id]);
      done.(late := s.late - {id})
    case LateDropped(id) => s.(late := s.late - {id})
  }

  /** The table after a step, by itself. */
  function NewTable(s: State, e: Event): Table
    requires Enabled(s, e)
  {
    match e
    case Insert(id, at, order) => s.table[id := Row(Pending, at, order)]
    case InsertLost(id, at, order) => s.table[id := Row(Pending, at, order)]
    case ClaimOk(_, _, ids) => SetStatus(s.table, Elements(ids), Processing)
    case ClaimLost(_, _, ids) => SetStatus(s.table, Elements(ids), Processing)
    case MarkOk(w) => Mark(s, s.workers[w].todo[0], s.workers[w].target).table
    case MarkLost(w) => Mark(s, s.workers[w].todo[0], s.workers[w].target).table
    case LateMark(id) => Mark(s, id, s.late[id]).table
    case _ => s.table
  }

  lemma StepTable(s: State, e: Event)
    requires Enabled(s, e)
    ensures Apply(s, e).table == NewTable(s, e)
  {
  }

  // ---- Runs ---------------------------------------------------------------------

  /** PreInit has run; the table is empty and none of the workers has started. */
  ghost predicate Init(s: State) {
    && s.table == map[] && s.late == map[] && s.creating == {}
    && s.counted == (map tr | tr in ALL_TRANSITIONS :: 0)
    && forall w :: 0 <= w < |s.workers| ==> s.workers[w] == Down
  }

  /** Every event is enabled where it happens. */
  ghost predicate IsRun(s: State, run: seq<Event>)
    decreases |run|, 0
  {
    run == [] ||
    (var front := run[..|run| - 1];
     IsRun(s, front) && Enabled(After(s, front), run[|run| - 1]))
  }

  ghost function After(s: State, run: seq<Event>): State
    requires IsRun(s, run)
    decreases |run|, 1
  {
    if run == [] then s else Apply(After(s, run[..|run| - 1]), run[|run| - 1])
  }

  ghost predicate LeadsTo(s: State, run: seq<Event>, now: State) {
    IsRun(s, run) && After(s, run) == now
  }

  lemma ExtendRun(s: State, run: seq<Event>, now: State, e: Event) returns (more: seq<Event>, next: State)
    requires LeadsTo(s, run, now) && Enabled(now, e)
    ensures more == run + [e] && next == Apply(now, e) && LeadsTo(s, more, next)
  {
    more, next := run + [e], Apply(now, e);
    assert more[..|run|] == run;
  }
}
