/** Flow equals level: the transition counters account for every row of the table, up to calls
    still to be made and calls that a lost reply, a panic or a crash made impossible. */
module QueueFlow {
  import opened Collections
  import opened Domain
  import opened OrderQueue
  import opened QueueOwnership

  /** A number for every transition label. */
  type Flow = Transition -> nat

  function Inflow(c: Flow, st: Status): nat {
    c(Transition(New, At(st)))
    + c(Transition(At(Pending), At(st)))
    + c(Transition(At(Processing), At(st)))
    + c(Transition(At(Paid), At(st)))
    + c(Transition(At(Failed), At(st)))
    + c(Transition(At(Cancelled), At(st)))
  }

  function Outflow(c: Flow, st: Status): nat {
    c(Transition(At(st), New))
    + c(Transition(At(st), At(Pending)))
    + c(Transition(At(st), At(Processing)))
    + c(Transition(At(st), At(Paid)))
    + c(Transition(At(st), At(Failed)))
    + c(Transition(At(st), At(Cancelled)))
  }

  function Net(c: Flow, st: Status): int {
    Inflow(c, st) - Outflow(c, st)
  }

  lemma NetSum(a: Flow, b: Flow, c: Flow, st: Status)
    requires forall tr :: c(tr) == a(tr) + b(tr)
    ensures Net(c, st) == Net(a, st) + Net(b, st)
  {
  }

  lemma NetSame(a: Flow, b: Flow, st: Status)
    requires forall tr :: a(tr) == b(tr)
    ensures Net(a, st) == Net(b, st)
  {
  }

  // ---- Lag: committed, and the counting call is still to come ----------------------

  function WorkerLag(ps: seq<Phase>, tr: Transition): nat {
    if ps == [] then 0
    else WorkerLag(ps[..|ps| - 1], tr) + Uncounted(ps[|ps| - 1], tr)
  }

  function Lag(s: State, tr: Transition): nat {
    (if tr == CREATED then |s.creating| else 0) + WorkerLag(s.workers, tr)
  }

  lemma {:induction false} WorkerLagMove(ps: seq<Phase>, w: nat, p: Phase, tr: Transition)
    requires w < |ps|
    ensures WorkerLag(ps[w := p], tr) == WorkerLag(ps, tr) - Uncounted(ps[w], tr) + Uncounted(p, tr)
  {
    var last := |ps| - 1;
    if w == last {
      assert ps[w := p][..last] == ps[..last];
    } else {
      WorkerLagMove(ps[..last], w, p, tr);
      assert ps[w := p][..last] == ps[..last][w := p];
    }
  }

  // ---- What one event commits, and what it makes uncountable -------------------------

  /** n changes of one kind. */
  function Only(kind: Transition, n: nat): Flow {
    tr => if tr == kind then n else 0
  }

  /** The changes that the event commits to the table. */
  ghost function Committed(s: State, e: Event): Flow
    requires Enabled(s, e)
  {
    match e
    case Insert(_, _, _) => Only(CREATED, 1)
    case InsertLost(_, _, _) => Only(CREATED, 1)
    case ClaimOk(_, _, ids) => Only(CLAIMED, |ids|)
    case ClaimLost(_, _, ids) => Only(CLAIMED, |ids|)
    case MarkOk(w) => Only(Finished(s.workers[w].target), 1)
    case MarkLost(w) => Only(Finished(s.workers[w].target), 1)
    case LateMark(id) => Only(Finished(s.late[id]), 1)
    case _ => Only(CREATED, 0)
  }

  /** How many committed `tr` changes no Transition call will ever count, because of this event:
      a reply that never arrived, a panic or a crash. */
  ghost function Forgotten(s: State, e: Event, tr: Transition): nat
    requires Enabled(s, e)
  {
    match e
    case InsertLost(_, _, _) => if tr == CREATED then 1 else 0
    case DropCreate(_) => if tr == CREATED then 1 else 0
    case ClaimLost(_, _, ids) => if tr == CLAIMED then |ids| else 0
    case MarkLost(w) => if tr == Finished(s.workers[w].target) then 1 else 0
    case LateMark(id) => if tr == Finished(s.late[id]) then 1 else 0
    case OrderPanic(w) => Uncounted(s.workers[w], tr)
    case BatchPanic(w) => Uncounted(s.workers[w], tr)
    case Crash(w, _) => Uncounted(s.workers[w], tr)
    case _ => 0
  }

  ghost function AllForgotten(s: State, run: seq<Event>, tr: Transition): nat
    requires IsRun(s, run)
    decreases |run|
  {
    if run == [] then 0
    else
      var front := run[..|run| - 1];
      AllForgotten(s, front, tr) + Forgotten(After(s, front), run[|run| - 1], tr)
  }

  /** The changes of each kind that the counters show, will show, or can no longer show. */
  ghost function Account(s: State, run: seq<Event>): Flow
    requires IsRun(s, run)
  {
    tr => Value(After(s, run).counted, tr) + Lag(After(s, run), tr) + AllForgotten(s, run, tr)
  }

  /** Every createOrder call that has yet to count its order has inserted the row, and no other call
      can insert it again. */
  ghost predicate CallsHaveRows(s: State) {
    s.creating <= s.table.Keys
  }

  lemma CallsStep(s: State, e: Event)
    requires CallsHaveRows(s) && Enabled(s, e)
    ensures CallsHaveRows(Apply(s, e))
  {
    StepTable(s, e);
    assert s.table.Keys <= NewTable(s, e).Keys;
  }

  lemma {:induction false} CallsAlwaysHaveRows(s: State, run: seq<Event>)
    requires Init(s) && IsRun(s, run)
    ensures CallsHaveRows(After(s, run))
    decreases |run|
  {
    if run != [] {
      var front := run[..|run| - 1];
      CallsAlwaysHaveRows(s, front);
      CallsStep(After(s, front), run[|run| - 1]);
    }
  }

  // ---- One step balances ---------------------------------------------------------------

  /** Every committed change is counted, still to be counted, or forgotten, exactly once. */
  lemma LedgerStep(s: State, e: Event, tr: Transition)
    requires Exclusive(s) && CallsHaveRows(s) && Enabled(s, e)
    ensures Value(Apply(s, e).counted, tr) + Lag(Apply(s, e), tr) + Forgotten(s, e, tr)
            == Value(s.counted, tr) + Lag(s, tr) + Committed(s, e)(tr)
  {
    if InsideBatch(e) || e.ClaimOk? || e.Start? || e.Exit? {
      LedgerWorkerStep(s, e, tr);
      WorkerLagMove(s.workers, e.w, Apply(s, e).workers[e.w], tr);
    } else {
      LedgerOtherStep(s, e, tr);
    }
  }

  /** The ledger of the creators and of statements that nobody waits for. */
  lemma LedgerOtherStep(s: State, e: Event, tr: Transition)
    requires Exclusive(s) && CallsHaveRows(s) && Enabled(s, e)
    requires !InsideBatch(e) && !e.ClaimOk? && !e.Start? && !e.Exit?
    ensures Value(Apply(s, e).counted, tr) + Lag(Apply(s, e), tr) + Forgotten(s, e, tr)
            == Value(s.counted, tr) + Lag(s, tr) + Committed(s, e)(tr)
  {
    if e.CountCreate? || e.DropCreate? {
      assert s.creating == (s.creating - {e.id}) + {e.id};
    }
  }

  /** The ledger of the worker that moves. */
  ghost predicate WorkerBalance(s: State, e: Event, tr: Transition)
    requires Enabled(s, e) && (InsideBatch(e) || e.ClaimOk? || e.Start? || e.Exit?)
  {
    var s' := Apply(s, e);
    && IsWorker(s', e.w)
    && s'.workers == s.workers[e.w := s'.workers[e.w]]
    && s'.creating == s.creating
    && Value(s'.counted, tr) + Uncounted(s'.workers[e.w], tr) + Forgotten(s, e, tr)
       == Value(s.counted, tr) + Uncounted(s.workers[e.w], tr) + Committed(s, e)(tr)
  }

  lemma LedgerWorkerStep(s: State, e: Event, tr: Transition)
    requires Exclusive(s) && Enabled(s, e)
    requires InsideBatch(e) || e.ClaimOk? || e.Start? || e.Exit?
    ensures WorkerBalance(s, e, tr)
  {
    if e.CountClaim? || e.CountMark? || e.ClaimOk? {
      assert WellFormed(s.workers[e.w]);
      LedgerCountStep(s, e, tr);
    } else if e.OrderPanic? || e.BatchPanic? || e.Crash? {
      LedgerPanicStep(s, e, tr);
    } else if e.MarkOk? || e.MarkLost? || e.MarkFailed? || e.MarkConflict? || e.MarkDeferred? {
      LedgerMarkStep(s, e, tr);
    } else {
      LedgerSilentStep(s, e, tr);
    }
  }

  lemma LedgerCountStep(s: State, e: Event, tr: Transition)
    requires Enabled(s, e) && (e.CountClaim? || e.CountMark? || e.ClaimOk?)
    requires WellFormed(s.workers[e.w])
    ensures WorkerBalance(s, e, tr)
  {
  }

  lemma LedgerPanicStep(s: State, e: Event, tr: Transition)
    requires Enabled(s, e) && (e.OrderPanic? || e.BatchPanic? || e.Crash?)
    ensures WorkerBalance(s, e, tr)
  {
  }

  lemma LedgerMarkStep(s: State, e: Event, tr: Transition)
    requires Enabled(s, e)
    requires e.MarkOk? || e.MarkConflict? || e.MarkFailed? || e.MarkLost? || e.MarkDeferred?
    ensures WorkerBalance(s, e, tr)
  {
  }

  lemma LedgerSilentStep(s: State, e: Event, tr: Transition)
    requires Enabled(s, e) && (e.FinishBatch? || e.Return? || e.Start? || e.Exit?)
    ensures WorkerBalance(s, e, tr)
  {
  }

  lemma SetStatusRows(t: Table, ids: set<OrderId>, to: Status, st: Status)
    requires ids <= t.Keys
    ensures WithStatus(SetStatus(t, ids, to), st)
            == if st == to then WithStatus(t, st) + ids else WithStatus(t, st) - ids
  {
    var t' := SetStatus(t, ids, to);
    assert forall id :: id in t ==> t'[id].status == if id in ids then to else t[id].status;
  }

  lemma SetStatusLevels(t: Table, ids: set<OrderId>, from: Status, to: Status, st: Status)
    requires ids <= WithStatus(t, from)
    ensures Level(SetStatus(t, ids, to), st)
            == Level(t, st) - (if st == from then |ids| else 0) + (if st == to then |ids| else 0)
  {
    SetStatusRows(t, ids, to, st);
    MovedSize(WithStatus(t, st), ids);
    if st != from {
      assert WithStatus(t, st) !! ids;
    }
  }

  lemma MovedSize(a: set<OrderId>, b: set<OrderId>)
    ensures b <= a ==> |a + b| == |a| && |a - b| == |a| - |b|
    ensures a !! b ==> |a + b| == |a| + |b| && |a - b| == |a|
  {
    if b <= a {
      assert a + b == a;
      assert a == (a - b) + b;
    }
    if a !! b {
      assert a - b == a;
    }
  }

  lemma InsertLevels(t: Table, id: OrderId, row: Row, st: Status)
    requires id !in t && row.status == Pending
    ensures Level(t[id := row], st) == Level(t, st) + Net(Only(CREATED, 1), st)
  {
    var t' := t[id := row];
    if st == Pending {
      assert WithStatus(t', st) == WithStatus(t, st) + {id};
    } else {
      assert WithStatus(t', st) == WithStatus(t, st);
    }
  }

  lemma ClaimLevels(t: Table, limit: nat, ids: seq<OrderId>, st: Status)
    requires IsClaim(t, limit, ids)
    ensures Level(SetStatus(t, Elements(ids), Processing), st)
            == Level(t, st) + Net(Only(CLAIMED, |ids|), st)
  {
    NoRepeatsSize(ids);
    SetStatusLevels(t, Elements(ids), Pending, Processing, st);
  }

  lemma MarkLevels(s: State, id: OrderId, target: Status, st: Status)
    requires MarkHits(s.table, id)
    ensures Level(Mark(s, id, target).table, st)
            == Level(s.table, st) + Net(Only(Finished(target), 1), st)
  {
    SetStatusLevels(s.table, {id}, Processing, target, st);
  }

  lemma NewTableLevels(s: State, e: Event, st: Status)
    requires Exclusive(s) && Enabled(s, e)
    ensures Level(NewTable(s, e), st) == Level(s.table, st) + Net(Committed(s, e), st)
  {
    match e
    case Insert(id, at, order) => InsertLevels(s.table, id, Row(Pending, at, order), st);
    case InsertLost(id, at, order) => InsertLevels(s.table, id, Row(Pending, at, order), st);
    case ClaimOk(_, limit, ids) => ClaimLevels(s.table, limit, ids, st);
    case ClaimLost(_, limit, ids) => ClaimLevels(s.table, limit, ids, st);
    case MarkOk(w) => MarkLevels(s, s.workers[w].todo[0], s.workers[w].target, st);
    case MarkLost(w) => MarkLevels(s, s.workers[w].todo[0], s.workers[w].target, st);
    case LateMark(id) => MarkLevels(s, id, s.late[id], st);
    case _ =>
  }

  /** The levels move by exactly what the step commits. */
  lemma LevelStep(s: State, e: Event, st: Status)
    requires Exclusive(s) && Enabled(s, e)
    ensures Level(Apply(s, e).table, st) == Level(s.table, st) + Net(Committed(s, e), st)
  {
    StepTable(s, e);
    NewTableLevels(s, e, st);
  }

  // ---- Whole runs ------------------------------------------------------------------------

  /** Flow equals level: in every state of every interleaving, the rows in a status are the counted
      inflow minus the counted outflow, once the calls still to come and the calls lost to a missing
      reply, a panic or a crash are added to the count. */
  lemma {:induction false} FlowEqualsLevel(s: State, run: seq<Event>, st: Status)
    requires Init(s) && IsRun(s, run)
    ensures Level(After(s, run).table, st) == Net(Account(s, run), st)
    decreases |run|
  {
    if run == [] {
      FlowAtStart(s, st);
    } else {
      var front, e := run[..|run| - 1], run[|run| - 1];
      FlowEqualsLevel(s, front, st);
      RunsAreExclusive(s, front);
      CallsAlwaysHaveRows(s, front);
      LevelStep(After(s, front), e, st);
      forall tr ensures Account(s, run)(tr) == Account(s, front)(tr) + Committed(After(s, front), e)(tr) {
        AccountStep(s, run, tr);
      }
      NetSum(Account(s, front), Committed(After(s, front), e), Account(s, run), st);
    }
  }

  lemma FlowAtStart(s: State, st: Status)
    requires Init(s)
    ensures Level(s.table, st) == Net(Account(s, []), st)
  {
    forall tr ensures Account(s, [])(tr) == 0 {
      AccountAtStart(s, tr);
    }
    assert WithStatus(s.table, st) == {};
    NetSame(Account(s, []), Only(CREATED, 0), st);
  }

  lemma AccountAtStart(s: State, tr: Transition)
    requires Init(s)
    ensures Account(s, [])(tr) == 0
  {
    NoLag(s.workers, tr);
    assert Value(s.counted, tr) == 0;
  }

  lemma AccountStep(s: State, run: seq<Event>, tr: Transition)
    requires run != [] && IsRun(s, run)
    requires Exclusive(After(s, run[..|run| - 1])) && CallsHaveRows(After(s, run[..|run| - 1]))
    ensures var front, e := run[..|run| - 1], run[|run| - 1];
      Account(s, run)(tr) == Account(s, front)(tr) + Committed(After(s, front), e)(tr)
  {
    LedgerStep(After(s, run[..|run| - 1]), run[|run| - 1], tr);
  }

  lemma {:induction false} NoLag(ps: seq<Phase>, tr: Transition)
    requires forall w :: 0 <= w < |ps| ==> !ps[w].Counting? && !ps[w].Reporting?
    ensures WorkerLag(ps, tr) == 0
  {
    if ps != [] {
      NoLag(ps[..|ps| - 1], tr);
    }
  }

  /** No reply was lost, and no panic or crash happened. */
  predicate Undisturbed(e: Event) {
    && !e.InsertLost? && !e.DropCreate? && !e.ClaimLost? && !e.MarkLost? && !e.LateMark?
    && !e.OrderPanic? && !e.BatchPanic? && !e.Crash?
  }

  /** With none of these in the run and no call outstanding, the counters match the table exactly. */
  lemma QuietFlowEqualsLevel(s: State, run: seq<Event>, st: Status)
    requires Init(s) && IsRun(s, run)
    requires forall e :: e in run ==> Undisturbed(e)
    requires After(s, run).creating == {}
    requires forall w :: 0 <= w < |After(s, run).workers| ==>
      !After(s, run).workers[w].Counting? && !After(s, run).workers[w].Reporting?
    ensures Level(After(s, run).table, st) == Net(tr => Value(After(s, run).counted, tr), st)
  {
    FlowEqualsLevel(s, run, st);
    forall tr ensures Account(s, run)(tr) == Value(After(s, run).counted, tr) {
      NothingForgotten(s, run, tr);
      NoLag(After(s, run).workers, tr);
    }
    NetSame(Account(s, run), tr => Value(After(s, run).counted, tr), st);
  }

  lemma {:induction false} NothingForgotten(s: State, run: seq<Event>, tr: Transition)
    requires IsRun(s, run) && forall e :: e in run ==> Undisturbed(e)
    ensures AllForgotten(s, run, tr) == 0
    decreases |run|
  {
    if run != [] {
      assert run[|run| - 1] in run;
      NothingForgotten(s, run[..|run| - 1], tr);
    }
  }
}
