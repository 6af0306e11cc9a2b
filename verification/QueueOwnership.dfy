/** Exclusive ownership: a claimed order belongs to one worker, which marks it at most once and
    always finds it in `processing`. */
module QueueOwnership {
  import opened Collections
  import opened Domain
  import opened OrderQueue

  predicate Owns(s: State, w: WorkerId, id: OrderId) {
    IsWorker(s, w) && id in Unfinished(s.workers[w])
  }

  ghost predicate Unowned(s: State, id: OrderId) {
    forall w: WorkerId :: IsWorker(s, w) ==> !Owns(s, w, id)
  }

  predicate WellFormed(p: Phase) {
    && NoRepeats(Unfinished(p))
    && (p.Marking? ==> p.todo != [])
    && (p.Counting? ==> p.counted < |p.batch|)
  }

  /** The invariant behind every result about the queue. */
  ghost predicate Exclusive(s: State) {
    && (forall w: WorkerId :: IsWorker(s, w) ==> WellFormed(s.workers[w]))
    && (forall w: WorkerId, id :: Owns(s, w, id) ==> MarkHits(s.table, id))
    && (forall v: WorkerId, w: WorkerId, id :: Owns(s, v, id) && Owns(s, w, id) ==> v == w)
    && (forall id :: id in s.late ==> MarkHits(s.table, id) && Unowned(s, id))
  }

  predicate InsideBatch(e: Event) {
    || e.CountClaim? || e.FinishBatch? || e.Return? || e.MarkOk? || e.MarkConflict?
    || e.MarkFailed? || e.MarkLost? || e.MarkDeferred? || e.CountMark? || e.OrderPanic?
    || e.BatchPanic? || e.Crash?
  }

  /** How many orders, from the front of its list, the worker stops owning in this step. */
  ghost function GivenUp(s: State, e: Event): nat
    requires Enabled(s, e) && InsideBatch(e)
  {
    if e.CountClaim? || e.FinishBatch? || e.Return? || e.CountMark? then 0
    else if e.OrderPanic? then (if s.workers[e.w].Reporting? then 0 else 1)
    else if e.BatchPanic? || e.Crash? then |Unfinished(s.workers[e.w])|
    else 1
  }

  /** The second table is the first with another status on this row, at most. */
  ghost predicate OnlyStatusOf(t: Table, t': Table, id: OrderId) {
    exists st :: t' == SetStatus(t, {id}, st)
  }

  /** The step takes the first k orders from w; only the first of them may be marked or left to
      a late statement. */
  ghost predicate Releases(s: State, s': State, w: WorkerId, k: nat) {
    && IsWorker(s, w) && IsWorker(s', w)
    && s'.workers == s.workers[w := s'.workers[w]]
    && var ids := Unfinished(s.workers[w]);
    && k <= |ids|
    && Unfinished(s'.workers[w]) == ids[k..]
    && (s'.table == s.table
        || (k > 0 && OnlyStatusOf(s.table, s'.table, ids[0])))
    && (s'.late == s.late
        || (k > 0 && s'.table == s.table && s'.late.Keys == s.late.Keys + {ids[0]}))
  }

  /** The list of the worker that moves, and nobody else's. */
  lemma WorkerStepList(s: State, e: Event)
    requires Exclusive(s) && Enabled(s, e) && InsideBatch(e)
    ensures var s', ids, k := Apply(s, e), Unfinished(s.workers[e.w]), GivenUp(s, e);
      && IsWorker(s', e.w) && s'.workers == s.workers[e.w := s'.workers[e.w]]
      && k <= |ids| && Unfinished(s'.workers[e.w]) == ids[k..]
  {
    assert WellFormed(s.workers[e.w]);
    if e.OrderPanic? || e.BatchPanic? || e.Crash? {
      PanicStepList(s, e);
    } else if GivenUp(s, e) == 1 {
      MarkStepList(s, e);
    }
  }

  lemma PanicStepList(s: State, e: Event)
    requires Enabled(s, e) && (e.OrderPanic? || e.BatchPanic? || e.Crash?)
    ensures var s', ids, k := Apply(s, e), Unfinished(s.workers[e.w]), GivenUp(s, e);
      && IsWorker(s', e.w) && s'.workers == s.workers[e.w := s'.workers[e.w]]
      && k <= |ids| && Unfinished(s'.workers[e.w]) == ids[k..]
  {
  }

  lemma MarkStepList(s: State, e: Event)
    requires Enabled(s, e) && InsideBatch(e) && GivenUp(s, e) == 1 && !e.OrderPanic? && !e.BatchPanic? && !e.Crash?
    ensures var s', ids := Apply(s, e), Unfinished(s.workers[e.w]);
      && IsWorker(s', e.w) && s'.workers == s.workers[e.w := s'.workers[e.w]]
      && 1 <= |ids| && Unfinished(s'.workers[e.w]) == ids[1..]
  {
  }

  lemma WorkerStepTable(s: State, e: Event)
    requires Enabled(s, e) && InsideBatch(e)
    ensures var ids, k := Unfinished(s.workers[e.w]), GivenUp(s, e);
      NewTable(s, e) == s.table
      || (k > 0 && ids != [] && OnlyStatusOf(s.table, NewTable(s, e), ids[0]))
  {
    if e.MarkOk? || e.MarkLost? {
      var Marking(todo, target, _) := s.workers[e.w];
      MarkedTable(s, todo[0], target);
    }
  }

  lemma MarkedTable(s: State, id: OrderId, target: Status)
    requires MarkHits(s.table, id)
    ensures OnlyStatusOf(s.table, Mark(s, id, target).table, id)
  {
    assert Mark(s, id, target).table == SetStatus(s.table, {id}, target);
  }

  lemma WorkerStepLate(s: State, e: Event)
    requires Enabled(s, e) && InsideBatch(e)
    ensures var ids, k := Unfinished(s.workers[e.w]), GivenUp(s, e);
      Apply(s, e).late == s.late
      || (k > 0 && ids != [] && Apply(s, e).table == s.table
          && Apply(s, e).late.Keys == s.late.Keys + {ids[0]})
  {
  }

  lemma WorkerStepReleases(s: State, e: Event)
    requires Exclusive(s) && Enabled(s, e) && InsideBatch(e)
    ensures Releases(s, Apply(s, e), e.w, GivenUp(s, e))
  {
    WorkerStepList(s, e);
    StepTable(s, e);
    WorkerStepTable(s, e);
    WorkerStepLate(s, e);
  }

  lemma WorkerStepWellFormed(s: State, e: Event)
    requires Exclusive(s) && Enabled(s, e) && InsideBatch(e)
    ensures WellFormed(Apply(s, e).workers[e.w])
  {
    assert WellFormed(s.workers[e.w]);
    WorkerStepReleases(s, e);
  }

  lemma ReleaseKeepsExclusive(s: State, s': State, w: WorkerId, k: nat)
    requires Exclusive(s) && Releases(s, s', w, k) && WellFormed(s'.workers[w])
    ensures Exclusive(s')
  {
    var ids := Unfinished(s.workers[w]);
    assert WellFormed(s.workers[w]);
    assert forall id :: id in ids[k..] ==> id in ids;
    assert forall v: WorkerId, id :: v != w ==> (Owns(s', v, id) <==> Owns(s, v, id));
    assert forall id :: Owns(s', w, id) ==> Owns(s, w, id);
    if k > 0 {
      assert Owns(s, w, ids[0]);
      assert ids[0] !in ids[k..];
      assert Unowned(s', ids[0]);
    }
    assert forall id :: Unowned(s, id) ==> Unowned(s', id);
    forall v: WorkerId, id | Owns(s', v, id)
      ensures MarkHits(s'.table, id)
    {
      assert Owns(s, v, id);
    }
  }

  /** A step that changes no worker, and takes no owned or late row out of `processing`. */
  lemma TableStepKeepsExclusive(s: State, s': State)
    requires Exclusive(s) && s'.workers == s.workers
    requires forall id :: id in s'.late ==> id in s.late && MarkHits(s'.table, id)
    requires forall w: WorkerId, id :: Owns(s, w, id) ==> MarkHits(s'.table, id)
    ensures Exclusive(s')
  {
    assert forall w: WorkerId, id :: Owns(s', w, id) <==> Owns(s, w, id);
    assert forall id :: Unowned(s, id) ==> Unowned(s', id);
  }

  lemma ClaimKeepsExclusive(s: State, w: WorkerId, limit: nat, ids: seq<OrderId>)
    requires Exclusive(s) && Enabled(s, ClaimOk(w, limit, ids))
    ensures Exclusive(Apply(s, ClaimOk(w, limit, ids)))
  {
    var s' := Apply(s, ClaimOk(w, limit, ids));
    assert forall id :: id in ids ==> id in Elements(ids) && s.table[id].status == Pending;
    assert forall v: WorkerId, id :: v != w ==> (Owns(s', v, id) <==> Owns(s, v, id));
    assert forall id :: Owns(s', w, id) <==> id in ids;
    assert forall id :: MarkHits(s.table, id) ==> MarkHits(s'.table, id);
    assert forall id :: id in ids ==> MarkHits(s'.table, id);
  }

  /** Every step of every creator, worker and server keeps the invariant. */
  lemma StepKeepsExclusive(s: State, e: Event)
    requires Exclusive(s) && Enabled(s, e)
    ensures Exclusive(Apply(s, e))
  {
    if InsideBatch(e) {
      WorkerStepReleases(s, e);
      WorkerStepWellFormed(s, e);
      ReleaseKeepsExclusive(s, Apply(s, e), e.w, GivenUp(s, e));
    } else if e.ClaimOk? {
      ClaimKeepsExclusive(s, e.w, e.limit, e.ids);
    } else if e.Start? || e.Exit? {
      ReleaseKeepsExclusive(s, Apply(s, e), e.w, 0);
    } else {
      OtherStepKeepsExclusive(s, e);
    }
  }

  lemma OtherStepKeepsExclusive(s: State, e: Event)
    requires Exclusive(s) && Enabled(s, e)
    requires !InsideBatch(e) && !e.ClaimOk? && !e.Start? && !e.Exit?
    ensures Exclusive(Apply(s, e))
  {
    var s' := Apply(s, e);
    if e.ClaimLost? {
      assert forall id :: MarkHits(s.table, id) ==> MarkHits(s'.table, id);
    } else if e.LateMark? {
      assert forall w: WorkerId :: IsWorker(s, w) ==> !Owns(s, w, e.id);
    }
    TableStepKeepsExclusive(s, s');
  }

  /** Exclusive ownership in every state of every run. */
  lemma {:induction false} RunsAreExclusive(s: State, run: seq<Event>)
    requires Init(s) && IsRun(s, run)
    ensures Exclusive(After(s, run))
    decreases |run|
  {
    if run != [] {
      var front := run[..|run| - 1];
      RunsAreExclusive(s, front);
      StepKeepsExclusive(After(s, front), run[|run| - 1]);
    }
  }

  /** No two workers ever hold one order, whatever they are doing. */
  lemma NoOrderHasTwoOwners(s: State, run: seq<Event>, v: WorkerId, w: WorkerId, id: OrderId)
    requires Init(s) && IsRun(s, run)
    requires Owns(After(s, run), v, id) && Owns(After(s, run), w, id)
    ensures v == w && MarkHits(After(s, run).table, id)
  {
    RunsAreExclusive(s, run);
  }

  /** ErrConflict is unreachable while only these statements write the table. */
  lemma ConflictUnreachable(s: State, run: seq<Event>, w: WorkerId)
    requires Init(s) && IsRun(s, run)
    ensures !Enabled(After(s, run), MarkConflict(w))
  {
    var now := After(s, run);
    RunsAreExclusive(s, run);
    if MarkDue(now, w) {
      assert Owns(now, w, now.workers[w].todo[0]);
    }
  }

  // ---- At most one mark attempt per claim ---------------------------------------

  predicate ClaimsOrder(e: Event, id: OrderId) {
    (e.ClaimOk? || e.ClaimLost?) && id in e.ids
  }

  /** The event sends MarkOrder for this order to the database. */
  ghost predicate MarksOrder(s: State, e: Event, id: OrderId)
    requires Enabled(s, e)
  {
    || ((e.MarkOk? || e.MarkConflict? || e.MarkFailed? || e.MarkLost? || e.MarkDeferred?)
        && s.workers[e.w].todo[0] == id)
    || (e.Crash? && e.deferred && s.workers[e.w].todo[0] == id)
  }

  ghost function Claims(run: seq<Event>, id: OrderId): nat {
    if run == [] then 0
    else Claims(run[..|run| - 1], id) + if ClaimsOrder(run[|run| - 1], id) then 1 else 0
  }

  ghost function MarkAttempts(s: State, run: seq<Event>, id: OrderId): nat
    requires IsRun(s, run)
    decreases |run|
  {
    if run == [] then 0
    else
      var front := run[..|run| - 1];
      MarkAttempts(s, front, id) + if MarksOrder(After(s, front), run[|run| - 1], id) then 1 else 0
  }

  ghost predicate Owned(s: State, id: OrderId) {
    exists w: WorkerId :: IsWorker(s, w) && Owns(s, w, id)
  }

  /** Each claim leads to at most one mark attempt, and an order still owned has one in hand. */
  lemma {:induction false} OneMarkPerClaim(s: State, run: seq<Event>, id: OrderId)
    requires Init(s) && IsRun(s, run)
    ensures MarkAttempts(s, run, id) + (if Owned(After(s, run), id) then 1 else 0) <= Claims(run, id)
    decreases |run|
  {
    if run != [] {
      var front, e := run[..|run| - 1], run[|run| - 1];
      OneMarkPerClaim(s, front, id);
      RunsAreExclusive(s, front);
      OwnershipStep(After(s, front), e, id);
    }
  }

  // ---- The owner is the last claimer ----------------------------------------------

  datatype Claimer = Nobody | By(w: WorkerId)

  /** Whose claim, answered or not, took the order last. */
  function LastClaimer(run: seq<Event>, id: OrderId): Claimer {
    if run == [] then Nobody
    else
      var e := run[|run| - 1];
      if ClaimsOrder(e, id) then By(e.w) else LastClaimer(run[..|run| - 1], id)
  }

  /** An order in hand was in hand before or has just been claimed by the same worker. */
  lemma OwnerStep(s: State, e: Event, w: WorkerId, id: OrderId)
    requires Exclusive(s) && Enabled(s, e) && Owns(Apply(s, e), w, id)
    ensures if ClaimsOrder(e, id) then e.w == w else Owns(s, w, id)
  {
    ClaimedOrderIsFree(s, e, id);
    if InsideBatch(e) {
      WorkerStepReleases(s, e);
    } else {
      OtherStepLists(s, e, w);
      assert Owns(s, w, id) ==> Owned(s, id);
    }
  }

  lemma {:induction false} OwnerClaimedLast(s: State, run: seq<Event>, w: WorkerId, id: OrderId)
    requires Init(s) && IsRun(s, run) && Owns(After(s, run), w, id)
    ensures LastClaimer(run, id) == By(w)
    decreases |run|
  {
    var front, e := run[..|run| - 1], run[|run| - 1];
    RunsAreExclusive(s, front);
    OwnerStep(After(s, front), e, w, id);
    if !ClaimsOrder(e, id) {
      OwnerClaimedLast(s, front, w, id);
    }
  }

  /** After the first k orders are given up, exactly the others are still owned. */
  lemma ReleasedOwners(s: State, s': State, w: WorkerId, k: nat, id: OrderId)
    requires Exclusive(s) && Releases(s, s', w, k)
    ensures Owned(s', id) ==> Owned(s, id)
    ensures k > 0 ==> Owned(s, Unfinished(s.workers[w])[0]) && !Owned(s', Unfinished(s.workers[w])[0])
    ensures Owned(s, id) && id !in Unfinished(s.workers[w])[..k] ==> Owned(s', id)
  {
    var ids := Unfinished(s.workers[w]);
    assert WellFormed(s.workers[w]);
    assert ids == ids[..k] + ids[k..];
    assert forall v: WorkerId, x :: v != w ==> (Owns(s', v, x) <==> Owns(s, v, x));
    assert forall x :: Owns(s', w, x) <==> x in ids[k..];
    if k > 0 {
      assert Owns(s, w, ids[0]);
    }
    if Owned(s, id) && id !in ids[..k] {
      var v: WorkerId :| Owns(s, v, id);
      assert Owns(s', v, id);
    }
  }

  /** A step outside a batch leaves every list as it is, except that a claim fills the claimer's. */
  lemma OtherStepLists(s: State, e: Event, v: WorkerId)
    requires Enabled(s, e) && !InsideBatch(e)
    ensures |Apply(s, e).workers| == |s.workers|
    ensures IsWorker(s, v) ==>
      Unfinished(Apply(s, e).workers[v]) ==
        if e.ClaimOk? && e.w == v then e.ids else Unfinished(s.workers[v])
  {
  }

  lemma OtherOwnership(s: State, e: Event, id: OrderId)
    requires Enabled(s, e) && !InsideBatch(e)
    ensures Owned(Apply(s, e), id) ==> Owned(s, id) || ClaimsOrder(e, id)
  {
    var s' := Apply(s, e);
    if Owned(s', id) {
      var v: WorkerId :| IsWorker(s', v) && Owns(s', v, id);
      OtherStepLists(s, e, v);
      assert Owns(s, v, id) || ClaimsOrder(e, id);
    }
  }

  /** Only a claim makes an order owned, and a mark attempt ends its ownership. */
  lemma OwnershipStep(s: State, e: Event, id: OrderId)
    requires Exclusive(s) && Enabled(s, e)
    ensures Owned(Apply(s, e), id) ==> Owned(s, id) || ClaimsOrder(e, id)
    ensures MarksOrder(s, e, id) ==> Owned(s, id) && !Owned(Apply(s, e), id)
    ensures ClaimsOrder(e, id) ==> !Owned(s, id)
  {
    if InsideBatch(e) {
      if MarksOrder(s, e, id) {
        MarkedOrderIsFirst(s, e, id);
      }
      WorkerStepReleases(s, e);
      ReleasedOwners(s, Apply(s, e), e.w, GivenUp(s, e), id);
    } else {
      OtherOwnership(s, e, id);
      ClaimedOrderIsFree(s, e, id);
    }
  }

  lemma MarkedOrderIsFirst(s: State, e: Event, id: OrderId)
    requires Enabled(s, e) && InsideBatch(e) && MarksOrder(s, e, id)
    ensures GivenUp(s, e) > 0 && Unfinished(s.workers[e.w])[0] == id
  {
  }

  lemma ClaimedOrderIsFree(s: State, e: Event, id: OrderId)
    requires Exclusive(s) && Enabled(s, e)
    ensures ClaimsOrder(e, id) ==> !Owned(s, id)
  {
    assert ClaimsOrder(e, id) ==> id in Elements(e.ids) && s.table[id].status == Pending;
  }
}
