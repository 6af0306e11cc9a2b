/** No unexplained stranding: an order in `processing` that no worker will finish got there by a
    known cause, and without a late mark it stays there. */
module QueueStranding {
  import opened Domain
  import opened OrderQueue
  import opened QueueOwnership
  import opened QueueStatus

  ghost predicate Stranded(s: State, id: OrderId) {
    MarkHits(s.table, id) && !Owned(s, id)
  }

  datatype Cause =
      // a claim committed and its caller saw an error, or panicked reading the rows
    | ClaimReplyLost
      // MarkOrder returned an error: the database failed or the write deadline had expired
    | MarkFailure
      // one of the two guards recovered
    | Panic
    | ProcessCrash
      // an injected processor asked for `processing` again
    | KeptProcessing

  ghost predicate Causes(s: State, e: Event, id: OrderId, c: Cause)
    requires Enabled(s, e)
  {
    match c
    case ClaimReplyLost => e.ClaimLost? && id in e.ids
    case MarkFailure => (e.MarkFailed? || e.MarkDeferred?) && s.workers[e.w].todo[0] == id
    case Panic =>
      || (e.OrderPanic? && !s.workers[e.w].Reporting? && s.workers[e.w].todo[0] == id)
      || (e.BatchPanic? && Owns(s, e.w, id))
    case ProcessCrash => e.Crash? && Owns(s, e.w, id)
    case KeptProcessing =>
      || ((e.MarkOk? || e.MarkLost?)
          && s.workers[e.w].todo[0] == id && s.workers[e.w].target == Processing)
      || (e.LateMark? && e.id == id && s.late[id] == Processing)
  }

  // ---- One step ----------------------------------------------------------------------

  lemma StrandingStep(s: State, e: Event, id: OrderId) returns (c: Cause)
    requires Exclusive(s) && Enabled(s, e)
    requires Stranded(Apply(s, e), id) && !Stranded(s, id)
    ensures Causes(s, e, id, c)
  {
    if InsideBatch(e) {
      GivenUpOrder(s, e, id);
      StepTable(s, e);
      c := BatchCause(s, e, id);
    } else {
      c := OtherStranding(s, e, id);
    }
  }

  /** An order that a batch step strands is one that the worker gives up. */
  lemma GivenUpOrder(s: State, e: Event, id: OrderId)
    requires Exclusive(s) && Enabled(s, e) && InsideBatch(e)
    requires Stranded(Apply(s, e), id) && !Stranded(s, id)
    ensures var ids, k := Unfinished(s.workers[e.w]), GivenUp(s, e);
      k <= |ids| && id in ids[..k]
  {
    WorkerStepReleases(s, e);
    ReleasedOwners(s, Apply(s, e), e.w, GivenUp(s, e), id);
  }

  lemma BatchCause(s: State, e: Event, id: OrderId) returns (c: Cause)
    requires Exclusive(s) && Enabled(s, e) && InsideBatch(e) && MarkHits(NewTable(s, e), id)
    requires GivenUp(s, e) <= |Unfinished(s.workers[e.w])|
    requires id in Unfinished(s.workers[e.w])[..GivenUp(s, e)]
    ensures Causes(s, e, id, c)
  {
    var ids, k := Unfinished(s.workers[e.w]), GivenUp(s, e);
    assert Owns(s, e.w, id);
    assert k == 1 ==> id == ids[0];
    c := if e.MarkFailed? || e.MarkDeferred? then MarkFailure
         else if e.Crash? then ProcessCrash
         else if e.MarkOk? || e.MarkLost? then KeptProcessing
         else Panic;
  }

  lemma OtherStranding(s: State, e: Event, id: OrderId) returns (c: Cause)
    requires Exclusive(s) && Enabled(s, e) && !InsideBatch(e)
    requires Stranded(Apply(s, e), id) && !Stranded(s, id)
    ensures Causes(s, e, id, c)
  {
    var s' := Apply(s, e);
    c := ClaimReplyLost;
    if Owned(s, id) {
      var v: WorkerId :| IsWorker(s, v) && Owns(s, v, id);
      OtherStepLists(s, e, v);
      assert Owns(s', v, id);
      assert false;
    }
    assert !MarkHits(s.table, id);
    if e.ClaimOk? {
      assert id in Elements(e.ids);
      assert Owns(s', e.w, id);
      assert false;
    }
    assert e.ClaimLost? && id in Elements(e.ids);
  }

  /** The classification is exact: each of these events does strand the order it names. */
  lemma CauseStrands(s: State, e: Event, id: OrderId, c: Cause)
    requires Exclusive(s) && Enabled(s, e) && Causes(s, e, id, c)
    ensures Stranded(Apply(s, e), id)
  {
    if InsideBatch(e) {
      WorkerStepReleases(s, e);
      var ids, k := Unfinished(s.workers[e.w]), GivenUp(s, e);
      assert Owns(s, e.w, id);
      assert WellFormed(s.workers[e.w]);
      assert forall v: WorkerId, x :: v != e.w ==> (Owns(Apply(s, e), v, x) <==> Owns(s, v, x));
      assert id !in ids[k..];
    } else {
      assert e.ClaimLost? ==> id in Elements(e.ids);
      forall v: WorkerId | IsWorker(s, v)
        ensures !Owns(Apply(s, e), v, id)
      {
        OtherStepLists(s, e, v);
        assert !Owns(s, v, id);
      }
    }
  }

  /** A stranded row with no statement under way is out of reach of every step. */
  lemma FrozenStep(s: State, e: Event, id: OrderId)
    requires Exclusive(s) && Enabled(s, e) && Stranded(s, id) && id !in s.late
    ensures Stranded(Apply(s, e), id) && id !in Apply(s, e).late
    ensures Apply(s, e).table[id] == s.table[id]
  {
    if InsideBatch(e) {
      WorkerStepReleases(s, e);
      ReleasedOwners(s, Apply(s, e), e.w, GivenUp(s, e), id);
    } else {
      OtherOwnership(s, e, id);
      if e.ClaimOk? || e.ClaimLost? {
        assert id !in Elements(e.ids);
      }
    }
  }

  // ---- Whole runs ------------------------------------------------------------------------

  /** Event k of the run stranded the order, which was not stranded before and has been ever since. */
  ghost predicate ExplainedAt(s: State, run: seq<Event>, id: OrderId, k: nat, c: Cause)
    requires IsRun(s, run)
  {
    && k < |run|
    && IsRun(s, run[..k]) && !Stranded(After(s, run[..k]), id)
    && Enabled(After(s, run[..k]), run[k]) && Causes(After(s, run[..k]), run[k], id, c)
    && StrandedSince(s, run, id, k)
  }

  ghost predicate StrandedSince(s: State, run: seq<Event>, id: OrderId, k: nat) {
    forall j: nat :: k < j <= |run| ==> StrandedAt(s, run, id, j)
  }

  ghost predicate StrandedAt(s: State, run: seq<Event>, id: OrderId, j: nat) {
    j <= |run| && IsRun(s, run[..j]) && Stranded(After(s, run[..j]), id)
  }

  lemma {:induction false} NoUnexplainedStranding(s: State, run: seq<Event>, id: OrderId)
      returns (k: nat, c: Cause)
    requires Init(s) && IsRun(s, run) && Stranded(After(s, run), id)
    ensures ExplainedAt(s, run, id, k, c)
    decreases |run|
  {
    assert run != [];
    var front, e := run[..|run| - 1], run[|run| - 1];
    RunsAreExclusive(s, front);
    if Stranded(After(s, front), id) {
      k, c := NoUnexplainedStranding(s, front, id);
      StillExplained(s, run, id, k, c);
    } else {
      k := |run| - 1;
      c := StrandingStep(After(s, front), e, id);
      JustExplained(s, run, id, c);
    }
  }

  lemma JustExplained(s: State, run: seq<Event>, id: OrderId, c: Cause)
    requires run != [] && IsRun(s, run) && Stranded(After(s, run), id)
    requires !Stranded(After(s, run[..|run| - 1]), id)
    requires Causes(After(s, run[..|run| - 1]), run[|run| - 1], id, c)
    ensures ExplainedAt(s, run, id, |run| - 1, c)
  {
    assert run[..|run|] == run;
  }

  lemma StillExplained(s: State, run: seq<Event>, id: OrderId, k: nat, c: Cause)
    requires run != [] && IsRun(s, run) && ExplainedAt(s, run[..|run| - 1], id, k, c)
    requires Stranded(After(s, run), id)
    ensures ExplainedAt(s, run, id, k, c)
  {
    var front := run[..|run| - 1];
    assert run[..k] == front[..k] && run[k] == front[k];
    StillStranded(s, run, id, k);
  }

  lemma StillStranded(s: State, run: seq<Event>, id: OrderId, k: nat)
    requires run != [] && IsRun(s, run) && StrandedSince(s, run[..|run| - 1], id, k)
    requires Stranded(After(s, run), id)
    ensures StrandedSince(s, run, id, k)
  {
    var front := run[..|run| - 1];
    forall j: nat | k < j <= |run|
      ensures StrandedAt(s, run, id, j)
    {
      if j == |run| {
        assert run[..j] == run;
      } else {
        assert StrandedAt(s, front, id, j);
        assert run[..j] == front[..j];
      }
    }
  }

  // ---- Who stranded it ---------------------------------------------------------------------

  /** The event that strands an order is a step of the worker that claimed it last. */
  lemma StrandedByLastClaimer(s: State, run: seq<Event>, id: OrderId, k: nat, c: Cause)
    requires Init(s) && IsRun(s, run) && ExplainedAt(s, run, id, k, c)
    ensures LastClaimer(run, id).By? && Mine(run[k], LastClaimer(run, id).w)
  {
    var before, e := After(s, run[..k]), run[k];
    RunsAreExclusive(s, run[..k]);
    CauseIsMine(before, e, id, c);
    if !ClaimsOrder(e, id) {
      OwnerClaimedLast(s, run[..k], e.w, id);
    }
    assert run[..k + 1][..k] == run[..k];
    NoClaimWhileStranded(s, run, id, k, |run|);
    assert run[..|run|] == run;
  }

  lemma CauseIsMine(s: State, e: Event, id: OrderId, c: Cause)
    requires Exclusive(s) && Enabled(s, e) && !Stranded(s, id) && Causes(s, e, id, c)
    ensures !e.LateMark? && Mine(e, e.w)
    ensures ClaimsOrder(e, id) || Owns(s, e.w, id)
  {
    assert e.LateMark? ==> Unowned(s, e.id);
  }

  lemma StrandedIsNotClaimed(s: State, e: Event, id: OrderId)
    requires Enabled(s, e) && Stranded(s, id)
    ensures !ClaimsOrder(e, id)
  {
    assert ClaimsOrder(e, id) ==> id in Elements(e.ids);
  }

  lemma {:induction false} NoClaimWhileStranded(s: State, run: seq<Event>, id: OrderId, k: nat, n: nat)
    requires StrandedSince(s, run, id, k) && k < n <= |run|
    ensures LastClaimer(run[..n], id) == LastClaimer(run[..k + 1], id)
    decreases n
  {
    if n > k + 1 {
      NoClaimWhileStranded(s, run, id, k, n - 1);
      assert run[..n][..n - 1] == run[..n - 1];
      assert StrandedAt(s, run, id, n) && StrandedAt(s, run, id, n - 1);
      StrandedIsNotClaimed(After(s, run[..n - 1]), run[n - 1], id);
    }
  }

  // ---- For ever -----------------------------------------------------------------------------

  /** Without a late mark, no continuation of any length, by any number of workers, moves it. */
  lemma {:induction false} StrandedForever(s: State, run: seq<Event>, id: OrderId)
    requires Exclusive(s) && IsRun(s, run) && Stranded(s, id) && id !in s.late
    ensures Exclusive(After(s, run))
    ensures Stranded(After(s, run), id) && id !in After(s, run).late
    ensures After(s, run).table[id] == s.table[id]
    decreases |run|
  {
    if run != [] {
      var front, e := run[..|run| - 1], run[|run| - 1];
      StrandedForever(s, front, id);
      StepKeepsExclusive(After(s, front), e);
      FrozenStep(After(s, front), e, id);
    }
  }

  /** The exception is real: a late mark moves the stranded row at once, if the server gets to it, and
      once it is lost the row is stuck. */
  lemma LateMarkDecides(s: State, id: OrderId)
    requires Exclusive(s) && id in s.late
    ensures Stranded(s, id) && Enabled(s, LateMark(id)) && Enabled(s, LateDropped(id))
    ensures Apply(s, LateMark(id)).table[id] == s.table[id].(status := s.late[id])
    ensures id !in Apply(s, LateMark(id)).late
    ensures Stranded(Apply(s, LateDropped(id)), id) && id !in Apply(s, LateDropped(id)).late
  {
    assert Unowned(s, id);
    StepKeepsExclusive(s, LateDropped(id));
    assert forall w: WorkerId :: Owns(Apply(s, LateDropped(id)), w, id) <==> Owns(s, w, id);
  }

  /** And it comes about: a mark given up on, by its caller or by a crash, is left to the server, and ends
      in the table that the answered mark would have left. */
  lemma DeferredMarkCatchesUp(s: State, w: WorkerId)
    requires MarkSent(s, w) && MarkHits(s.table, s.workers[w].todo[0])
    ensures var id, answered := s.workers[w].todo[0], Apply(s, MarkOk(w)).table;
      && Enabled(s, MarkDeferred(w)) && Enabled(s, Crash(w, true))
      && Enabled(Apply(s, MarkDeferred(w)), LateMark(id)) && Enabled(Apply(s, Crash(w, true)), LateMark(id))
      && Apply(Apply(s, MarkDeferred(w)), LateMark(id)).table == answered
      && Apply(Apply(s, Crash(w, true)), LateMark(id)).table == answered
  {
  }

  /** A crash can strand every order in hand at any moment, and so can a panic of its batch. */
  lemma EveryOrderInHandIsAtRisk(s: State, w: WorkerId, id: OrderId)
    requires Exclusive(s) && Owns(s, w, id)
    ensures Enabled(s, Crash(w, false)) && Stranded(Apply(s, Crash(w, false)), id)
    ensures Enabled(s, BatchPanic(w)) && Stranded(Apply(s, BatchPanic(w)), id)
  {
    CauseStrands(s, Crash(w, false), id, ProcessCrash);
    CauseStrands(s, BatchPanic(w), id, Panic);
  }

  // ---- The write deadline ------------------------------------------------------------------

  /** A mark whose deadline has expired leaves the worker's hands only by stranding its order. */
  lemma ExpiredStep(s: State, e: Event, w: WorkerId)
    requires Exclusive(s) && MarkDue(s, w) && s.workers[w].expired && Enabled(s, e)
    ensures var id := s.workers[w].todo[0];
      || (IsWorker(Apply(s, e), w) && Apply(s, e).workers[w] == s.workers[w])
      || (Stranded(Apply(s, e), id) && id !in Apply(s, e).late)
  {
    var id := s.workers[w].todo[0];
    assert Owns(s, w, id);
    assert id !in s.late;
    if InsideBatch(e) && e.w == w {
      var c := if e.MarkFailed? then MarkFailure else if e.Crash? then ProcessCrash else Panic;
      assert Causes(s, e, id, c);
      CauseStrands(s, e, id, c);
    } else {
      OtherWorkersMove(s, e, w);
    }
  }

  lemma OtherWorkersMove(s: State, e: Event, w: WorkerId)
    requires Enabled(s, e) && MarkDue(s, w) && !(InsideBatch(e) && e.w == w)
    ensures IsWorker(Apply(s, e), w) && Apply(s, e).workers[w] == s.workers[w]
  {
  }

  /** A processor that outlasts the five seconds costs its order: in every continuation the mark is
      still to fail, or the order is stranded for good, even if the processor succeeded. */
  lemma {:induction false} SlowProcessorStrands(s: State, run: seq<Event>, w: WorkerId)
    requires Exclusive(s) && IsRun(s, run) && MarkDue(s, w) && s.workers[w].expired
    ensures Exclusive(After(s, run))
    ensures var id := s.workers[w].todo[0];
      || (IsWorker(After(s, run), w) && After(s, run).workers[w] == s.workers[w])
      || (Stranded(After(s, run), id) && id !in After(s, run).late)
    decreases |run|
  {
    if run != [] {
      var front, e := run[..|run| - 1], run[|run| - 1];
      SlowProcessorStrands(s, front, w);
      StepKeepsExclusive(After(s, front), e);
      if IsWorker(After(s, front), w) && After(s, front).workers[w] == s.workers[w] {
        ExpiredStep(After(s, front), e, w);
      } else {
        FrozenStep(After(s, front), e, s.workers[w].todo[0]);
      }
    }
  }

  /** With the default processor only the four external causes remain. */
  lemma DefaultStrandingCauses(s: State, run: seq<Event>, id: OrderId) returns (k: nat, c: Cause)
    requires Init(s) && IsRun(s, run) && forall e :: e in run ==> UsesDefault(e)
    requires Stranded(After(s, run), id)
    ensures ExplainedAt(s, run, id, k, c) && c != KeptProcessing
  {
    k, c := NoUnexplainedStranding(s, run, id);
    assert forall e :: e in run[..k] ==> e in run;
    DefaultRuns(s, run[..k]);
  }

  /** A run with no lost reply, failed mark, panic or crash strands nothing: in particular a worker
      that leaves its loop between batches takes no order with it. */
  lemma CleanRunsStrandNothing(s: State, run: seq<Event>, id: OrderId)
    requires Init(s) && IsRun(s, run)
    requires forall e :: e in run ==>
      && UsesDefault(e) && !e.ClaimLost? && !e.MarkFailed? && !e.MarkDeferred?
      && !e.OrderPanic? && !e.BatchPanic? && !e.Crash?
    ensures !Stranded(After(s, run), id)
  {
    if Stranded(After(s, run), id) {
      var k, c := DefaultStrandingCauses(s, run, id);
      assert false;
    }
  }

  // ---- The oldest-pending age ------------------------------------------------------------

  /** qOldestPendingAge: the creation time it measures from. */
  ghost predicate IsOldestPending(t: Table, at: int) {
    && (exists id :: id in t && t[id].status == Pending && t[id].createdAt == at)
    && (forall id :: id in t && t[id].status == Pending ==> at <= t[id].createdAt)
  }

  /** However old a stranded row gets, the oldest-pending age is what it would be without the row. */
  lemma StrandedIsInvisible(s: State, run: seq<Event>, id: OrderId, at: int)
    requires Exclusive(s) && IsRun(s, run) && Stranded(s, id) && id !in s.late
    ensures var t := After(s, run).table;
      IsOldestPending(t, at) <==> IsOldestPending(t - {id}, at)
  {
    StrandedForever(s, run, id);
    var t := After(s, run).table;
    assert forall x :: x in t && t[x].status == Pending ==> x in t - {id} && (t - {id})[x] == t[x];
    assert forall x :: x in t - {id} ==> x in t && (t - {id})[x] == t[x];
    if IsOldestPending(t, at) {
      var x :| x in t && t[x].status == Pending && t[x].createdAt == at;
      assert x in t - {id};
    }
  }
}
