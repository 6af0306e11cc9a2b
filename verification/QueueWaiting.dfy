/** Bounded waiting: the claim serves the oldest pending rows first, so an order waits only for the
    orders created no later than itself. */
module QueueWaiting {
  import opened Collections
  import opened Domain
  import opened OrderQueue
  import opened QueueOwnership
  import opened QueueStatus
  import opened QueueRows

  /** The other pending orders created no later than id. */
  ghost function Ahead(t: Table, id: OrderId): set<OrderId>
    requires id in t
  {
    set x | x in t && x != id && t[x].status == Pending && t[x].createdAt <= t[id].createdAt
  }

  predicate IsPending(t: Table, id: OrderId) {
    id in t && t[id].status == Pending
  }

  /** The row that the event releases to `pending`, if any. */
  ghost predicate ReleasesOrder(s: State, e: Event, x: OrderId)
    requires Enabled(s, e)
  {
    || ((e.MarkOk? || e.MarkLost?)
        && s.workers[e.w].todo[0] == x && s.workers[e.w].target == Pending)
    || (e.LateMark? && e.id == x && s.late[x] == Pending)
  }

  /** Claims take at least `batch` rows when there are as many, new orders are stamped after `at`,
      and no other order created up to `at` is released back. */
  ghost predicate NoOvertaking(s: State, e: Event, id: OrderId, at: int, batch: nat)
    requires Enabled(s, e)
  {
    && (e.ClaimOk? || e.ClaimLost? ==> e.limit >= batch)
    && (e.Insert? || e.InsertLost? ==> e.at > at)
    && forall x :: x in s.table && x != id && s.table[x].createdAt <= at ==> !ReleasesOrder(s, e, x)
  }

  ghost predicate NoOvertakingRun(s: State, run: seq<Event>, id: OrderId, at: int, batch: nat)
    requires IsRun(s, run)
    decreases |run|
  {
    run == [] ||
    (var front := run[..|run| - 1];
     && NoOvertakingRun(s, front, id, at, batch)
     && NoOvertaking(After(s, front), run[|run| - 1], id, at, batch))
  }

  /** Committed claims of the run, answered or not. */
  function ClaimCount(run: seq<Event>): nat {
    if run == [] then 0
    else ClaimCount(run[..|run| - 1])
         + if run[|run| - 1].ClaimOk? || run[|run| - 1].ClaimLost? then 1 else 0
  }

  lemma ClaimServesOldest(t: Table, limit: nat, ids: seq<OrderId>, id: OrderId)
    requires IsClaim(t, limit, ids) && IsPending(t, id) && id !in ids
    ensures var t' := SetStatus(t, Elements(ids), Processing);
      IsPending(t', id) && t'[id] == t[id] && |Ahead(t', id)| + limit == |Ahead(t, id)|
  {
    var t', taken := SetStatus(t, Elements(ids), Processing), Elements(ids);
    NoRepeatsSize(ids);
    assert taken <= Ahead(t, id);
    assert Ahead(t', id) == Ahead(t, id) - taken;
    assert Ahead(t, id) == Ahead(t', id) + taken;
    SubsetSize(taken, WithStatus(t, Pending) - {id});
  }

  /** One step: a claim that passes the order over takes `limit` orders that were ahead of it, and
      nothing else adds one. */
  lemma WaitingStep(s: State, e: Event, id: OrderId, batch: nat)
    requires Enabled(s, e) && IsPending(s.table, id)
    requires NoOvertaking(s, e, id, s.table[id].createdAt, batch) && !ClaimsOrder(e, id)
    ensures IsPending(Apply(s, e).table, id) && Apply(s, e).table[id] == s.table[id]
    ensures |Ahead(Apply(s, e).table, id)| + (if e.ClaimOk? || e.ClaimLost? then batch else 0)
            <= |Ahead(s.table, id)|
  {
    if e.ClaimOk? || e.ClaimLost? {
      ClaimServesOldest(s.table, e.limit, e.ids, id);
    } else {
      OtherStepsAddNone(s, e, id, batch);
      SubsetSize(Ahead(Apply(s, e).table, id), Ahead(s.table, id));
    }
  }

  lemma OtherStepsAddNone(s: State, e: Event, id: OrderId, batch: nat)
    requires Enabled(s, e) && IsPending(s.table, id) && !e.ClaimOk? && !e.ClaimLost?
    requires NoOvertaking(s, e, id, s.table[id].createdAt, batch)
    ensures IsPending(Apply(s, e).table, id) && Apply(s, e).table[id] == s.table[id]
    ensures Ahead(Apply(s, e).table, id) <= Ahead(s.table, id)
  {
    var t, t' := s.table, Apply(s, e).table;
    forall x | x in Ahead(t', id)
      ensures x in Ahead(t, id)
    {
      assert ReleasesOrder(s, e, x) || (x in t && t'[x] == t[x]);
    }
  }

  /** Claimed and released any number of times, an order comes back to its place in the queue: whoever is
      ahead of it now was ahead of it before, was being processed then, or is new. */
  lemma ReleasedToItsPlace(s: State, run: seq<Event>, id: OrderId, x: OrderId)
    requires IsRun(s, run) && IsPending(s.table, id) && IsPending(After(s, run).table, id)
    requires x in Ahead(After(s, run).table, id)
    ensures x !in s.table || x in Ahead(s.table, id) || s.table[x].status == Processing
  {
    RowsKeepIdentity(s, run, id);
    if x in s.table {
      RowsKeepIdentity(s, run, x);
      if Terminal(s.table[x].status) {
        TerminalForever(s, run, x);
      }
    }
  }

  lemma {:induction false} WaitingRun(s: State, run: seq<Event>, id: OrderId, batch: nat)
    requires IsRun(s, run) && IsPending(s.table, id)
    requires NoOvertakingRun(s, run, id, s.table[id].createdAt, batch)
    requires forall e :: e in run ==> !ClaimsOrder(e, id)
    ensures IsPending(After(s, run).table, id) && After(s, run).table[id] == s.table[id]
    ensures ClaimCount(run) * batch + |Ahead(After(s, run).table, id)| <= |Ahead(s.table, id)|
    decreases |run|
  {
    if run != [] {
      var front, e := run[..|run| - 1], run[|run| - 1];
      assert e in run;
      WaitingRun(s, front, id, batch);
      WaitingStep(After(s, front), e, id, batch);
      OneMoreClaim(run, batch);
    }
  }

  lemma OneMoreClaim(run: seq<Event>, batch: nat)
    requires run != []
    ensures var front, e := run[..|run| - 1], run[|run| - 1];
      ClaimCount(run) * batch
      == ClaimCount(front) * batch + if e.ClaimOk? || e.ClaimLost? then batch else 0
  {
  }

  /** A pending order with k others ahead of it is claimed within k / batch + 1 committed claims. */
  lemma BoundedWaiting(s: State, run: seq<Event>, id: OrderId, batch: nat)
    requires IsRun(s, run) && IsPending(s.table, id) && batch > 0
    requires NoOvertakingRun(s, run, id, s.table[id].createdAt, batch)
    requires ClaimCount(run) >= |Ahead(s.table, id)| / batch + 1
    ensures exists e :: e in run && ClaimsOrder(e, id)
  {
    if forall e :: e in run ==> !ClaimsOrder(e, id) {
      WaitingRun(s, run, id, batch);
      var k, n := |Ahead(s.table, id)|, ClaimCount(run);
      QuotientBound(k, batch, n);
      assert false;
    }
  }

  lemma QuotientBound(k: nat, b: nat, n: nat)
    requires b > 0 && n >= k / b + 1
    ensures n * b > k
  {
    assert k < (k / b + 1) * b;
    assert n * b == (k / b + 1) * b + (n - k / b - 1) * b;
    assert (n - k / b - 1) * b >= 0;
  }
}
