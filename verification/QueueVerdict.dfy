/** No status lies: a row is paid, failed or cancelled only because a processor, run by the worker that
    owned the order, returned that verdict. */
module QueueVerdict {
  import opened Domain
  import opened OrderQueue
  import opened QueueOwnership

  /** The processor's answer that a status stands for. An attempt cut short by shutdown stands for
      `pending`; an error without shutdown stands for `failed`. */
  predicate StandsFor(st: Status, outcome: Status, err: bool, cancelled: bool) {
    match st
    case Paid => !err && outcome == Paid
    case Cancelled => !err && outcome == Cancelled
    case Processing => !err && outcome == Processing
    case Failed => (!err && outcome == Failed) || (err && !cancelled)
    case Pending => (!err && outcome == Pending) || (err && cancelled)
  }

  /** The event is the owner's processor returning verdict st on this order. */
  ghost predicate Verdict(s: State, e: Event, id: OrderId, st: Status)
    requires Enabled(s, e)
  {
    e.Return? && s.workers[e.w].todo[0] == id && StandsFor(st, e.outcome, e.err, e.cancelled)
  }

  ghost predicate VerdictAt(s: State, run: seq<Event>, id: OrderId, st: Status, k: nat) {
    && k < |run| && IsRun(s, run[..k]) && Enabled(After(s, run[..k]), run[k])
    && Verdict(After(s, run[..k]), run[k], id, st)
  }

  ghost predicate Decided(s: State, run: seq<Event>, id: OrderId, st: Status) {
    exists k: nat :: VerdictAt(s, run, id, st, k)
  }

  /** The status a mark is under way to give the order, in a worker or left to the server. */
  ghost predicate MarkingTo(now: State, id: OrderId, st: Status) {
    || (exists w: WorkerId :: MarkDue(now, w) && now.workers[w].todo[0] == id && now.workers[w].target == st)
    || (id in now.late && now.late[id] == st)
  }

  predicate FinalAs(now: State, id: OrderId, st: Status) {
    id in now.table && now.table[id].status == st && st != Pending && st != Processing
  }

  // ---- One step ------------------------------------------------------------------------------

  /** A mark gets under way only by a verdict, and only a mark under way makes a row final. */
  lemma VerdictStep(s: State, e: Event, id: OrderId, st: Status)
    requires Exclusive(s) && Enabled(s, e)
    ensures MarkingTo(Apply(s, e), id, st) ==> MarkingTo(s, id, st) || Verdict(s, e, id, st)
    ensures FinalAs(Apply(s, e), id, st) ==> FinalAs(s, id, st) || MarkingTo(s, id, st)
  {
    LateStep(s, e, id, st);
    DueStep(s, e, id, st);
    StepTable(s, e);
    if FinalAs(Apply(s, e), id, st) {
      FinalStep(s, e, id, st);
    }
  }

  lemma LateStep(s: State, e: Event, id: OrderId, st: Status)
    requires Enabled(s, e)
    ensures id in Apply(s, e).late && Apply(s, e).late[id] == st ==> MarkingTo(s, id, st)
  {
  }

  lemma DueStep(s: State, e: Event, id: OrderId, st: Status)
    requires Enabled(s, e)
    ensures forall w: WorkerId ::
      MarkDue(Apply(s, e), w) && Apply(s, e).workers[w].todo[0] == id && Apply(s, e).workers[w].target == st
      ==> MarkingTo(s, id, st) || Verdict(s, e, id, st)
  {
    forall w: WorkerId
      | MarkDue(Apply(s, e), w) && Apply(s, e).workers[w].todo[0] == id && Apply(s, e).workers[w].target == st
      ensures MarkingTo(s, id, st) || Verdict(s, e, id, st)
    {
      DueWorker(s, e, w);
    }
  }

  /** The only step into Marking is Return. */
  lemma DueWorker(s: State, e: Event, w: WorkerId)
    requires Enabled(s, e) && MarkDue(Apply(s, e), w)
    ensures IsWorker(s, w)
    ensures (e.Return? && e.w == w) || Apply(s, e).workers[w] == s.workers[w]
  {
  }

  lemma FinalStep(s: State, e: Event, id: OrderId, st: Status)
    requires Exclusive(s) && Enabled(s, e)
    requires id in NewTable(s, e) && NewTable(s, e)[id].status == st && st != Pending && st != Processing
    ensures FinalAs(s, id, st) || MarkingTo(s, id, st)
  {
  }

  // ---- Whole runs ------------------------------------------------------------------------------

  lemma StillDecided(s: State, run: seq<Event>, id: OrderId, st: Status)
    requires run != [] && Decided(s, run[..|run| - 1], id, st)
    ensures Decided(s, run, id, st)
  {
    var front := run[..|run| - 1];
    var k: nat :| VerdictAt(s, front, id, st, k);
    assert front[..k] == run[..k];
    assert VerdictAt(s, run, id, st, k);
  }

  lemma {:induction false} MarksAreDecided(s: State, run: seq<Event>, id: OrderId, st: Status)
    requires Init(s) && IsRun(s, run)
    ensures MarkingTo(After(s, run), id, st) || FinalAs(After(s, run), id, st) ==> Decided(s, run, id, st)
    decreases |run|
  {
    if run != [] {
      var front, e := run[..|run| - 1], run[|run| - 1];
      MarksAreDecided(s, front, id, st);
      RunsAreExclusive(s, front);
      VerdictStep(After(s, front), e, id, st);
      if Decided(s, front, id, st) {
        StillDecided(s, run, id, st);
      } else if Verdict(After(s, front), e, id, st) {
        assert VerdictAt(s, run, id, st, |run| - 1);
      }
    }
  }

  /** In every run, with any processor: a row is paid, failed or cancelled only if the worker that
      owned the order got that verdict; in particular an attempt that shutdown cut short never makes
      an order `failed`. */
  lemma NoStatusLies(s: State, run: seq<Event>, id: OrderId) returns (k: nat)
    requires Init(s) && IsRun(s, run) && id in After(s, run).table
    requires After(s, run).table[id].status != Pending && After(s, run).table[id].status != Processing
    ensures VerdictAt(s, run, id, After(s, run).table[id].status, k)
    ensures Owns(After(s, run[..k]), run[k].w, id)
  {
    var st := After(s, run).table[id].status;
    MarksAreDecided(s, run, id, st);
    k :| VerdictAt(s, run, id, st, k);
  }
}
