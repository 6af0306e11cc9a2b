/** Status safety over whole runs: terminal rows never move, and with the default processor every
    row change and every counted transition belongs to the closed set. */
module QueueStatus {
  import opened Domain
  import opened OrderQueue
  import opened QueueOwnership

  predicate Terminal(st: Status) {
    st == Paid || st == Failed || st == Cancelled
  }

  // ---- Terminal rows: any processor ------------------------------------------------

  /** No statement touches a row outside `pending` and `processing`. */
  lemma TerminalStep(s: State, e: Event, id: OrderId)
    requires Enabled(s, e) && id in s.table && Terminal(s.table[id].status)
    ensures id in Apply(s, e).table && Apply(s, e).table[id] == s.table[id]
  {
    if e.ClaimOk? || e.ClaimLost? {
      assert id !in Elements(e.ids);
    }
  }

  /** A finished order stays as it is for ever, from any state and with any processor. */
  lemma {:induction false} TerminalForever(s: State, run: seq<Event>, id: OrderId)
    requires IsRun(s, run) && id in s.table && Terminal(s.table[id].status)
    ensures id in After(s, run).table && After(s, run).table[id] == s.table[id]
    decreases |run|
  {
    if run != [] {
      var front := run[..|run| - 1];
      TerminalForever(s, front, id);
      TerminalStep(After(s, front), run[|run| - 1], id);
    }
  }

  // ---- The default processor -----------------------------------------------------------

  predicate UsesDefault(e: Event) {
    e.Return? ==> DefaultReturn(e.outcome, e.err, e.cancelled)
  }

  predicate DefaultTarget(st: Status) {
    st == Paid || st == Failed || st == Pending
  }

  /** Every mark under way, answered or late, has a legal target. */
  ghost predicate DefaultTargets(s: State) {
    && (forall w :: 0 <= w < |s.workers| ==>
          (s.workers[w].Marking? || s.workers[w].Reporting?) ==> DefaultTarget(s.workers[w].target))
    && (forall id :: id in s.late ==> DefaultTarget(s.late[id]))
  }

  ghost predicate DefaultState(s: State) {
    && DefaultTargets(s)
    && (forall id :: id in s.table ==> s.table[id].status != Cancelled)
    && s.counted.Keys == ALL_TRANSITIONS
  }

  lemma TargetsStep(s: State, e: Event)
    requires DefaultTargets(s) && Enabled(s, e) && UsesDefault(e)
    ensures DefaultTargets(Apply(s, e))
  {
  }

  lemma NoCancelledStep(s: State, e: Event, id: OrderId)
    requires DefaultTargets(s) && Enabled(s, e) && id in NewTable(s, e)
    requires id in s.table ==> s.table[id].status != Cancelled
    ensures NewTable(s, e)[id].status != Cancelled
  {
  }

  lemma SeriesStep(s: State, e: Event)
    requires DefaultTargets(s) && Enabled(s, e) && s.counted.Keys == ALL_TRANSITIONS
    ensures Apply(s, e).counted.Keys == ALL_TRANSITIONS
  {
    if e.CountMark? {
      var target := s.workers[e.w].target;
      assert DefaultTarget(target) && Finished(target) in ALL_TRANSITIONS;
    }
  }

  lemma DefaultStep(s: State, e: Event)
    requires DefaultState(s) && Enabled(s, e) && UsesDefault(e)
    ensures DefaultState(Apply(s, e))
  {
    TargetsStep(s, e);
    SeriesStep(s, e);
    StepTable(s, e);
    forall id | id in NewTable(s, e)
      ensures NewTable(s, e)[id].status != Cancelled
    {
      NoCancelledStep(s, e, id);
    }
  }

  /** With the default processor `cancelled` is never reached, and the counter never grows a series
      that PreInit did not create. */
  lemma {:induction false} DefaultRuns(s: State, run: seq<Event>)
    requires Init(s) && IsRun(s, run) && forall e :: e in run ==> UsesDefault(e)
    ensures DefaultState(After(s, run))
    decreases |run|
  {
    if run != [] {
      var front, e := run[..|run| - 1], run[|run| - 1];
      assert e in run;
      DefaultRuns(s, front);
      DefaultStep(After(s, front), e);
    }
  }

  /** The label of a row, with "new" for a row that does not exist yet. */
  function LabelOf(t: Table, id: OrderId): Label {
    if id in t then At(t[id].status) else New
  }

  /** Every change of every row, at any point of any run with the default processor, is one of
      AllTransitions. */
  lemma RowChangesAreLegal(s: State, run: seq<Event>, id: OrderId)
    requires Init(s) && IsRun(s, run) && run != [] && forall e :: e in run ==> UsesDefault(e)
    ensures var before, after := After(s, run[..|run| - 1]).table, After(s, run).table;
      LabelOf(before, id) != LabelOf(after, id) ==>
        Transition(LabelOf(before, id), LabelOf(after, id)) in ALL_TRANSITIONS
  {
    var front, e := run[..|run| - 1], run[|run| - 1];
    DefaultRuns(s, front);
    RunsAreExclusive(s, front);
    StepTable(After(s, front), e);
    ChangeIsLegal(After(s, front), e, id);
  }

  lemma ChangeIsLegal(s: State, e: Event, id: OrderId)
    requires Exclusive(s) && DefaultState(s) && Enabled(s, e)
    ensures LabelOf(s.table, id) != LabelOf(NewTable(s, e), id) ==>
      Transition(LabelOf(s.table, id), LabelOf(NewTable(s, e), id)) in ALL_TRANSITIONS
  {
    if e.ClaimOk? || e.ClaimLost? {
      assert id in Elements(e.ids) ==> s.table[id].status == Pending;
    }
  }

  // ---- The closed set is exact -------------------------------------------------------------------

  lemma OrderCreated(s: State) returns (run: seq<Event>, now: State)
    requires Init(s) && IsWorker(s, 0)
    ensures run == [Start(0), Insert(0, 0, SOME_ORDER)] && LeadsTo(s, run, now)
    ensures now.table == map[0 := Row(Pending, 0, SOME_ORDER)] && IsWorker(now, 0) && now.workers[0] == Idle
  {
    run, now := ExtendRun(s, [], s, Start(0));
    run, now := ExtendRun(s, run, now, Insert(0, 0, SOME_ORDER));
  }

  lemma OrderClaimed(s: State) returns (run: seq<Event>, now: State)
    requires Init(s) && IsWorker(s, 0)
    ensures run == [Start(0), Insert(0, 0, SOME_ORDER), ClaimOk(0, 1, [0])] && LeadsTo(s, run, now)
    ensures now.table == map[0 := Row(Processing, 0, SOME_ORDER)]
    ensures IsWorker(now, 0) && now.workers[0] == Counting([0], 0)
  {
    run, now := OrderCreated(s);
    assert WithStatus(now.table, Pending) == {0} == Elements([0]);
    run, now := ExtendRun(s, run, now, ClaimOk(0, 1, [0]));
  }

  lemma OrderDecided(s: State, outcome: Status, err: bool, cancelled: bool) returns (run: seq<Event>, now: State)
    requires Init(s) && IsWorker(s, 0)
    ensures LeadsTo(s, run, now) && |run| == 5
    ensures forall e :: e in run && e.Return? ==> e == Return(0, outcome, err, cancelled, false)
    ensures now.table == map[0 := Row(Processing, 0, SOME_ORDER)]
    ensures IsWorker(now, 0) && now.workers[0] == Marking([0], Target(outcome, err, cancelled), false)
  {
    run, now := OrderClaimed(s);
    run, now := ExtendRun(s, run, now, CountClaim(0));
    run, now := ExtendRun(s, run, now, Return(0, outcome, err, cancelled, false));
  }

  /** Some answer of the default processor leads to each of its three targets. */
  lemma DefaultAnswer(st: Status) returns (outcome: Status, err: bool, cancelled: bool)
    requires DefaultTarget(st)
    ensures DefaultReturn(outcome, err, cancelled) && Target(outcome, err, cancelled) == st
  {
    outcome, err, cancelled := st, st == Pending, st == Pending;
  }

  /** The last event of the run takes the row through this transition. */
  ghost predicate TakesThrough(s: State, run: seq<Event>, id: OrderId, tr: Transition) {
    && IsRun(s, run) && run != []
    && LabelOf(After(s, run[..|run| - 1]).table, id) == tr.from
    && LabelOf(After(s, run).table, id) == tr.to
  }

  lemma TakenThrough(s: State, front: seq<Event>, before: State, e: Event, id: OrderId, tr: Transition)
      returns (run: seq<Event>)
    requires LeadsTo(s, front, before) && Enabled(before, e)
    requires LabelOf(before.table, id) == tr.from && LabelOf(Apply(before, e).table, id) == tr.to
    ensures run == front + [e] && TakesThrough(s, run, id, tr)
  {
    var next;
    run, next := ExtendRun(s, front, before, e);
    assert run[..|run| - 1] == front;
  }

  lemma CreationHappens(s: State) returns (run: seq<Event>)
    requires Init(s) && IsWorker(s, 0)
    ensures TakesThrough(s, run, 0, CREATED) && forall e :: e in run ==> UsesDefault(e)
  {
    var now;
    run, now := ExtendRun(s, [], s, Start(0));
    run := TakenThrough(s, run, now, Insert(0, 0, SOME_ORDER), 0, CREATED);
  }

  lemma ClaimHappens(s: State) returns (run: seq<Event>)
    requires Init(s) && IsWorker(s, 0)
    ensures TakesThrough(s, run, 0, CLAIMED) && forall e :: e in run ==> UsesDefault(e)
  {
    var now;
    run, now := OrderCreated(s);
    assert WithStatus(now.table, Pending) == {0} == Elements([0]);
    run := TakenThrough(s, run, now, ClaimOk(0, 1, [0]), 0, CLAIMED);
  }

  lemma FinishHappens(s: State, st: Status) returns (run: seq<Event>)
    requires Init(s) && IsWorker(s, 0) && DefaultTarget(st)
    ensures TakesThrough(s, run, 0, Finished(st)) && forall e :: e in run ==> UsesDefault(e)
  {
    var outcome, err, cancelled := DefaultAnswer(st);
    var now;
    run, now := OrderDecided(s, outcome, err, cancelled);
    run := TakenThrough(s, run, now, MarkOk(0), 0, Finished(st));
  }

  /** Every listed transition except the cancellation happens in some run with the default processor; the
      cancellation never does, so the changes that rows go through are exactly the other five. */
  lemma ListedTransitionsHappen(s: State, tr: Transition) returns (run: seq<Event>)
    requires Init(s) && IsWorker(s, 0) && tr in ALL_TRANSITIONS && tr != Transition(At(Pending), At(Cancelled))
    ensures TakesThrough(s, run, 0, tr) && forall e :: e in run ==> UsesDefault(e)
  {
    if tr == CREATED {
      run := CreationHappens(s);
    } else if tr == CLAIMED {
      run := ClaimHappens(s);
    } else {
      run := FinishHappens(s, tr.to.status);
    }
  }

  lemma CancellationNeverHappens(s: State, run: seq<Event>, id: OrderId)
    requires Init(s) && IsRun(s, run) && forall e :: e in run ==> UsesDefault(e)
    ensures !TakesThrough(s, run, id, Transition(At(Pending), At(Cancelled)))
  {
    DefaultRuns(s, run);
  }
}
