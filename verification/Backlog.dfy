/** The backlog refresher: level gauges cached from two queries, over any run of successful, failed
    and panicking refreshes. */
module Backlog {
  import opened Domain
  import opened OrderQueue

  const ALL_STATUSES: seq<Status> := [Pending, Processing, Paid, Failed, Cancelled]

  /** CountOrdersByStatus: GROUP BY has no row for a status without orders. */
  function CountByStatus(t: Table): map<Status, nat> {
    map st | st in ALL_STATUSES && Level(t, st) > 0 :: Level(t, st)
  }

  /** What a store call does. */
  datatype Reply<T> = Got(value: T) | Fails | Breaks

  datatype Gauges = Gauges(
    backlog: map<Status, nat>,
    oldest: int,
    refreshedAt: int,
    errors: nat,      // backlog_refresh_errors_total
    panics: nat)      // worker_panics_total{stage="backlog_refresh"}

  /** One refresh: the table its count query sees, the age its second query returns, the clock. */
  datatype Refresh = Refresh(counts: Reply<Table>, oldest: Reply<int>, now: int)

  predicate Succeeds(r: Refresh) {
    r.counts.Got? && r.oldest.Got?
  }

  predicate Panics(r: Refresh) {
    r.counts.Breaks? || (r.counts.Got? && r.oldest.Breaks?)
  }

  /** Every known status set to its level, absent ones to zero. */
  function Levels(t: Table): map<Status, nat> {
    map st | st in ALL_STATUSES :: Level(t, st)
  }

  function Step(g: Gauges, r: Refresh): Gauges {
    if Succeeds(r) then g.(backlog := Levels(r.counts.value), oldest := r.oldest.value, refreshedAt := r.now)
    else if Panics(r) then g.(panics := g.panics + 1)
    else g.(errors := g.errors + 1)
  }

  function After(g: Gauges, rs: seq<Refresh>): Gauges {
    if rs == [] then g else Step(After(g, rs[..|rs| - 1]), rs[|rs| - 1])
  }

  // ---- The code -----------------------------------------------------------------------------

  class Business {
    var g: Gauges

    constructor (g: Gauges)
      ensures this.g == g
    {
      this.g := g;
    }

    /** SetBacklog: the loop over the known statuses, with zero for those the map lacks. */
    method SetBacklog(counts: map<Status, nat>, oldest: int, now: int, ghost t: Table)
      requires counts == CountByStatus(t)
      requires g.backlog.Keys <= (set st | st in ALL_STATUSES)
      modifies this
      ensures g == old(g).(backlog := Levels(t), oldest := oldest, refreshedAt := now)
    {
      for i := 0 to |ALL_STATUSES|
        invariant g == old(g).(backlog := g.backlog)
        invariant g.backlog.Keys <= (set st | st in ALL_STATUSES)
        invariant forall j :: 0 <= j < i ==>
          ALL_STATUSES[j] in g.backlog && g.backlog[ALL_STATUSES[j]] == Level(t, ALL_STATUSES[j])
      {
        var st := ALL_STATUSES[i];
        g := g.(backlog := g.backlog[st := if st in counts then counts[st] else 0]);
      }
      assert g.backlog == Levels(t);
      g := g.(oldest := oldest, refreshedAt := now);
    }

    /** refresh, with its deferred recovery. */
    method DoRefresh(r: Refresh)
      requires g.backlog.Keys <= (set st | st in ALL_STATUSES)
      modifies this
      ensures g == Step(old(g), r)
      ensures g.backlog.Keys <= (set st | st in ALL_STATUSES)
    {
      if r.counts.Breaks? {
        g := g.(panics := g.panics + 1);
        return;
      }
      if r.counts.Fails? {
        g := g.(errors := g.errors + 1);
        return;
      }
      var counts := CountByStatus(r.counts.value);
      if r.oldest.Breaks? {
        g := g.(panics := g.panics + 1);
        return;
      }
      if r.oldest.Fails? {
        g := g.(errors := g.errors + 1);
        return;
      }
      SetBacklog(counts, r.oldest.value, r.now, r.counts.value);
    }
  }

  // ---- Whole runs ------------------------------------------------------------------------------

  function CountIf(rs: seq<Refresh>, p: Refresh -> bool): nat {
    if rs == [] then 0 else CountIf(rs[..|rs| - 1], p) + if p(rs[|rs| - 1]) then 1 else 0
  }

  /** One of the two queries returned an error, and neither panicked before it. */
  predicate FailsQuietly(r: Refresh) {
    r.counts.Fails? || (r.counts.Got? && r.oldest.Fails?)
  }

  /** Each refresh publishes, counts a failure or counts a panic, and exactly one of these. */
  lemma {:induction false} RefreshesAreCounted(g: Gauges, rs: seq<Refresh>)
    ensures After(g, rs).errors == g.errors + CountIf(rs, FailsQuietly)
    ensures After(g, rs).panics == g.panics + CountIf(rs, Panics)
    ensures CountIf(rs, Succeeds) + CountIf(rs, FailsQuietly) + CountIf(rs, Panics) == |rs|
  {
    if rs != [] {
      RefreshesAreCounted(g, rs[..|rs| - 1]);
    }
  }

  /** The gauges are those of the last successful refresh: counts, age and time stamp move together. */
  lemma {:induction false} GaugesShowLastSuccess(g: Gauges, rs: seq<Refresh>, k: nat)
    requires k < |rs| && Succeeds(rs[k])
    requires forall j :: k < j < |rs| ==> !Succeeds(rs[j])
    ensures var h := After(g, rs);
      && h.backlog == Levels(rs[k].counts.value)
      && h.oldest == rs[k].oldest.value && h.refreshedAt == rs[k].now
  {
    if k < |rs| - 1 {
      GaugesShowLastSuccess(g, rs[..|rs| - 1], k);
    }
  }

  /** Without a success nothing is published. */
  lemma {:induction false} NothingPublished(g: Gauges, rs: seq<Refresh>)
    requires forall r :: r in rs ==> !Succeeds(r)
    ensures var h := After(g, rs);
      h.backlog == g.backlog && h.oldest == g.oldest && h.refreshedAt == g.refreshedAt
  {
    if rs != [] {
      assert rs[|rs| - 1] in rs;
      NothingPublished(g, rs[..|rs| - 1]);
    }
  }

  /** The published counts add up to the table that the count query saw. */
  lemma PublishedCountsSum(t: Table)
    ensures forall st: Status :: st in Levels(t)
    ensures Levels(t)[Pending] + Levels(t)[Processing] + Levels(t)[Paid] + Levels(t)[Failed]
            + Levels(t)[Cancelled] == |t|
  {
    EveryStatusPublished(t);
    LevelsPartition(t);
  }

  lemma EveryStatusPublished(t: Table)
    ensures forall st: Status :: st in Levels(t) && Levels(t)[st] == Level(t, st)
  {
    assert ALL_STATUSES[0] == Pending && ALL_STATUSES[1] == Processing && ALL_STATUSES[2] == Paid;
    assert ALL_STATUSES[3] == Failed && ALL_STATUSES[4] == Cancelled;
    forall st: Status ensures st in ALL_STATUSES {
      StatusIsListed(st);
    }
  }

  lemma LevelsPartition(t: Table)
    ensures Level(t, Pending) + Level(t, Processing) + Level(t, Paid) + Level(t, Failed)
            + Level(t, Cancelled) == |t|
  {
    var a, b, c := WithStatus(t, Pending), WithStatus(t, Processing), WithStatus(t, Paid);
    var d, e := WithStatus(t, Failed), WithStatus(t, Cancelled);
    forall id | id in t
      ensures id in a + b + c + d + e
    {
      StatusIsListed(t[id].status);
    }
    assert t.Keys == a + b + c + d + e;
    FiveParts(a, b, c, d, e);
    assert |t| == |t.Keys|;
  }

  lemma StatusIsListed(st: Status)
    ensures st == Pending || st == Processing || st == Paid || st == Failed || st == Cancelled
  {
  }

  lemma FiveParts(a: set<OrderId>, b: set<OrderId>, c: set<OrderId>, d: set<OrderId>, e: set<OrderId>)
    requires a !! b !! c !! d !! e
    ensures |a + b + c + d + e| == |a| + |b| + |c| + |d| + |e|
  {
    var ab := a + b;
    var abc := ab + c;
    var abcd := abc + d;
    assert |abcd + e| == |abcd| + |e|;
  }
}
