/** Drop accounting over every concurrent run of countingHandler and SamplingHandler: nothing is lost
    between the attempts, the forwarded records and the drops, and every drop is visible somewhere. */
module SamplerAccounting {
  import opened Collections
  import opened Sampler

  // ---- The decisions, in lock order ----------------------------------------------------

  function Drops(c: Config, rs: seq<Record>): nat {
    if rs == [] then 0
    else
      var front := rs[..|rs| - 1];
      Drops(c, front) + if Step(c, State(c, front), rs[|rs| - 1]).0.Drop? then 1 else 0
  }

  function Carry(d: Decision): nat {
    if d.Emit? then d.carried else 0
  }

  /** The sum of the sampled_dropped attributes. */
  function Carried(c: Config, rs: seq<Record>): nat {
    if rs == [] then 0
    else
      var front := rs[..|rs| - 1];
      Carried(c, front) + Carry(Step(c, State(c, front), rs[|rs| - 1]).0)
  }

  function DropCounts(m: Buckets): map<string, nat> {
    map k | k in m :: m[k].dropped
  }

  /** The drops still waiting in the buckets to be carried. */
  ghost function Held(m: Buckets): nat {
    Sum(DropCounts(m))
  }

  lemma HeldUpdate(m: Buckets, k: string, b: Bucket)
    ensures Held(m[k := b]) == Held(m) - (if k in m then m[k].dropped else 0) + b.dropped
  {
    SumUpdate(DropCounts(m), k, b.dropped);
    assert DropCounts(m[k := b]) == DropCounts(m)[k := b.dropped];
  }

  /** The drop counts that the reset in front of record r throws away. */
  ghost function ResetLoss(m: Buckets, r: Record): nat {
    if !r.warn && |m| > MAX_SAMPLE_KEYS then Held(m) else 0
  }

  ghost function Discarded(c: Config, rs: seq<Record>): nat {
    if rs == [] then 0
    else
      var front := rs[..|rs| - 1];
      Discarded(c, front) + ResetLoss(State(c, front), rs[|rs| - 1])
  }

  lemma StepBalances(c: Config, m: Buckets, r: Record)
    ensures var (d, m') := Step(c, m, r);
      Held(m) + (if d.Drop? then 1 else 0) == Held(m') + Carry(d) + ResetLoss(m, r)
    ensures r.warn ==> Step(c, m, r).0 == Emit(0)
  {
    if !r.warn {
      var kept := Bounded(m);
      var b := Decide(c, Fetch(kept, r.message, r.time), r.time).1;
      HeldUpdate(kept, r.message, b);
      assert Held(m) == Held(kept) + ResetLoss(m, r) by {
        assert DropCounts(map[]) == map[];
      }
    }
  }

  /** Every drop is carried on an emitted record, waits in a bucket, or went with a map reset. */
  lemma {:induction false} DropsAreAccountedFor(c: Config, rs: seq<Record>)
    ensures Drops(c, rs) == Carried(c, rs) + Held(State(c, rs)) + Discarded(c, rs)
  {
    if rs == [] {
      assert DropCounts(State(c, rs)) == map[];
    } else {
      var front := rs[..|rs| - 1];
      DropsAreAccountedFor(c, front);
      StepBalances(c, State(c, front), rs[|rs| - 1]);
    }
  }

  // ---- Concurrent calls -------------------------------------------------------------------

  /** The two counters of the Recorder, the inner handler's calls, and the calls under way. */
  datatype Log = Log(
    attempted: nat,     // LogRecord
    forwarded: nat,     // inner Handle calls
    reported: nat,      // LogRecordDropped
    undecided: nat,     // calls counted and not yet through the lock
    toForward: nat,     // calls that decided to emit
    toReport: nat,      // calls that decided to drop and left the lock
    decided: seq<Record>) // the records, in the order of the critical sections

  datatype Act = Attempt | Lock(r: Record) | Forward | Report

  predicate Ready(l: Log, a: Act) {
    match a
    case Attempt => true
    case Lock(_) => l.undecided > 0
    case Forward => l.toForward > 0
    case Report => l.toReport > 0
  }

  function Perform(c: Config, l: Log, a: Act): Log
    requires Ready(l, a)
  {
    match a
    case Attempt => l.(attempted := l.attempted + 1, undecided := l.undecided + 1)
    case Lock(r) =>
      var next := l.(undecided := l.undecided - 1, decided := l.decided + [r]);
      if Step(c, State(c, l.decided), r).0.Drop? then next.(toReport := l.toReport + 1)
      else next.(toForward := l.toForward + 1)
    case Forward => l.(toForward := l.toForward - 1, forwarded := l.forwarded + 1)
    case Report => l.(toReport := l.toReport - 1, reported := l.reported + 1)
  }

  const EMPTY := Log(0, 0, 0, 0, 0, 0, [])

  predicate IsHistory(c: Config, acts: seq<Act>)
    decreases |acts|, 0
  {
    acts == [] ||
    (var front := acts[..|acts| - 1];
     IsHistory(c, front) && Ready(Outcome(c, front), acts[|acts| - 1]))
  }

  function Outcome(c: Config, acts: seq<Act>): Log
    requires IsHistory(c, acts)
    decreases |acts|, 1
  {
    if acts == [] then EMPTY
    else Perform(c, Outcome(c, acts[..|acts| - 1]), acts[|acts| - 1])
  }

  ghost predicate Balanced(c: Config, l: Log) {
    && l.attempted == |l.decided| + l.undecided
    && l.forwarded + l.toForward + Drops(c, l.decided) == |l.decided|
    && l.reported + l.toReport == Drops(c, l.decided)
  }

  lemma StepKeepsBalance(c: Config, l: Log, a: Act)
    requires Balanced(c, l) && Ready(l, a)
    ensures Balanced(c, Perform(c, l, a))
  {
    if a.Lock? {
      assert (l.decided + [a.r])[..|l.decided|] == l.decided;
    }
  }

  /** In every interleaving: attempts are forwarded, dropped or under way; the drop counter lags only
      by the decisions not yet reported; and every drop is carried, held or discarded by a reset. */
  lemma {:induction false} AccountsBalance(c: Config, acts: seq<Act>)
    requires IsHistory(c, acts)
    ensures var l := Outcome(c, acts);
      && Balanced(c, l)
      && l.attempted == l.forwarded + l.reported + l.undecided + l.toForward + l.toReport
      && l.reported + l.toReport
         == Carried(c, l.decided) + Held(State(c, l.decided)) + Discarded(c, l.decided)
    decreases |acts|
  {
    if acts != [] {
      var front, a := acts[..|acts| - 1], acts[|acts| - 1];
      AccountsBalance(c, front);
      StepKeepsBalance(c, Outcome(c, front), a);
    }
    DropsAreAccountedFor(c, Outcome(c, acts).decided);
  }

  /** Once no call is under way, attempts equal forwarded plus reported drops. */
  lemma QuietAccounts(c: Config, acts: seq<Act>)
    requires IsHistory(c, acts)
    requires var l := Outcome(c, acts); l.undecided == l.toForward == l.toReport == 0
    ensures var l := Outcome(c, acts);
      l.attempted == l.forwarded + l.reported && l.reported == Drops(c, l.decided)
  {
    AccountsBalance(c, acts);
  }

  // ---- Records at WARN and above -----------------------------------------------------------

  function BelowWarn(rs: seq<Record>): seq<Record> {
    if rs == [] then []
    else BelowWarn(rs[..|rs| - 1]) + if rs[|rs| - 1].warn then [] else [rs[|rs| - 1]]
  }

  /** What was decided on the records below WARN. */
  function OnBelowWarn(rs: seq<Record>, ds: seq<Decision>): seq<Decision>
    requires |ds| == |rs|
  {
    if rs == [] then []
    else OnBelowWarn(rs[..|rs| - 1], ds[..|rs| - 1]) + if rs[|rs| - 1].warn then [] else [ds[|rs| - 1]]
  }

  lemma OneMore(c: Config, rs: seq<Record>, r: Record)
    ensures var (d, m) := Step(c, State(c, rs), r);
      && State(c, rs + [r]) == m && Decisions(c, rs + [r]) == Decisions(c, rs) + [d]
      && Drops(c, rs + [r]) == Drops(c, rs) + (if d.Drop? then 1 else 0)
      && Carried(c, rs + [r]) == Carried(c, rs) + Carry(d)
  {
    assert (rs + [r])[..|rs|] == rs;
  }

  lemma OneMoreBelowWarn(rs: seq<Record>, ds: seq<Decision>, r: Record, d: Decision)
    requires |ds| == |rs|
    ensures BelowWarn(rs + [r]) == BelowWarn(rs) + if r.warn then [] else [r]
    ensures OnBelowWarn(rs + [r], ds + [d]) == OnBelowWarn(rs, ds) + if r.warn then [] else [d]
  {
    assert (rs + [r])[..|rs|] == rs && (ds + [d])[..|rs|] == ds;
  }

  /** No record below WARN can tell that the others were there. */
  ghost predicate Unnoticed(c: Config, rs: seq<Record>) {
    var rest := BelowWarn(rs);
    && OnBelowWarn(rs, Decisions(c, rs)) == Decisions(c, rest)
    && State(c, rs) == State(c, rest)
    && Drops(c, rs) == Drops(c, rest) && Carried(c, rs) == Carried(c, rest)
  }

  lemma WarningStep(c: Config, rs: seq<Record>, r: Record)
    requires Unnoticed(c, rs) && r.warn
    ensures Unnoticed(c, rs + [r])
  {
    OneMore(c, rs, r);
    OneMoreBelowWarn(rs, Decisions(c, rs), r, Emit(0));
    assert BelowWarn(rs + [r]) == BelowWarn(rs);
  }

  lemma OtherStep(c: Config, rs: seq<Record>, r: Record)
    requires Unnoticed(c, rs) && !r.warn
    ensures Unnoticed(c, rs + [r])
  {
    var d := Step(c, State(c, rs), r).0;
    OneMore(c, rs, r);
    OneMoreBelowWarn(rs, Decisions(c, rs), r, d);
    OneMore(c, BelowWarn(rs), r);
  }

  /** Warnings and errors are all emitted, and the rest gets the decisions, the buckets and the drop
      counts of a log without them. */
  lemma {:induction false} WarningsAreInvisible(c: Config, rs: seq<Record>)
    ensures forall k :: 0 <= k < |rs| && rs[k].warn ==> Decisions(c, rs)[k] == Emit(0)
    ensures Unnoticed(c, rs)
  {
    if rs != [] {
      var front, r := rs[..|rs| - 1], rs[|rs| - 1];
      WarningsAreInvisible(c, front);
      if r.warn {
        WarningStep(c, front, r);
      } else {
        OtherStep(c, front, r);
      }
      assert rs == front + [r];
    }
  }
}
