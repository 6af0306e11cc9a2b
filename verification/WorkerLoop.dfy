/** runOnce and processOne as the code runs them, one statement at a time, with every other worker,
    creator and late statement free to act between any two statements. The methods perform exactly
    the steps of the queue protocol, so every result about runs of the protocol is about this code. */
module WorkerLoop {
  import opened Collections
  import opened Domain
  import opened OrderQueue
  import opened QueueOwnership
  import opened WorkerTicks

  function Own(run: seq<Event>, w: WorkerId): seq<Event> {
    if run == [] then []
    else Own(run[..|run| - 1], w) + if Mine(run[|run| - 1], w) then [run[|run| - 1]] else []
  }

  // ---- The database as one worker sees it ------------------------------------------------

  /** The oldest of a nonempty set of rows. */
  lemma {:induction false} OldestExists(t: Table, ids: set<OrderId>) returns (x: OrderId)
    requires ids != {} && ids <= t.Keys
    ensures x in ids && forall y :: y in ids ==> t[x].createdAt <= t[y].createdAt
    decreases |ids|
  {
    x :| x in ids;
    if ids != {x} {
      var rest := ids - {x};
      assert ids == rest + {x};
      var y := OldestExists(t, rest);
      if t[y].createdAt < t[x].createdAt {
        x := y;
      }
    }
  }

  /** ids is a correct answer to the subquery with LIMIT |ids|, and rest is what it leaves. */
  ghost predicate IsOldest(t: Table, ids: seq<OrderId>, rest: set<OrderId>) {
    && NoRepeats(ids) && Elements(ids) <= WithStatus(t, Pending)
    && rest == WithStatus(t, Pending) - Elements(ids)
    && forall x, y :: x in Elements(ids) && y in rest ==> t[x].createdAt <= t[y].createdAt
  }

  lemma OldestNext(t: Table, ids: seq<OrderId>, rest: set<OrderId>, x: OrderId)
    requires IsOldest(t, ids, rest)
    requires x in rest && forall y :: y in rest ==> t[x].createdAt <= t[y].createdAt
    ensures IsOldest(t, ids + [x], rest - {x})
  {
    assert x !in Elements(ids);
    assert Elements(ids + [x]) == Elements(ids) + {x};
  }

  lemma OldestIsClaim(t: Table, ids: seq<OrderId>, rest: set<OrderId>, limit: nat)
    requires IsOldest(t, ids, rest) && |ids| <= limit && (|ids| == limit || rest == {})
    ensures IsClaim(t, limit, ids)
  {
    NoRepeatsSize(ids);
    assert WithStatus(t, Pending) == Elements(ids) + rest;
  }

  /** qClaimPending's subquery: ORDER BY created_at LIMIT. */
  method SelectOldest(t: Table, limit: nat) returns (ids: seq<OrderId>)
    ensures IsClaim(t, limit, ids)
  {
    ids := [];
    var rest := WithStatus(t, Pending);
    while |ids| < limit && rest != {}
      invariant |ids| <= limit && IsOldest(t, ids, rest)
      decreases rest
    {
      ghost var oldest := OldestExists(t, rest);
      var x :| x in rest && forall y :: y in rest ==> t[x].createdAt <= t[y].createdAt;
      OldestNext(t, ids, rest, x);
      ids, rest := ids + [x], rest - {x};
    }
    OldestIsClaim(t, ids, rest, limit);
  }

  datatype ClaimReply = Claimed(ids: seq<OrderId>) | ClaimError | ClaimPanic

  /** What the caller of the claim sees. */
  function ReplyOf(fate: ClaimFate, ids: seq<OrderId>): ClaimReply {
    match fate
    case Replies => Claimed(ids)
    case Fails(_) => ClaimError
    case Breaks(_) => ClaimPanic
  }

  datatype MarkReply = Done | Conflict | DbError | MarkPanic

  class Replica {
    const w: WorkerId
    ghost const start: State
    var st: State
    ghost var run: seq<Event>
    ghost var mine: seq<Event>
    var beats: nat

    ghost predicate Valid()
      reads this
    {
      && Init(start) && IsRun(start, run) && st == After(start, run)
      && IsWorker(st, w) && mine == Own(run, w)
    }

    constructor (w: WorkerId, start: State)
      requires Init(start) && IsWorker(start, w)
      ensures Valid() && run == [] && st == start && this.w == w && beats == 0
    {
      this.w, this.start, this.st := w, start, start;
      run, mine := [], [];
      beats := 0;
    }

    ghost predicate At(p: Phase)
      reads this
    {
      Valid() && st.workers[w] == p
    }

    /** One atomic step of anybody. */
    method Do(e: Event)
      requires Valid() && Enabled(st, e)
      modifies this`st, this`run, this`mine
      ensures Valid() && st == Apply(old(st), e) && run == old(run) + [e]
      ensures mine == old(mine) + if Mine(e, w) then [e] else []
    {
      st := Apply(st, e);
      run := run + [e];
      mine := mine + if Mine(e, w) then [e] else [];
      assert run[..|run| - 1] == old(run);
    }

    /** Any steps of the others, in any number. */
    method Others()
      requires Valid()
      modifies this`st, this`run, this`mine
      ensures Valid() && old(run) <= run && mine == old(mine)
      ensures st.workers[w] == old(st.workers[w])
    {
      var script: seq<Event> := *;
      for i := 0 to |script|
        invariant Valid() && old(run) <= run && mine == old(mine)
        invariant st.workers[w] == old(st.workers[w])
      {
        if Enabled(st, script[i]) && !Mine(script[i], w) {
          Do(script[i]);
        }
      }
    }

    /** qClaimPending, whose reply arrives or not. */
    method CommitClaim(limit: nat, heard: bool) returns (ids: seq<OrderId>)
      requires At(Idle) && limit > 0
      modifies this`st, this`run, this`mine
      ensures Valid() && old(run) <= run
      ensures st.workers[w] == if heard && ids != [] then Counting(ids, 0) else Idle
      ensures mine == old(mine) + [if heard then ClaimOk(w, limit, ids) else ClaimLost(w, limit, ids)]
    {
      ids := SelectOldest(st.table, limit);
      if heard {
        Do(ClaimOk(w, limit, ids));
      } else {
        Do(ClaimLost(w, limit, ids));
      }
    }

    /** ClaimPendingOrders. An error reply says nothing about whether the claim committed. */
    method ClaimPendingOrders(limit: nat, fate: ClaimFate) returns (reply: ClaimReply, ghost ids: seq<OrderId>)
      requires At(Idle) && limit > 0
      modifies this`st, this`run, this`mine
      ensures Valid() && old(run) <= run
      ensures reply == ReplyOf(fate, ids) && mine == old(mine) + ClaimTrace(w, limit, fate, ids)
      ensures st.workers[w] == if fate.Replies? && ids != [] then Counting(ids, 0) else Idle
    {
      Others();
      if fate.Replies? {
        var oldest := CommitClaim(limit, true);
        ids, reply := oldest, Claimed(oldest);
      } else {
        ids := [];
        if fate.committed {
          var oldest := CommitClaim(limit, false);
          ids := oldest;
        }
        reply := if fate.Fails? then ClaimError else ClaimPanic;
      }
      Others();
    }

    /** MarkOrder. The row is always found in `processing`, so ErrConflict is never returned. */
    method MarkOrder(ghost todo: seq<OrderId>, id: OrderId, target: Status, expired: bool, fate: MarkFate)
        returns (reply: MarkReply, ghost e: Event)
      requires todo != [] && todo[0] == id && At(Marking(todo, target, expired))
      modifies this`st, this`run, this`mine
      ensures Valid() && old(run) <= run && mine == old(mine) + [e]
      ensures reply == if fate.Explodes? then MarkPanic else if fate.Answers? && !expired then Done else DbError
      ensures e == match fate
                   case Explodes => OrderPanic(w)
                   case Answers => if expired then MarkFailed(w) else MarkOk(w)
                   case RunsUnheard => if expired then MarkFailed(w) else MarkLost(w)
                   case RunsLater => if expired then MarkFailed(w) else MarkDeferred(w)
                   case NeverRuns => MarkFailed(w)
      ensures st.workers[w] == if reply == Done then Reporting(todo[1..], target) else Working(todo[1..])
    {
      Others();
      RunsAreExclusive(start, run);
      assert Owns(st, w, id);
      var step: Event;
      // a call on an expired context fails before it sends anything
      if fate.Explodes? {
        step, reply := OrderPanic(w), MarkPanic;
      } else if expired || fate.NeverRuns? {
        step, reply := MarkFailed(w), DbError;
      } else if fate.RunsUnheard? {
        step, reply := MarkLost(w), DbError;
      } else if fate.RunsLater? {
        step, reply := MarkDeferred(w), DbError;
      } else if MarkHits(st.table, id) {
        step, reply := MarkOk(w), Done;
      } else {
        step, reply := MarkConflict(w), Conflict;
      }
      e := step;
      Do(step);
      Others();
    }

    /** The guard of processOne: one order is given up and the batch goes on. */
    method GuardOrder(ghost todo: seq<OrderId>)
      requires At(Working(todo)) || (exists st' :: At(Reporting(todo, st')))
      requires At(Working(todo)) ==> todo != []
      modifies this`st, this`run, this`mine
      ensures old(st.workers[w]).Working? ==> At(Working(todo[1..]))
      ensures old(st.workers[w]).Reporting? ==> At(Working(todo))
      ensures old(run) <= run && mine == old(mine) + [OrderPanic(w)]
    {
      Do(OrderPanic(w));
    }

    /** The Transition call after a mark that replied, or a panic in its place. */
    method ReportMark(ghost todo: seq<OrderId>, target: Status, panics: bool)
      requires At(Reporting(todo, target))
      modifies this`st, this`run, this`mine
      ensures At(Working(todo)) && old(run) <= run
      ensures mine == old(mine) + [if panics then OrderPanic(w) else CountMark(w)]
    {
      if panics {
        GuardOrder(todo);
      } else {
        Do(CountMark(w));
        Others();
      }
    }

    /** The end of processOne: MarkOrder and, after a reply, the Transition call. */
    method Finish(ghost todo: seq<OrderId>, id: OrderId, target: Status, f: OrderFate)
      requires todo != [] && todo[0] == id && At(Marking(todo, target, f.expired))
      modifies this`st, this`run, this`mine
      ensures At(Working(todo[1..])) && old(run) <= run && mine == old(mine) + MarkTrace(w, f)
    {
      var reply, e := MarkOrder(todo, id, target, f.expired, f.mark);
      if reply == Done {
        ReportMark(todo[1..], target, f.reportPanics);
      }
    }

    /** The processor's answer, with the write deadline already running. */
    method Process(ghost todo: seq<OrderId>, f: OrderFate)
      requires todo != [] && At(Working(todo))
      modifies this`st, this`run, this`mine
      ensures At(Marking(todo, Target(f.outcome, f.err, f.cancelled), f.expired)) && old(run) <= run
      ensures mine == old(mine) + [Return(w, f.outcome, f.err, f.cancelled, f.expired)]
    {
      Do(Return(w, f.outcome, f.err, f.cancelled, f.expired));
    }

    /** processOne on the first order left of the batch. */
    method ProcessOne(ghost todo: seq<OrderId>, id: OrderId, f: OrderFate)
      requires todo != [] && todo[0] == id && At(Working(todo))
      modifies this`st, this`run, this`mine
      ensures At(Working(todo[1..])) && old(run) <= run && mine == old(mine) + OrderTrace(w, f)
    {
      Others();
      if f.panics {
        GuardOrder(todo);
        return;
      }
      Process(todo, f);
      var target := f.outcome;
      if f.err && f.cancelled {
        // shutdown interrupted the attempt: release the order
        target := Pending;
      } else if f.err {
        target := Failed;
      }
      Finish(todo, id, target, f);
    }

    /** The guard of runOnce. */
    method GuardBatch()
      requires Valid() && InBatch(st.workers[w])
      modifies this`st, this`run, this`mine
      ensures At(Idle) && old(run) <= run && mine == old(mine) + [BatchPanic(w)]
    {
      Do(BatchPanic(w));
    }

    /** One Transition call of the first loop. */
    method CountOne(orders: seq<OrderId>, i: nat)
      requires i < |orders| && At(Counting(orders, i))
      modifies this`st, this`run, this`mine
      ensures At(if i + 1 == |orders| then Working(orders) else Counting(orders, i + 1))
      ensures old(run) <= run && mine == old(mine) + [CountClaim(w)]
    {
      Do(CountClaim(w));
      Others();
    }

    /** The first loop of runOnce: one Transition call per claimed order. */
    method CountBatch(orders: seq<OrderId>, fate: BatchFate) returns (ok: bool)
      requires orders != [] && At(Counting(orders, 0))
      modifies this`st, this`run, this`mine
      ensures old(run) <= run && mine == old(mine) + CountTrace(w, fate, |orders|)
      ensures ok == !StopsCounting(fate, |orders|) && At(if ok then Working(orders) else Idle)
    {
      for i := 0 to |orders|
        invariant At(if i == |orders| then Working(orders) else Counting(orders, i))
        invariant fate.PanicsCounting? ==> i <= fate.n || |orders| <= fate.n
        invariant old(run) <= run && mine == old(mine) + Repeat(CountClaim(w), i)
      {
        if fate == PanicsCounting(i) {
          GuardBatch();
          return false;
        }
        CountOne(orders, i);
        assert Repeat(CountClaim(w), i + 1) == Repeat(CountClaim(w), i) + [CountClaim(w)];
      }
      ok := true;
    }

    method ProcessNth(orders: seq<OrderId>, fates: seq<OrderFate>, i: nat, ghost before: seq<Event>)
      requires i < |orders| && At(Working(orders[i..])) && mine == before + OrdersTrace(w, fates, i)
      modifies this`st, this`run, this`mine
      ensures At(Working(orders[i + 1..])) && old(run) <= run && mine == before + OrdersTrace(w, fates, i + 1)
    {
      assert orders[i..][1..] == orders[i + 1..];
      ProcessOne(orders[i..], orders[i], FateOf(fates, i));
      OneMoreOrder(before, w, fates, i);
    }

    /** The second loop of runOnce: processOne on each order of the batch, up to the end or to a panic
        outside its guard. */
    method ProcessBatch(orders: seq<OrderId>, fates: seq<OrderFate>, n: nat)
      requires At(Working(orders)) && n <= |orders|
      modifies this`st, this`run, this`mine
      ensures At(Working(orders[n..])) && old(run) <= run && mine == old(mine) + OrdersTrace(w, fates, n)
    {
      for i := 0 to n
        invariant At(Working(orders[i..]))
        invariant old(run) <= run && mine == old(mine) + OrdersTrace(w, fates, i)
      {
        ProcessNth(orders, fates, i, old(mine));
      }
    }

    method RecordRun()
      requires At(Working([]))
      modifies this`st, this`run, this`mine, this`beats
      ensures At(Idle) && old(run) <= run && mine == old(mine) + [FinishBatch(w)] && beats == old(beats) + 1
    {
      Do(FinishBatch(w));
      beats := beats + 1;
    }

    /** The second loop and the recorded run after it. */
    method WorkBatch(orders: seq<OrderId>, fate: BatchFate, fates: seq<OrderFate>) returns (ok: bool)
      requires At(Working(orders))
      modifies this`st, this`run, this`mine, this`beats
      ensures At(Idle) && old(run) <= run && mine == old(mine) + WorkTrace(w, fate, fates, |orders|)
      ensures ok == !StopsWorking(fate, |orders|) && beats == old(beats) + if ok then 1 else 0
    {
      ok := !StopsWorking(fate, |orders|);
      if ok {
        ProcessBatch(orders, fates, |orders|);
        RecordRun();
      } else {
        ProcessBatch(orders, fates, fate.n);
        GuardBatch();
      }
    }

    /** The rest of runOnce, once the claim has returned orders. */
    method RunBatch(orders: seq<OrderId>, env: Env) returns (t: Tick)
      requires orders != [] && At(Counting(orders, 0)) && env.claim.Replies?
      modifies this`st, this`run, this`mine, this`beats
      ensures At(Idle) && old(run) <= run && mine == old(mine) + BatchTrace(w, env, |orders|)
      ensures t == TickOf(env, orders) && beats == old(beats) + if t.Beat? then 1 else 0
    {
      var ok := CountBatch(orders, env.batch);
      if ok {
        ok := WorkBatch(orders, env.batch, env.orders);
      }
      t := if ok then Beat(Ok, |orders|) else Panicked;
    }

    /** The body of runOnce, after the claim. */
    method HandleClaim(reply: ClaimReply, env: Env, ghost ids: seq<OrderId>) returns (t: Tick)
      requires Valid() && reply == ReplyOf(env.claim, ids)
      requires st.workers[w] == if env.claim.Replies? && ids != [] then Counting(ids, 0) else Idle
      modifies this`st, this`run, this`mine, this`beats
      ensures At(Idle) && old(run) <= run
      ensures mine == old(mine) + if env.claim.Replies? && ids != [] then BatchTrace(w, env, |ids|) else []
      ensures t == TickOf(env, ids) && beats == old(beats) + if t.Beat? then 1 else 0
    {
      match reply {
        case ClaimPanic =>
          t := Panicked;
        case ClaimError =>
          if env.cancelled {
            t := Silent;
          } else {
            beats := beats + 1;
            t := Beat(Error, 0);
          }
        case Claimed(orders) =>
          if |orders| == 0 {
            beats := beats + 1;
            t := Beat(Empty, 0);
          } else {
            t := RunBatch(orders, env);
          }
      }
    }

    /** runOnce: one tick, from the claim to the recorded run. */
    method RunOnce(limit: nat, env: Env) returns (t: Tick, ghost ids: seq<OrderId>)
      requires At(Idle) && limit > 0
      modifies this`st, this`run, this`mine, this`beats
      ensures At(Idle) && old(run) <= run && mine == old(mine) + TickTrace(w, limit, env, ids)
      ensures t == TickOf(env, ids)
      ensures t.Silent? <==> env.claim.Fails? && env.cancelled
      ensures t == Beat(Error, 0) <==> env.claim.Fails? && !env.cancelled
      ensures t.Panicked? <==> env.claim.Breaks? || EndsIn(TickTrace(w, limit, env, ids), BatchPanic(w))
      ensures beats == old(beats) + if SkipsBeat(env, TickTrace(w, limit, env, ids), w) then 0 else 1
    {
      var reply, claimed := ClaimPendingOrders(limit, env.claim);
      ids := claimed;
      t := HandleClaim(reply, env, ids);
      TraceOfTick(old(mine), w, limit, env, ids);
      HeartbeatIff(w, limit, env, ids);
    }

    /** A tick without a heartbeat: shutdown cancels a claim that has already committed. */
    method SilentTick(limit: nat, env: Env) returns (ghost ids: seq<OrderId>)
      requires At(Idle) && limit > 0
      modifies this`st, this`run, this`mine, this`beats
      ensures At(Idle) && beats == old(beats) && mine == old(mine) + [ClaimLost(w, limit, ids)]
    {
      var t, claimed := RunOnce(limit, env.(claim := Fails(true), cancelled := true));
      ids := claimed;
    }

    /** The log accounts for the steps and heartbeats of this loop so far. */
    ghost predicate Logged(log: seq<Entry>, limit: nat, before: seq<Event>, beatsBefore: nat)
      reads this
    {
      mine == before + Steps(log, w, limit) && beats == beatsBefore + Beats(log)
    }

    /** The wait for the ticker, and the tick. */
    method OneTick(limit: nat, env: Env) returns (ghost entry: Entry)
      requires At(Idle) && limit > 0
      modifies this`st, this`run, this`mine, this`beats
      ensures At(Idle) && old(run) <= run && entry.env == env
      ensures mine == old(mine) + TickTrace(w, limit, entry.env, entry.ids)
      ensures beats == old(beats) + if TickOf(entry.env, entry.ids).Beat? then 1 else 0
    {
      Others();
      var t, ids := RunOnce(limit, env);
      HeartbeatIff(w, limit, env, ids);
      entry := Entry(env, ids);
    }

    /** The tick, with the log kept. */
    method NextTick(limit: nat, env: Env, ghost log: seq<Entry>, ghost before: seq<Event>, ghost beatsBefore: nat)
        returns (ghost entry: Entry)
      requires At(Idle) && limit > 0 && Logged(log, limit, before, beatsBefore)
      modifies this`st, this`run, this`mine, this`beats
      ensures At(Idle) && old(run) <= run && entry.env == env
      ensures Logged(log + [entry], limit, before, beatsBefore)
    {
      entry := OneTick(limit, env);
      LogAppend(log, entry, w, limit, before);
    }

    /** The loop of Run, one tick per environment. */
    method Ticks(limit: nat, envs: seq<Env>) returns (ghost log: seq<Entry>)
      requires At(Idle) && limit > 0
      modifies this`st, this`run, this`mine, this`beats
      ensures At(Idle) && old(run) <= run && |log| == |envs|
      ensures forall i :: 0 <= i < |log| ==> log[i].env == envs[i]
      ensures Logged(log, limit, old(mine), old(beats))
    {
      log := [];
      for i := 0 to |envs|
        invariant At(Idle) && old(run) <= run && |log| == i
        invariant forall j :: 0 <= j < i ==> log[j].env == envs[j]
        invariant Logged(log, limit, old(mine), old(beats))
      {
        ghost var entry := NextTick(limit, envs[i], log, old(mine), old(beats));
        log := log + [entry];
      }
    }

    method Launch()
      requires At(Down)
      modifies this`st, this`run, this`mine
      ensures At(Idle) && old(run) <= run && mine == old(mine) + [Start(w)]
    {
      Do(Start(w));
    }

    method Leave()
      requires At(Idle)
      modifies this`st, this`run, this`mine
      ensures At(Down) && old(run) <= run && mine == old(mine) + [Exit(w)]
    {
      Others();
      Do(Exit(w));
    }

    /** Run: the ticks, then the exit that select takes once the context is cancelled. It leaves only
        between batches, owning nothing. */
    method Run(limit: nat, envs: seq<Env>) returns (ghost log: seq<Entry>)
      requires At(Down) && limit > 0
      modifies this`st, this`run, this`mine, this`beats
      ensures At(Down) && old(run) <= run && |log| == |envs|
      ensures forall i :: 0 <= i < |log| ==> log[i].env == envs[i]
      ensures mine == old(mine) + [Start(w)] + Steps(log, w, limit) + [Exit(w)]
      ensures beats == old(beats) + Beats(log)
    {
      Launch();
      log := Ticks(limit, envs);
      Leave();
    }
  }
}
