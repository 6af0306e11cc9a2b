/** The tail of main.run around one worker of the queue: start the two loops, serve, cancel, drain
    the API, wait for the loops, stop the metrics server, flush the traces, close the pool. */
module Shutdown {
  import opened Domain
  import opened OrderQueue
  import opened QueueOwnership
  import opened QueueStranding

  /** How far main.run has got. Closed is the deferred st.Close(); Dead is a crash. */
  datatype Main = Booting | Serving | Stopping | ApiDrained | LoopsDone | MetricsDown | Flushed | Closed | Dead

  function Rank(m: Main): nat {
    match m
    case Booting => 0
    case Serving => 1
    case Stopping => 2
    case ApiDrained => 3
    case LoopsDone => 4
    case MetricsDown => 5
    case Flushed => 6
    case Closed => 7
    case Dead => 8
  }

  datatype Loop = NotStarted | Waiting | Refreshing | Returned

  datatype Process = Process(
    q: State,            // the queue, of which this process runs worker w
    w: WorkerId,
    main: Main,
    enabled: bool,       // cfg.WorkerEnabled
    cancelled: bool,     // the root context
    refresher: Loop)

  datatype Action =
      // bg.Add and the two go statements, or neither when the worker is disabled
    | Launch
    | Signal
      // the select returned: a signal or a server error; stop() cancels the context either way
    | Stop
    | Drain
    | Wait
    | StopMetrics
    | Flush
    | Close
      // a step of the queue: this worker's, another replica's, a creator's or the server's
    | Queue(e: Event)
    | Tick
    | Refreshed
    | RefresherReturns

  /** Steps of this worker that main or the loop's select decides on. */
  predicate Lifecycle(e: Event, w: WorkerId) {
    (e.Start? || e.Exit?) && e.w == w
  }

  predicate CanAct(p: Process, a: Action) {
    p.main != Dead &&
    match a
    case Launch => p.main == Booting && (p.enabled ==> Enabled(p.q, Start(p.w)))
    case Signal => true
    case Stop => p.main == Serving
    case Drain => p.main == Stopping
    case Wait =>
      && p.main == ApiDrained
      && (p.enabled ==> IsWorker(p.q, p.w) && p.q.workers[p.w].Down? && p.refresher == Returned)
    case StopMetrics => p.main == LoopsDone
    case Flush => p.main == MetricsDown
    case Close => p.main == Flushed
    case Queue(e) =>
      && Enabled(p.q, e)
      && (Lifecycle(e, p.w) ==> e.Exit? && p.cancelled)
    case Tick => p.refresher == Waiting
    case Refreshed => p.refresher == Refreshing
    case RefresherReturns => p.refresher == Waiting && p.cancelled
  }

  function Act(p: Process, a: Action): Process
    requires CanAct(p, a)
  {
    match a
    case Launch =>
      if p.enabled then p.(main := Serving, q := Apply(p.q, Start(p.w)), refresher := Refreshing)
      else p.(main := Serving)
    case Signal => p.(cancelled := true)
    case Stop => p.(main := Stopping, cancelled := true)
    case Drain => p.(main := ApiDrained)
    case Wait => p.(main := LoopsDone)
    case StopMetrics => p.(main := MetricsDown)
    case Flush => p.(main := Flushed)
    case Close => p.(main := Closed)
    case Queue(e) =>
      p.(q := Apply(p.q, e), main := if e.Crash? && e.w == p.w then Dead else p.main)
    case Tick => p.(refresher := Refreshing)
    case Refreshed => p.(refresher := Waiting)
    case RefresherReturns => p.(refresher := Returned)
  }

  ghost predicate IsLife(p: Process, life: seq<Action>)
    decreases |life|, 0
  {
    life == [] ||
    (var front := life[..|life| - 1];
     IsLife(p, front) && CanAct(Later(p, front), life[|life| - 1]))
  }

  ghost function Later(p: Process, life: seq<Action>): Process
    requires IsLife(p, life)
    decreases |life|, 1
  {
    if life == [] then p else Act(Later(p, life[..|life| - 1]), life[|life| - 1])
  }

  ghost predicate Boot(p: Process) {
    && Init(p.q) && IsWorker(p.q, p.w) && p.main == Booting && p.refresher == NotStarted
  }

  /** The worker touches the database only in these phases. */
  predicate WorkerLive(p: Process) {
    IsWorker(p.q, p.w) && !p.q.workers[p.w].Down?
  }

  predicate RefresherLive(p: Process) {
    p.refresher == Waiting || p.refresher == Refreshing
  }

  /** From the end of bg.Wait on, and before the launch, neither loop exists; from the launch until the
      context is cancelled both run. */
  ghost predicate Ordered(p: Process) {
    && IsWorker(p.q, p.w)
    && (p.main == Booting || !p.enabled || Rank(LoopsDone) <= Rank(p.main) <= Rank(Closed)
        ==> !WorkerLive(p) && !RefresherLive(p))
    && (Rank(Stopping) <= Rank(p.main) <= Rank(Closed) ==> p.cancelled)
    && (p.enabled && p.main != Booting ==> p.refresher != NotStarted)
    && (p.enabled && p.main == Serving && !p.cancelled ==> WorkerLive(p) && RefresherLive(p))
  }

  lemma OrderedStep(p: Process, a: Action)
    requires Ordered(p) && CanAct(p, a)
    ensures Ordered(Act(p, a)) && Act(p, a).w == p.w && Act(p, a).enabled == p.enabled
  {
    if a.Queue? {
      QueueStepKeepsDown(p.q, a.e, p.w);
    }
  }

  /** No step of the queue revives a worker except Start, or ends it except Exit and Crash. */
  lemma QueueStepKeepsDown(q: State, e: Event, w: WorkerId)
    requires Enabled(q, e) && IsWorker(q, w)
    ensures IsWorker(Apply(q, e), w)
    ensures q.workers[w].Down? && !(e.Start? && e.w == w) ==> Apply(q, e).workers[w].Down?
    ensures !q.workers[w].Down? && !((e.Exit? || e.Crash?) && e.w == w) ==> !Apply(q, e).workers[w].Down?
  {
  }

  lemma {:induction false} OrderedLife(p: Process, life: seq<Action>)
    requires Boot(p) && IsLife(p, life)
    ensures Ordered(Later(p, life)) && Later(p, life).w == p.w && Later(p, life).enabled == p.enabled
    decreases |life|
  {
    if life != [] {
      var front := life[..|life| - 1];
      OrderedLife(p, front);
      OrderedStep(Later(p, front), life[|life| - 1]);
    }
  }

  /** The queue steps of a life. */
  function QueueRun(p: Process, life: seq<Action>): seq<Event> {
    if life == [] then []
    else
      var a := life[|life| - 1];
      QueueRun(p, life[..|life| - 1])
      + if a.Queue? then [a.e] else if a.Launch? && p.enabled then [Start(p.w)] else []
  }

  /** Inside a process the queue still only takes steps of the protocol. */
  lemma {:induction false} LifeIsQueueRun(p: Process, life: seq<Action>)
    requires Boot(p) && IsLife(p, life)
    ensures IsRun(p.q, QueueRun(p, life)) && Later(p, life).q == After(p.q, QueueRun(p, life))
    decreases |life|
  {
    if life != [] {
      var front := life[..|life| - 1];
      LifeIsQueueRun(p, front);
      OrderedLife(p, front);
      var qrun, qfront := QueueRun(p, life), QueueRun(p, front);
      assert qrun != qfront ==> qrun[..|qrun| - 1] == qfront;
    }
  }

  /** Once the pool is closed, neither loop runs and no step of this worker is enabled, so no store
      call of the loops meets a closed pool. (Start is main's own step, and ClaimLost also stands
      for a statement that the server finishes after its sender is gone.) */
  lemma PoolOutlivesLoops(p: Process, life: seq<Action>, e: Event)
    requires Boot(p) && IsLife(p, life) && Later(p, life).main == Closed
    requires Mine(e, p.w) && !e.Start? && !e.ClaimLost?
    ensures !WorkerLive(Later(p, life)) && !RefresherLive(Later(p, life))
    ensures !Enabled(Later(p, life).q, e)
  {
    OrderedLife(p, life);
  }

  /** A process whose worker crashed gets no further than the crash. */
  lemma {:induction false} NoOwnCrash(p: Process, life: seq<Action>, e: Event)
    requires Boot(p) && IsLife(p, life) && Later(p, life).main != Dead && e in QueueRun(p, life)
    ensures !(e.Crash? && e.w == p.w)
    decreases |life|
  {
    var front := life[..|life| - 1];
    OrderedLife(p, front);
    if e in QueueRun(p, front) {
      NoOwnCrash(p, front, e);
    }
  }

  lemma CrashIsCrash(s: State, run: seq<Event>, id: OrderId, k: nat, c: Cause)
    requires IsRun(s, run) && ExplainedAt(s, run, id, k, c)
    ensures c == ProcessCrash ==> run[k].Crash?
  {
  }

  /** A process that closed its pool owns no order, and any order stranded by then is explained by the
      causes of the queue. If this worker claimed it last, then a step of this worker stranded it: a
      lost claim, a failed mark or a panic, and not a crash. */
  lemma GracefulShutdown(p: Process, life: seq<Action>, id: OrderId) returns (k: nat, c: Cause)
    requires Boot(p) && IsLife(p, life) && Later(p, life).main == Closed
    ensures IsRun(p.q, QueueRun(p, life))
    ensures !Owns(Later(p, life).q, p.w, id)
    ensures Stranded(Later(p, life).q, id) ==>
      var run := QueueRun(p, life);
      && ExplainedAt(p.q, run, id, k, c)
      && (LastClaimer(run, id) == By(p.w) ==> Mine(run[k], p.w) && c != ProcessCrash)
  {
    k, c := 0, ProcessCrash;
    OrderedLife(p, life);
    LifeIsQueueRun(p, life);
    if Stranded(Later(p, life).q, id) {
      var run := QueueRun(p, life);
      k, c := NoUnexplainedStranding(p.q, run, id);
      StrandedByLastClaimer(p.q, run, id, k, c);
      NoOwnCrash(p, life, run[k]);
      CrashIsCrash(p.q, run, id, k, c);
    }
  }

  // ---- Two shutdowns that strand ---------------------------------------------------------------

  ghost predicate LeadsTo(p: Process, life: seq<Action>, now: Process) {
    IsLife(p, life) && Later(p, life) == now
  }

  lemma Extend(p: Process, life: seq<Action>, now: Process, a: Action)
      returns (full: seq<Action>, next: Process)
    requires LeadsTo(p, life, now) && CanAct(now, a)
    ensures full == life + [a] && next == Act(now, a) && LeadsTo(p, full, next)
  {
    full, next := life + [a], Act(now, a);
    assert full[..|life|] == life;
  }

  lemma ExtendQueue(p: Process, life: seq<Action>, now: Process, e: Event)
      returns (full: seq<Action>, next: Process)
    requires LeadsTo(p, life, now) && now.main != Dead
    requires Enabled(now.q, e) && !Lifecycle(e, now.w) && !e.Crash?
    ensures full == life + [Queue(e)] && next == now.(q := Apply(now.q, e)) && LeadsTo(p, full, next)
  {
    full, next := Extend(p, life, now, Queue(e));
  }

  /** From the signal to the closed pool, with the worker between two ticks. */
  function WindDown(w: WorkerId): seq<Action> {
    [Stop, Drain, Queue(Exit(w)), Refreshed, RefresherReturns, Wait, StopMetrics, Flush, Close]
  }

  lemma ApiDrains(p: Process, life: seq<Action>, now: Process) returns (full: seq<Action>, next: Process)
    requires LeadsTo(p, life, now) && now.main == Serving
    ensures full == life + WindDown(now.w)[..2] && LeadsTo(p, full, next)
    ensures next == now.(main := ApiDrained, cancelled := true)
  {
    full, next := Extend(p, life, now, Stop);
    full, next := Extend(p, full, next, Drain);
  }

  lemma LoopsReturn(p: Process, life: seq<Action>, now: Process) returns (full: seq<Action>, next: Process)
    requires LeadsTo(p, life, now) && now.main == Serving && now.refresher == Refreshing
    requires IsWorker(now.q, now.w) && now.q.workers[now.w] == Idle
    ensures full == life + WindDown(now.w)[..5] && LeadsTo(p, full, next)
    ensures next == now.(main := ApiDrained, cancelled := true, refresher := Returned, q := Move(now.q, now.w, Down))
  {
    full, next := ApiDrains(p, life, now);
    full, next := Extend(p, full, next, Queue(Exit(now.w)));
    full, next := Extend(p, full, next, Refreshed);
    full, next := Extend(p, full, next, RefresherReturns);
  }

  lemma WindsDown(p: Process, life: seq<Action>, now: Process) returns (full: seq<Action>, next: Process)
    requires LeadsTo(p, life, now) && now.main == Serving && now.refresher == Refreshing
    requires IsWorker(now.q, now.w) && now.q.workers[now.w] == Idle
    ensures full == life + WindDown(now.w) && LeadsTo(p, full, next)
    ensures next.main == Closed && next.q == Move(now.q, now.w, Down)
  {
    full, next := LoopsReturn(p, life, now);
    full, next := Extend(p, full, next, Wait);
    full, next := Extend(p, full, next, StopMetrics);
    full, next := Extend(p, full, next, Flush);
    full, next := Extend(p, full, next, Close);
  }

  /** The worker is launched, and a client creates order 0. */
  function FirstOrder(): seq<Action> {
    [Launch, Queue(Insert(0, 0, SOME_ORDER)), Queue(CountCreate(0))]
  }

  lemma FirstOrderWaits(p: Process) returns (life: seq<Action>, now: Process)
    requires Boot(p) && p.enabled
    ensures life == FirstOrder() && LeadsTo(p, life, now)
    ensures now.main == Serving && now.refresher == Refreshing && now.w == p.w
    ensures now.q.table == map[0 := Row(Pending, 0, SOME_ORDER)] && now.q.workers == p.q.workers[p.w := Idle]
    ensures IsClaim(now.q.table, 1, [0])
  {
    life, now := Extend(p, [], p, Launch);
    life, now := ExtendQueue(p, life, now, Insert(0, 0, SOME_ORDER));
    life, now := ExtendQueue(p, life, now, CountCreate(0));
    assert WithStatus(now.q.table, Pending) == {0} == Elements([0]);
  }

  /** Shutdown can strand an order without any crash, panic or failing statement: the signal cancels a
      claim that has already committed, and the process goes on to close its pool. */
  lemma CancelledClaimStrands(p: Process) returns (life: seq<Action>, end: Process)
    requires Boot(p) && p.enabled
    ensures life == FirstOrder() + [Signal, Queue(ClaimLost(p.w, 1, [0]))] + WindDown(p.w)
    ensures LeadsTo(p, life, end) && end.main == Closed && Stranded(end.q, 0)
  {
    life, end := FirstOrderWaits(p);
    life, end := Extend(p, life, end, Signal);
    life, end := ExtendQueue(p, life, end, ClaimLost(p.w, 1, [0]));
    assert 0 in Elements([0]);
    life, end := WindsDown(p, life, end);
  }

  /** The worker takes the order, and its processor succeeds after the write deadline. */
  function LateVerdict(w: WorkerId): seq<Action> {
    [Queue(ClaimOk(w, 1, [0])), Queue(CountClaim(w)),
     Queue(Return(w, Paid, false, false, true)), Queue(MarkFailed(w)), Queue(FinishBatch(w))]
  }

  lemma FirstOrderTaken(p: Process, life: seq<Action>, now: Process) returns (full: seq<Action>, next: Process)
    requires LeadsTo(p, life, now) && now.main != Dead && IsWorker(now.q, now.w) && now.q.workers[now.w] == Idle
    requires now.q.table == map[0 := Row(Pending, 0, SOME_ORDER)] && IsClaim(now.q.table, 1, [0])
    ensures full == life + LateVerdict(now.w)[..2] && LeadsTo(p, full, next)
    ensures next == now.(q := next.q) && next.q.table == map[0 := Row(Processing, 0, SOME_ORDER)]
    ensures next.q.workers == now.q.workers[now.w := Working([0])]
  {
    full, next := ExtendQueue(p, life, now, ClaimOk(now.w, 1, [0]));
    assert 0 in Elements([0]);
    full, next := ExtendQueue(p, full, next, CountClaim(now.w));
  }

  lemma VerdictLost(p: Process, life: seq<Action>, now: Process) returns (full: seq<Action>, next: Process)
    requires LeadsTo(p, life, now) && now.main != Dead
    requires IsWorker(now.q, now.w) && now.q.workers[now.w] == Working([0])
    ensures full == life + LateVerdict(now.w)[2..] && LeadsTo(p, full, next)
    ensures next == now.(q := Move(now.q, now.w, Idle))
  {
    full, next := ExtendQueue(p, life, now, Return(now.w, Paid, false, false, true));
    full, next := ExtendQueue(p, full, next, MarkFailed(now.w));
    full, next := ExtendQueue(p, full, next, FinishBatch(now.w));
  }

  /** So can a deadline: the processor answered paid, and the closed process leaves the order stranded. */
  lemma ExpiredDeadlineStrands(p: Process) returns (life: seq<Action>, end: Process)
    requires Boot(p) && p.enabled
    ensures life == FirstOrder() + LateVerdict(p.w) + WindDown(p.w)
    ensures LeadsTo(p, life, end) && end.main == Closed && Stranded(end.q, 0)
  {
    life, end := FirstOrderWaits(p);
    life, end := FirstOrderTaken(p, life, end);
    life, end := VerdictLost(p, life, end);
    life, end := WindsDown(p, life, end);
  }

  // ---- Shutdown completes ---------------------------------------------------------------------

  /** The steps a worker has left before it can leave its loop. */
  function WorkLeft(p: Phase): nat {
    match p
    case Down => 0
    case Idle => 1
    case Counting(batch, n) => 2 + 4 * |batch| + if n <= |batch| then |batch| - n else 0
    case Working(todo) => 2 + 4 * |todo|
    case Marking(todo, _, _) => 1 + 4 * |todo|
    case Reporting(todo, _) => 3 + 4 * |todo|
  }

  /** What the worker can do next without a failure, unless its deadline has passed. */
  function NextStep(p: Phase, w: WorkerId): Event {
    match p
    case Down => Start(w)
    case Idle => Exit(w)
    case Counting(_, _) => CountClaim(w)
    case Working(todo) => if todo == [] then FinishBatch(w) else Return(w, Paid, false, true, false)
    case Marking(_, _, expired) => if expired then MarkFailed(w) else MarkOk(w)
    case Reporting(_, _) => CountMark(w)
  }

  lemma WorkerAdvances(q: State, w: WorkerId)
    requires Exclusive(q) && IsWorker(q, w) && !q.workers[w].Down?
    ensures var e := NextStep(q.workers[w], w);
      Enabled(q, e) && !e.ClaimOk? && !e.ClaimLost? && !e.Start? && !e.Crash?
  {
    assert WellFormed(q.workers[w]);
    if q.workers[w].Marking? {
      assert Owns(q, w, q.workers[w].todo[0]);
    }
  }

  function LoopLeft(l: Loop): nat {
    if l == Refreshing then 2 else if l == Waiting then 1 else 0
  }

  function Remaining(p: Process): nat {
    (if Rank(p.main) <= 7 then 7 - Rank(p.main) else 0) + LoopLeft(p.refresher)
    + if IsWorker(p.q, p.w) then WorkLeft(p.q.workers[p.w]) else 0
  }

  /** The next step towards the end: main's own, or the loop that main is waiting for. */
  function Onward(p: Process): Action
    requires IsWorker(p.q, p.w)
  {
    match p.main
    case Booting => Launch
    case Serving => Stop
    case Stopping => Drain
    case ApiDrained =>
      if WorkerLive(p) then Queue(NextStep(p.q.workers[p.w], p.w))
      else if p.refresher == Refreshing then Refreshed
      else if p.refresher == Waiting then RefresherReturns
      else Wait
    case LoopsDone => StopMetrics
    case MetricsDown => Flush
    case Flushed => Close
    case Closed => Signal
    case Dead => Signal
  }

  /** A loop takes on more work: the worker's claim replies with orders, or the refresher's ticker
      fires once more. */
  predicate NewRound(a: Action, w: WorkerId) {
    a.Tick? || (a.Queue? && a.e.ClaimOk? && a.e.w == w && a.e.ids != [])
  }

  /** The action is main's, the refresher's or this worker's, other than a claim. */
  predicate Progress(a: Action, w: WorkerId) {
    match a
    case Queue(e) => Mine(e, w) && !e.ClaimOk? && !e.ClaimLost?
    case Signal => false
    case _ => true
  }

  lemma WorkerStepBound(q: State, e: Event, w: WorkerId)
    requires Exclusive(q) && Enabled(q, e) && IsWorker(q, w)
    requires !(Mine(e, w) && e.Start?) && !NewRound(Queue(e), w)
    ensures IsWorker(Apply(q, e), w)
    ensures WorkLeft(Apply(q, e).workers[w]) + (if Progress(Queue(e), w) then 1 else 0) <= WorkLeft(q.workers[w])
  {
    assert WellFormed(q.workers[w]);
  }

  /** Every step of the process uses up what is left to do, and nobody else's step adds to it. */
  lemma RemainingStep(p: Process, a: Action)
    requires Exclusive(p.q) && Ordered(p) && CanAct(p, a) && p.main != Booting && !NewRound(a, p.w)
    ensures Act(p, a).main != Booting
    ensures Remaining(Act(p, a)) + (if Progress(a, p.w) then 1 else 0) <= Remaining(p)
  {
    if a.Queue? {
      WorkerStepBound(p.q, a.e, p.w);
    }
  }

  lemma OnwardAdvances(p: Process)
    requires Exclusive(p.q) && Ordered(p) && Rank(Serving) <= Rank(p.main) < Rank(Closed)
    ensures CanAct(p, Onward(p)) && Progress(Onward(p), p.w) && !NewRound(Onward(p), p.w)
    ensures Rank(Serving) <= Rank(Act(p, Onward(p)).main) <= Rank(Closed)
  {
    if WorkerLive(p) {
      WorkerAdvances(p.q, p.w);
    }
  }

  lemma LifeIsExclusive(p: Process, life: seq<Action>)
    requires Boot(p) && IsLife(p, life)
    ensures Exclusive(Later(p, life).q)
  {
    LifeIsQueueRun(p, life);
    RunsAreExclusive(p.q, QueueRun(p, life));
  }

  function OwnSteps(life: seq<Action>, w: WorkerId): nat {
    if life == [] then 0
    else OwnSteps(life[..|life| - 1], w) + if Progress(life[|life| - 1], w) then 1 else 0
  }

  /** A life is at its end: the pool is closed, or the process crashed. */
  predicate Over(p: Process) {
    p.main == Closed || p.main == Dead
  }

  /** Some step of the process itself, other than a claim or a tick, is enabled. */
  ghost predicate HasStep(p: Process) {
    exists a :: CanAct(p, a) && Progress(a, p.w) && !NewRound(a, p.w)
  }

  lemma NeverStuck(p: Process, life: seq<Action>)
    requires Boot(p) && IsLife(p, life) && Later(p, life).main != Booting
    ensures Over(Later(p, life)) || HasStep(Later(p, life))
  {
    OrderedLife(p, life);
    LifeIsExclusive(p, life);
    if !Over(Later(p, life)) {
      OnwardAdvances(Later(p, life));
    }
  }

  lemma LastStepUses(p: Process, life: seq<Action>, a: Action)
    requires Boot(p) && IsLife(p, life) && IsLife(p, life + [a])
    requires Later(p, life).main != Booting && !NewRound(a, p.w)
    ensures Later(p, life + [a]).main != Booting
    ensures Remaining(Later(p, life + [a])) + (if Progress(a, p.w) then 1 else 0) <= Remaining(Later(p, life))
  {
    assert (life + [a])[..|life|] == life;
    OrderedLife(p, life);
    LifeIsExclusive(p, life);
    RemainingStep(Later(p, life), a);
  }

  lemma {:induction false} StepsUse(p: Process, life: seq<Action>, more: seq<Action>)
    requires Boot(p) && IsLife(p, life) && Later(p, life).main != Booting
    requires IsLife(p, life + more) && forall a :: a in more ==> !NewRound(a, p.w)
    ensures Later(p, life + more).main != Booting
    ensures OwnSteps(more, p.w) + Remaining(Later(p, life + more)) <= Remaining(Later(p, life))
    decreases |more|
  {
    if more == [] {
      assert life + more == life;
    } else {
      var front, a := more[..|more| - 1], more[|more| - 1];
      assert life + more == (life + front) + [a];
      assert (life + more)[..|life + more| - 1] == life + front;
      StepsUse(p, life, front);
      LastStepUses(p, life + front, a);
    }
  }

  /** bg.Wait cannot hang. However the others act, the process takes at most Remaining steps before one
      of its loops takes on more work, and until it is over it always has such a step to take. */
  lemma ShutdownIsBounded(p: Process, life: seq<Action>, more: seq<Action>)
    requires Boot(p) && IsLife(p, life) && Later(p, life).main != Booting
    requires IsLife(p, life + more) && forall a :: a in more ==> !NewRound(a, p.w)
    ensures OwnSteps(more, p.w) + Remaining(Later(p, life + more)) <= Remaining(Later(p, life))
    ensures Over(Later(p, life + more)) || HasStep(Later(p, life + more))
  {
    StepsUse(p, life, more);
    NeverStuck(p, life + more);
  }

  /** From every state of every life after the launch, steps of this process alone, none of them a new
      round, lead to the closed pool. */
  lemma {:induction false} ShutdownCompletes(p: Process, life: seq<Action>) returns (full: seq<Action>)
    requires Boot(p) && IsLife(p, life)
    requires Rank(Serving) <= Rank(Later(p, life).main) <= Rank(Closed)
    ensures IsLife(p, full) && life <= full && Later(p, full).main == Closed
    ensures forall i :: |life| <= i < |full| ==> Progress(full[i], p.w) && !NewRound(full[i], p.w)
    decreases Remaining(Later(p, life))
  {
    var now := Later(p, life);
    if now.main == Closed {
      full := life;
    } else {
      OrderedLife(p, life);
      LifeIsExclusive(p, life);
      OnwardAdvances(now);
      RemainingStep(now, Onward(now));
      var next := life + [Onward(now)];
      assert next[..|next| - 1] == life;
      full := ShutdownCompletes(p, next);
    }
  }
}
