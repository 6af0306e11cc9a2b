/** The shared map behaves as independent samplers, one per message, and what one of them emits in
    any span of one interval is bounded, although the code only limits anchored windows. */
module SamplerRefinement {
  import opened Collections
  import opened Sampler

  // ---- One private sampler ----------------------------------------------------------

  datatype Slot = Absent | Present(bucket: Bucket)

  function Current(slot: Slot, t: Time): Bucket {
    if slot.Present? then slot.bucket else Bucket(t, 0, 0)
  }

  /** The bucket of a sampler that only ever sees these times. */
  function Private(c: Config, ts: seq<Time>): Slot {
    if ts == [] then Absent
    else
      var t := ts[|ts| - 1];
      Present(Decide(c, Current(Private(c, ts[..|ts| - 1]), t), t).1)
  }

  function PrivateDecisions(c: Config, ts: seq<Time>): (ds: seq<Decision>)
    ensures |ds| == |ts|
  {
    if ts == [] then []
    else
      var front, t := ts[..|ts| - 1], ts[|ts| - 1];
      PrivateDecisions(c, front) + [Decide(c, Current(Private(c, front), t), t).0]
  }

  // ---- The shared sampler, message by message ------------------------------------------

  predicate Sampled(r: Record, message: string) {
    !r.warn && r.message == message
  }

  /** The distinct sub-WARN messages. */
  function Messages(rs: seq<Record>): set<string> {
    set r | r in rs && !r.warn :: r.message
  }

  function Times(rs: seq<Record>, message: string): seq<Time> {
    if rs == [] then []
    else
      var before := Times(rs[..|rs| - 1], message);
      if Sampled(rs[|rs| - 1], message) then before + [rs[|rs| - 1].time] else before
  }

  /** The decisions the shared sampler took on one message's records. */
  function DecisionsOn(c: Config, rs: seq<Record>, message: string): seq<Decision> {
    if rs == [] then []
    else
      var front, r := rs[..|rs| - 1], rs[|rs| - 1];
      var before := DecisionsOn(c, front, message);
      if Sampled(r, message) then before + [Step(c, State(c, front), r).0] else before
  }

  lemma MessagesOfFront(rs: seq<Record>)
    requires rs != []
    ensures var front, r := rs[..|rs| - 1], rs[|rs| - 1];
      Messages(rs) == if r.warn then Messages(front) else Messages(front) + {r.message}
  {
    var front, r := rs[..|rs| - 1], rs[|rs| - 1];
    assert rs == front + [r];
    forall x | x in Messages(rs)
      ensures x in if r.warn then Messages(front) else Messages(front) + {r.message}
    {
      var y :| y in rs && !y.warn && y.message == x;
      assert y in front || y == r;
    }
    forall x | x in Messages(front)
      ensures x in Messages(rs)
    {
      var y :| y in front && !y.warn && y.message == x;
      assert y in rs;
    }
    if !r.warn {
      assert r in rs;
      assert r.message in Messages(rs);
    }
  }

  lemma {:induction false} KeysAreMessages(c: Config, rs: seq<Record>)
    requires |Messages(rs)| <= MAX_SAMPLE_KEYS
    ensures State(c, rs).Keys == Messages(rs) && Bounded(State(c, rs)) == State(c, rs)
  {
    if rs != [] {
      MessagesOfFront(rs);
      SubsetSize(Messages(rs[..|rs| - 1]), Messages(rs));
      KeysAreMessages(c, rs[..|rs| - 1]);
    }
    assert |State(c, rs)| == |State(c, rs).Keys|;
  }

  function Lookup(m: Buckets, message: string): Slot {
    if message in m then Present(m[message]) else Absent
  }

  lemma TimesOfFront(rs: seq<Record>, message: string)
    requires rs != [] && Sampled(rs[|rs| - 1], message)
    ensures var ts := Times(rs, message);
      ts != [] && ts[..|ts| - 1] == Times(rs[..|rs| - 1], message) && ts[|ts| - 1] == rs[|rs| - 1].time
  {
  }

  /** One step of the shared map is one step of the private sampler of its message. */
  lemma StepOnSlot(c: Config, m: Buckets, r: Record, message: string)
    requires Bounded(m) == m
    ensures Lookup(Step(c, m, r).1, message) ==
      if Sampled(r, message) then Present(Decide(c, Current(Lookup(m, message), r.time), r.time).1)
      else Lookup(m, message)
    ensures Sampled(r, message) ==>
      Step(c, m, r).0 == Decide(c, Current(Lookup(m, message), r.time), r.time).0
  {
  }

  /** While at most 1024 distinct messages have appeared, every bucket is the private one. */
  lemma {:induction false} SharedSlotIsPrivate(c: Config, rs: seq<Record>, message: string)
    requires |Messages(rs)| <= MAX_SAMPLE_KEYS
    ensures Lookup(State(c, rs), message) == Private(c, Times(rs, message))
  {
    if rs != [] {
      var front, r := rs[..|rs| - 1], rs[|rs| - 1];
      MessagesOfFront(rs);
      SubsetSize(Messages(front), Messages(rs));
      SharedSlotIsPrivate(c, front, message);
      KeysAreMessages(c, front);
      StepOnSlot(c, State(c, front), r, message);
      if Sampled(r, message) {
        TimesOfFront(rs, message);
      }
    }
  }

  /** Sampler refinement: for each message, exactly the decisions of one private sampler run on that
      message's records. Only the records before the last need stay within 1024 messages. */
  lemma {:induction false} SharedIsPrivate(c: Config, rs: seq<Record>, message: string)
    requires rs != [] ==> |Messages(rs[..|rs| - 1])| <= MAX_SAMPLE_KEYS
    ensures DecisionsOn(c, rs, message) == PrivateDecisions(c, Times(rs, message))
  {
    if rs != [] {
      var front, r := rs[..|rs| - 1], rs[|rs| - 1];
      if front != [] {
        MessagesOfFront(front);
        SubsetSize(Messages(front[..|front| - 1]), Messages(front));
      }
      SharedIsPrivate(c, front, message);
      if Sampled(r, message) {
        SharedSlotIsPrivate(c, front, message);
        KeysAreMessages(c, front);
        StepOnSlot(c, State(c, front), r, message);
        TimesOfFront(rs, message);
      }
    }
  }

  /** In every run, whatever the messages, the map holds at most 1025 keys. */
  lemma {:induction false} MapIsBounded(c: Config, rs: seq<Record>)
    ensures |State(c, rs)| <= MAX_SAMPLE_KEYS + 1
  {
    if rs != [] {
      var front, r := rs[..|rs| - 1], rs[|rs| - 1];
      MapIsBounded(c, front);
      if !r.warn {
        var kept := Bounded(State(c, front));
        assert State(c, rs).Keys == kept.Keys + {r.message};
        assert |State(c, rs)| == |State(c, rs).Keys|;
      }
    }
  }

  // ---- The sliding window ------------------------------------------------------------------

  predicate NonDecreasing(ts: seq<Time>) {
    forall i, j :: 0 <= i < j < |ts| ==> ts[i] <= ts[j]
  }

  predicate InSpan(c: Config, t: Time, from: Time) {
    from <= t < from + c.interval
  }

  /** How many records a private sampler emits in the span of one interval that starts at `from`. */
  function PrivateEmitted(c: Config, ts: seq<Time>, from: Time): nat {
    if ts == [] then 0
    else
      var front, t := ts[..|ts| - 1], ts[|ts| - 1];
      var d := Decide(c, Current(Private(c, front), t), t).0;
      PrivateEmitted(c, front, from) + if d.Emit? && InSpan(c, t, from) then 1 else 0
  }

  /** The same count for one message of the shared sampler. */
  function Emitted(c: Config, rs: seq<Record>, message: string, from: Time): nat {
    if rs == [] then 0
    else
      var front, r := rs[..|rs| - 1], rs[|rs| - 1];
      Emitted(c, front, message, from)
      + if Sampled(r, message) && Step(c, State(c, front), r).0.Emit? && InSpan(c, r.time, from)
        then 1 else 0
  }

  /** What the span can hold so far, by where the current window started. */
  predicate WithinBudget(c: Config, b: Bucket, from: Time, emitted: nat) {
    && 1 <= b.seen <= c.perInterval
    && if b.windowStart < from then emitted <= b.seen - 1
       else if b.windowStart < from + c.interval then emitted <= c.perInterval - 1 + b.seen
       else emitted <= 2 * c.perInterval - 1
  }

  lemma {:induction false} WindowInvariant(c: Config, ts: seq<Time>, from: Time)
    requires ValidConfig(c) && NonDecreasing(ts) && ts != []
    ensures Private(c, ts).Present?
    ensures var b := Private(c, ts).bucket;
      && WithinBudget(c, b, from, PrivateEmitted(c, ts, from))
      && b.windowStart <= ts[|ts| - 1]
    ensures ts[|ts| - 1] < from ==> PrivateEmitted(c, ts, from) == 0
  {
    var front := ts[..|ts| - 1];
    if front != [] {
      WindowInvariant(c, front, from);
      assert front[|front| - 1] == ts[|ts| - 2];
    }
  }

  /** Any span of one interval holds at most 2N - 1 records that a private sampler emits. */
  lemma PrivateWindowBound(c: Config, ts: seq<Time>, from: Time)
    requires ValidConfig(c) && NonDecreasing(ts)
    ensures PrivateEmitted(c, ts, from) <= 2 * c.perInterval - 1
  {
    if ts != [] {
      WindowInvariant(c, ts, from);
    }
  }

  lemma {:induction false} EmittedIsPrivate(c: Config, rs: seq<Record>, message: string, from: Time)
    requires |Messages(rs)| <= MAX_SAMPLE_KEYS
    ensures Emitted(c, rs, message, from) == PrivateEmitted(c, Times(rs, message), from)
  {
    if rs != [] {
      var front, r := rs[..|rs| - 1], rs[|rs| - 1];
      MessagesOfFront(rs);
      SubsetSize(Messages(front), Messages(rs));
      EmittedIsPrivate(c, front, message, from);
      if Sampled(r, message) {
        SharedSlotIsPrivate(c, front, message);
        KeysAreMessages(c, front);
        StepOnSlot(c, State(c, front), r, message);
        TimesOfFront(rs, message);
      }
    }
  }

  /** The records arrive in time order. */
  predicate InOrder(rs: seq<Record>) {
    forall i, j :: 0 <= i < j < |rs| ==> rs[i].time <= rs[j].time
  }

  lemma {:induction false} TimesInOrder(rs: seq<Record>, message: string)
    requires InOrder(rs)
    ensures NonDecreasing(Times(rs, message))
    ensures forall t :: t in Times(rs, message) ==> rs != [] && t <= rs[|rs| - 1].time
  {
    if rs != [] {
      var front := rs[..|rs| - 1];
      TimesInOrder(front, message);
      forall t | t in Times(front, message)
        ensures t <= rs[|rs| - 1].time
      {
        assert t <= front[|front| - 1].time == rs[|rs| - 2].time;
      }
      var before := Times(front, message);
      forall i | 0 <= i < |before|
        ensures before[i] <= rs[|rs| - 1].time
      {
        assert before[i] in before;
      }
    }
  }

  /** Sliding-window bound of the shared sampler: with at most 1024 messages and records in time
      order, any half-open span of one interval holds at most 2N - 1 emitted records of a message. */
  lemma SlidingWindowBound(c: Config, rs: seq<Record>, message: string, from: Time)
    requires ValidConfig(c) && InOrder(rs) && |Messages(rs)| <= MAX_SAMPLE_KEYS
    ensures Emitted(c, rs, message, from) <= 2 * c.perInterval - 1
  {
    EmittedIsPrivate(c, rs, message, from);
    TimesInOrder(rs, message);
    PrivateWindowBound(c, Times(rs, message), from);
  }

  // ---- A drop means that the budget is spent -----------------------------------------------------

  /** What a bucket has let through since its window began was emitted in any span of one interval that
      contains the window so far. */
  lemma {:induction false} WindowWasEmitted(c: Config, rs: seq<Record>, message: string, from: Time)
    requires ValidConfig(c) && InOrder(rs) && message in State(c, rs)
    requires from <= State(c, rs)[message].windowStart && rs[|rs| - 1].time < from + c.interval
    ensures State(c, rs)[message].seen <= Emitted(c, rs, message, from)
    ensures State(c, rs)[message].windowStart <= rs[|rs| - 1].time
  {
    var front, r := rs[..|rs| - 1], rs[|rs| - 1];
    var b := State(c, rs)[message];
    if r.warn {
      assert front != [] && front[|front| - 1] == rs[|rs| - 2];
      WindowWasEmitted(c, front, message, from);
    } else if message in Bounded(State(c, front)) {
      assert front != [] && front[|front| - 1] == rs[|rs| - 2];
      var a := State(c, front)[message];
      if from <= a.windowStart {
        WindowWasEmitted(c, front, message, from);
      } else if a.windowStart != b.windowStart {
        WindowRolled(c, front, r, message);
      }
    } else {
      NewBucket(c, front, r, message);
    }
  }

  /** A bucket whose window start has moved is the one that this record has just rolled over. */
  lemma WindowRolled(c: Config, front: seq<Record>, r: Record, message: string)
    requires message in Bounded(State(c, front)) && ValidConfig(c)
    requires Step(c, State(c, front), r).1[message].windowStart != State(c, front)[message].windowStart
    ensures Sampled(r, message) && Step(c, State(c, front), r).0.Emit?
    ensures Step(c, State(c, front), r).1[message] == Bucket(r.time, 1, 0)
  {
  }

  lemma NewBucket(c: Config, front: seq<Record>, r: Record, message: string)
    requires message !in Bounded(State(c, front)) && message in Step(c, State(c, front), r).1 && ValidConfig(c)
    requires !r.warn
    ensures Sampled(r, message) && Step(c, State(c, front), r).0.Emit?
    ensures Step(c, State(c, front), r).1[message] == Bucket(r.time, 1, 0)
  {
  }

  /** The partner of the upper bound: a record is dropped only if its message has been emitted at least N
      times in the interval that ends with it. So a message that is not over its budget always gets
      through, however many messages there are and whatever was dropped before. */
  lemma DropMeansBudgetSpent(c: Config, rs: seq<Record>, r: Record)
    requires ValidConfig(c) && InOrder(rs) && (rs != [] ==> rs[|rs| - 1].time <= r.time)
    requires Step(c, State(c, rs), r).0 == Drop
    ensures Emitted(c, rs, r.message, r.time - c.interval + 1) >= c.perInterval
  {
    WindowCovers(c, rs, r);
    FullWindow(c, rs, r.message, r.time - c.interval + 1);
  }

  lemma FullWindow(c: Config, rs: seq<Record>, message: string, from: Time)
    requires ValidConfig(c) && InOrder(rs) && rs != [] && rs[|rs| - 1].time < from + c.interval
    requires FullSince(c, State(c, rs), message, from)
    ensures Emitted(c, rs, message, from) >= c.perInterval
  {
    WindowWasEmitted(c, rs, message, from);
  }

  predicate FullSince(c: Config, m: Buckets, message: string, from: Time) {
    message in m && m[message].seen >= c.perInterval && from <= m[message].windowStart
  }

  lemma WindowCovers(c: Config, rs: seq<Record>, r: Record)
    requires ValidConfig(c) && Step(c, State(c, rs), r).0 == Drop
    ensures rs != [] && FullSince(c, State(c, rs), r.message, r.time - c.interval + 1)
  {
    DroppedBy(c, State(c, rs), r);
  }

  /** The bucket that drops a record is full and its window is not over. */
  lemma DroppedBy(c: Config, m: Buckets, r: Record)
    requires ValidConfig(c) && Step(c, m, r).0 == Drop
    ensures r.message in m && m[r.message].seen >= c.perInterval
    ensures r.time - m[r.message].windowStart < c.interval
  {
  }

  /** What a caller that leaves the budget and the interval to NewSamplingHandler gets: a message is never
      emitted 20 times within a second, nor dropped with fewer than 10 in the second before. */
  lemma DefaultBudget(given: Config, rs: seq<Record>, message: string, from: Time)
    requires given.perInterval <= 0 && given.interval <= 0
    requires InOrder(rs) && |Messages(rs)| <= MAX_SAMPLE_KEYS
    ensures WithDefaults(given).interval == 1_000_000_000
    ensures Emitted(WithDefaults(given), rs, message, from) <= 19
  {
    SlidingWindowBound(WithDefaults(given), rs, message, from);
  }

  lemma DefaultBudgetIsGranted(given: Config, rs: seq<Record>, r: Record)
    requires given.perInterval <= 0 && given.interval <= 0
    requires InOrder(rs) && (rs != [] ==> rs[|rs| - 1].time <= r.time)
    requires Step(WithDefaults(given), State(WithDefaults(given), rs), r).0 == Drop
    ensures Emitted(WithDefaults(given), rs, r.message, r.time - 1_000_000_000 + 1) >= 10
  {
    DropMeansBudgetSpent(WithDefaults(given), rs, r);
  }

  // ---- The bound is attained -----------------------------------------------------------------

  function Burst(n: nat, t: Time): seq<Time> {
    seq(n, _ => t)
  }

  lemma BurstStep(n: nat, t: Time)
    requires n > 0
    ensures Burst(n, t) == Burst(n - 1, t) + [t]
  {
  }

  /** While the window lasts and the budget does too, a burst is emitted in full. */
  lemma {:induction false} BurstIsEmitted(c: Config, ts: seq<Time>, n: nat, t: Time, from: Time)
    requires ValidConfig(c) && Private(c, ts).Present? && InSpan(c, t, from)
    requires var b := Private(c, ts).bucket;
      t - b.windowStart < c.interval && b.seen + n <= c.perInterval
    ensures Private(c, ts + Burst(n, t)) ==
      Present(Private(c, ts).bucket.(seen := Private(c, ts).bucket.seen + n))
    ensures PrivateEmitted(c, ts + Burst(n, t), from) == PrivateEmitted(c, ts, from) + n
    decreases n
  {
    if n == 0 {
      assert ts + Burst(n, t) == ts;
    } else {
      BurstIsEmitted(c, ts, n - 1, t, from);
      BurstStep(n, t);
      var all := ts + Burst(n, t);
      assert all[..|all| - 1] == ts + Burst(n - 1, t);
    }
  }

  /** For every budget, and every interval longer than one tick, some arrival times reach 2N - 1. */
  lemma WindowBoundIsTight(c: Config) returns (ts: seq<Time>, from: Time)
    requires ValidConfig(c) && c.interval >= 2
    ensures NonDecreasing(ts) && PrivateEmitted(c, ts, from) == 2 * c.perInterval - 1
  {
    var n, i := c.perInterval, c.interval;
    from := i - 1;
    OneRecord(c, 0, from);
    var late := [0] + Burst(n - 1, i - 1);
    BurstIsEmitted(c, [0], n - 1, i - 1, from);
    RollOver(c, late, i, from);
    ts := late + [i] + Burst(n - 1, i);
    BurstIsEmitted(c, late + [i], n - 1, i, from);
  }

  lemma RollOver(c: Config, ts: seq<Time>, t: Time, from: Time)
    requires Private(c, ts).Present? && t - Private(c, ts).bucket.windowStart >= c.interval
    requires InSpan(c, t, from)
    ensures Private(c, ts + [t]) == Present(Bucket(t, 1, 0))
    ensures PrivateEmitted(c, ts + [t], from) == PrivateEmitted(c, ts, from) + 1
  {
    assert (ts + [t])[..|ts|] == ts;
  }

  lemma OneRecord(c: Config, t: Time, from: Time)
    requires ValidConfig(c)
    ensures Private(c, [t]) == Present(Bucket(t, 1, 0))
    ensures PrivateEmitted(c, [t], from) == if InSpan(c, t, from) then 1 else 0
  {
    assert [t][..0] == [];
  }

  // ---- The refinement bound is exact -----------------------------------------------------------

  function Say(message: string, t: Time): Record {
    Record(false, message, t)
  }

  function Once(ms: seq<string>, t: Time): seq<Record> {
    seq(|ms|, i requires 0 <= i < |ms| => Say(ms[i], t))
  }

  function Flood(message: string, n: nat, t: Time): seq<Record> {
    seq(n, _ => Say(message, t))
  }

  lemma {:induction false} TimesOfFlood(message: string, n: nat, t: Time)
    ensures Times(Flood(message, n, t), message) == Burst(n, t)
  {
    if n > 0 {
      TimesOfFlood(message, n - 1, t);
      assert Flood(message, n, t)[..n - 1] == Flood(message, n - 1, t);
      BurstStep(n, t);
    }
  }

  lemma {:induction false} TimesSkipOthers(rs: seq<Record>, more: seq<Record>, message: string)
    requires forall r :: r in more ==> !Sampled(r, message)
    ensures Times(rs + more, message) == Times(rs, message)
    decreases |more|
  {
    if more == [] {
      assert rs + more == rs;
    } else {
      var front := more[..|more| - 1];
      TimesSkipOthers(rs, front, message);
      assert (rs + more)[..|rs + more| - 1] == rs + front;
      assert more[|more| - 1] in more;
    }
  }

  /** A flood of one message, then 1024 others once each: 1025 messages in all. */
  function Crowd(ms: seq<string>, n: nat, t: Time): seq<Record>
    requires ms != []
  {
    Flood(ms[0], n, t) + Once(ms[1..], t)
  }

  lemma CrowdMessages(ms: seq<string>, n: nat, t: Time)
    requires ms != [] && n > 0
    ensures Messages(Crowd(ms, n, t)) == set m | m in ms
  {
    var rs := Crowd(ms, n, t);
    forall m | m in ms
      ensures m in Messages(rs)
    {
      var i :| 0 <= i < |ms| && ms[i] == m;
      var k := if i == 0 then 0 else n + i - 1;
      assert rs[k] == Say(m, t);
      assert rs[k] in rs;
    }
    forall m | m in Messages(rs)
      ensures m in ms
    {
      var r :| r in rs && !r.warn && r.message == m;
      var k :| 0 <= k < |rs| && rs[k] == r;
      assert m == if k < n then ms[0] else ms[1..][k - n];
    }
  }

  /** After the crowd the map holds all 1025 messages, one more than it may keep. */
  lemma CrowdFillsMap(c: Config, ms: seq<string>, n: nat, t: Time)
    requires |ms| == MAX_SAMPLE_KEYS + 1 && NoRepeats(ms) && n > 0
    ensures |State(c, Crowd(ms, n, t))| > MAX_SAMPLE_KEYS
  {
    var fewer, last := ms[..MAX_SAMPLE_KEYS], ms[MAX_SAMPLE_KEYS];
    var front := Crowd(fewer, n, t);
    assert ms == fewer + [last];
    CrowdGrows(fewer, last, n, t);
    CrowdMessages(fewer, n, t);
    NoRepeatsSize(fewer);
    KeysAreMessages(c, front);
    assert |State(c, front)| == |State(c, front).Keys|;
    assert last !in fewer;
    NewKey(c, front, Say(last, t));
  }

  lemma CrowdGrows(ms: seq<string>, m: string, n: nat, t: Time)
    requires ms != []
    ensures Crowd(ms + [m], n, t) == Crowd(ms, n, t) + [Say(m, t)]
  {
    assert (ms + [m])[1..] == ms[1..] + [m];
    assert Once(ms[1..] + [m], t) == Once(ms[1..], t) + [Say(m, t)];
  }

  lemma NewKey(c: Config, rs: seq<Record>, r: Record)
    requires !r.warn && r.message !in State(c, rs) && |State(c, rs)| <= MAX_SAMPLE_KEYS
    ensures |State(c, rs + [r])| == |State(c, rs)| + 1
  {
    assert (rs + [r])[..|rs|] == rs;
    var m, m' := State(c, rs), State(c, rs + [r]);
    assert m'.Keys == m.Keys + {r.message};
    assert |m| == |m.Keys| && |m'| == |m'.Keys|;
  }

  /** With 1025 messages before the last record the refinement fails, for every configuration: the
      reset gives the flooded message a fresh budget, and it is emitted where its private sampler
      drops it. So 1024 is the exact bound of SharedIsPrivate. */
  lemma RefinementBoundIsExact(c: Config, ms: seq<string>, t: Time)
    requires ValidConfig(c) && |ms| == MAX_SAMPLE_KEYS + 1 && NoRepeats(ms)
    ensures var rs := Crowd(ms, c.perInterval, t) + [Say(ms[0], t)];
      DecisionsOn(c, rs, ms[0]) != PrivateDecisions(c, Times(rs, ms[0]))
  {
    var crowd, r := Crowd(ms, c.perInterval, t), Say(ms[0], t);
    var rs := crowd + [r];
    assert rs[..|rs| - 1] == crowd;
    CrowdFillsMap(c, ms, c.perInterval, t);
    assert Step(c, State(c, crowd), r).0 == Emit(0);
    CrowdTimes(c, ms, t);
    BurstExhausts(c, t);
    var ts := Times(rs, ms[0]);
    assert ts[..|ts| - 1] == Burst(c.perInterval, t);
    var shared, private := DecisionsOn(c, rs, ms[0]), PrivateDecisions(c, ts);
    assert shared[|shared| - 1] == Emit(0);
    assert private[|private| - 1] == Drop;
  }

  lemma CrowdTimes(c: Config, ms: seq<string>, t: Time)
    requires ValidConfig(c) && ms != [] && NoRepeats(ms)
    ensures Times(Crowd(ms, c.perInterval, t), ms[0]) == Burst(c.perInterval, t)
  {
    var others := Once(ms[1..], t);
    forall r | r in others
      ensures !Sampled(r, ms[0])
    {
      var i :| 0 <= i < |others| && others[i] == r;
      assert r.message == ms[i + 1];
    }
    TimesSkipOthers(Flood(ms[0], c.perInterval, t), others, ms[0]);
    TimesOfFlood(ms[0], c.perInterval, t);
  }

  lemma BurstExhausts(c: Config, t: Time)
    requires ValidConfig(c)
    ensures Private(c, Burst(c.perInterval, t)) == Present(Bucket(t, c.perInterval, 0))
  {
    OneRecord(c, t, t);
    BurstIsEmitted(c, [t], c.perInterval - 1, t, t);
    assert [t] + Burst(c.perInterval - 1, t) == Burst(c.perInterval, t);
  }
}
