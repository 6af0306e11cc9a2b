/** The log sampler: a keyed, windowed rate limiter whose state every derived handler shares. */
module Sampler {

  /** Nanoseconds, as in time.Time and time.Duration. */
  type Time = int

  datatype Config = Config(perInterval: int, interval: int)

  /** What NewSamplingHandler makes of its arguments. */
  function WithDefaults(c: Config): Config {
    Config(if c.perInterval <= 0 then 10 else c.perInterval,
           if c.interval <= 0 then 1_000_000_000 else c.interval)
  }

  predicate ValidConfig(c: Config) {
    c.perInterval >= 1 && c.interval >= 1
  }

  datatype Bucket = Bucket(windowStart: Time, seen: nat, dropped: nat)

  type Buckets = map<string, Bucket>

  datatype Record = Record(warn: bool, message: string, time: Time)

  /** A record is forwarded, with the drop count it carries, or dropped. */
  datatype Decision = Emit(carried: nat) | Drop

  const MAX_SAMPLE_KEYS := 1024

  // ---- The decision, as a function -------------------------------------------------

  /** The switch of Handle on the bucket of one message. */
  function Decide(c: Config, b: Bucket, t: Time): (Decision, Bucket) {
    if t - b.windowStart >= c.interval then (Emit(b.dropped), Bucket(t, 1, 0))
    else if b.seen >= c.perInterval then (Drop, b.(dropped := b.dropped + 1))
    else (Emit(0), b.(seen := b.seen + 1))
  }

  function Bounded(m: Buckets): Buckets {
    if |m| > MAX_SAMPLE_KEYS then map[] else m
  }

  function Fetch(m: Buckets, message: string, t: Time): Bucket {
    if message in m then m[message] else Bucket(t, 0, 0)
  }

  /** One record through the whole critical section. */
  function Step(c: Config, m: Buckets, r: Record): (Decision, Buckets) {
    if r.warn then (Emit(0), m)
    else
      var kept := Bounded(m);
      var (d, b) := Decide(c, Fetch(kept, r.message, r.time), r.time);
      (d, kept[r.message := b])
  }

  /** The state after a sequence of records. */
  function State(c: Config, rs: seq<Record>): Buckets {
    if rs == [] then map[]
    else Step(c, State(c, rs[..|rs| - 1]), rs[|rs| - 1]).1
  }

  function Decisions(c: Config, rs: seq<Record>): (ds: seq<Decision>)
    ensures |ds| == |rs|
  {
    if rs == [] then []
    else
      var front := rs[..|rs| - 1];
      Decisions(c, front) + [Step(c, State(c, front), rs[|rs| - 1]).0]
  }

  // ---- The handlers ------------------------------------------------------------------

  /** sampleState: one object that every derived handler refers to. */
  class SampleState {
    const config: Config
    var buckets: Buckets

    constructor (config: Config)
      ensures this.config == WithDefaults(config) && ValidConfig(this.config) && buckets == map[]
      ensures config.perInterval > 0 ==> this.config.perInterval == config.perInterval
      ensures config.interval > 0 ==> this.config.interval == config.interval
    {
      this.config, this.buckets := WithDefaults(config), map[];
    }
  }

  class SamplingHandler {
    const state: SampleState

    constructor Over(state: SampleState)
      ensures this.state == state
    {
      this.state := state;
    }

    /** WithAttrs and WithGroup re-wrap and share the state. */
    method Derive() returns (h: SamplingHandler)
      ensures fresh(h) && h.state == state
    {
      h := new SamplingHandler.Over(state);
    }

    /** Handle, up to the call of the inner handler. */
    method Handle(r: Record) returns (d: Decision)
      modifies state
      ensures (d, state.buckets) == Step(state.config, old(state.buckets), r)
    {
      if r.warn {
        return Emit(0);
      }
      if |state.buckets| > MAX_SAMPLE_KEYS {
        state.buckets := map[];
      }
      ghost var kept := state.buckets;
      if r.message !in state.buckets {
        state.buckets := state.buckets[r.message := Bucket(r.time, 0, 0)];
      }
      var b := state.buckets[r.message];
      d := Emit(0);
      if r.time - b.windowStart >= state.config.interval {
        d := Emit(b.dropped);
        b := Bucket(r.time, 1, 0);
      } else if b.seen >= state.config.perInterval {
        d := Drop;
        b := b.(dropped := b.dropped + 1);
      } else {
        b := b.(seen := b.seen + 1);
      }
      state.buckets := state.buckets[r.message := b];
      assert state.buckets == kept[r.message := b];
    }
  }

  /** Records sent through any handlers of one family, in any order: the decisions are those of one
      shared sampler, whichever handler each record came through. */
  method Drive(hs: seq<SamplingHandler>, via: seq<nat>, rs: seq<Record>) returns (ds: seq<Decision>)
    requires |via| == |rs| && hs != []
    requires forall i :: 0 <= i < |via| ==> via[i] < |hs|
    requires forall h :: h in hs ==> h.state == hs[0].state
    requires hs[0].state.buckets == map[]
    modifies hs[0].state
    ensures ds == Decisions(hs[0].state.config, rs)
    ensures hs[0].state.buckets == State(hs[0].state.config, rs)
  {
    ds := [];
    for i := 0 to |rs|
      invariant ds == Decisions(hs[0].state.config, rs[..i])
      invariant hs[0].state.buckets == State(hs[0].state.config, rs[..i])
    {
      var d := hs[via[i]].Handle(rs[i]);
      assert rs[..i + 1][..i] == rs[..i];
      ds := ds + [d];
    }
    assert rs[..|rs|] == rs;
  }
}
