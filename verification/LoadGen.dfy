/** The load generator's structures: the ring of created ids, the weighted pick, the result tallies. */
module LoadGen {
  import opened Collections

  // ---- idRing -----------------------------------------------------------------------------

  /** The last n elements, or all of them if there are fewer. */
  function Last<T>(s: seq<T>, n: nat): seq<T> {
    if |s| <= n then s else s[|s| - n..]
  }

  /** What add does to the ids kept, oldest first. */
  function Keep(kept: seq<string>, cap: nat, id: string): seq<string> {
    if id == "" then kept else Last(kept + [id], cap)
  }

  function KeepAll(cap: nat, ids: seq<string>): seq<string> {
    if ids == [] then [] else Keep(KeepAll(cap, ids[..|ids| - 1]), cap, ids[|ids| - 1])
  }

  function NonEmpty(ids: seq<string>): seq<string> {
    if ids == [] then []
    else
      var rest := NonEmpty(ids[..|ids| - 1]);
      if ids[|ids| - 1] == "" then rest else rest + [ids[|ids| - 1]]
  }

  /** After any sequence of adds the ring holds exactly the last min(k, cap) non-empty ids. */
  lemma {:induction false} RingKeepsLast(cap: nat, ids: seq<string>)
    ensures KeepAll(cap, ids) == Last(NonEmpty(ids), cap)
  {
    if ids != [] {
      RingKeepsLast(cap, ids[..|ids| - 1]);
    }
  }

  /** A full buffer, read from its oldest slot on. */
  function Rotated(buf: seq<string>, next: nat): seq<string>
    requires next < |buf|
  {
    buf[next..] + buf[..next]
  }

  /** Overwriting the oldest slot and moving on drops the oldest id and appends the new one. */
  lemma Overwrite(buf: seq<string>, next: nat, id: string)
    requires next < |buf|
    ensures Rotated(buf[next := id], (next + 1) % |buf|) == Last(Rotated(buf, next) + [id], |buf|)
  {
    var n, buf' := |buf|, buf[next := id];
    var last := Last(Rotated(buf, next) + [id], n);
    assert last == (buf[next..] + buf[..next])[1..] + [id];
    assert buf' == buf[..next] + [id] + buf[next + 1..];
    if next + 1 == n {
      assert (next + 1) % n == 0;
      assert buf[next..][1..] == [];
    } else {
      assert (next + 1) % n == next + 1;
      assert buf[next..][1..] == buf[next + 1..];
      assert buf'[..next + 1] == buf[..next] + [id];
    }
  }

  /** Where, counted from the oldest id, slot `draw` of a buffer of n ids lies. */
  function Position(n: nat, next: nat, draw: nat): nat
    requires draw < n && next < n
  {
    if draw < next then n - next + draw else draw - next
  }

  /** Every position is drawn by exactly one of the n draws, so random is uniform over the ids held. */
  lemma EachIdHasOneDraw(n: nat, next: nat, p: nat) returns (draw: nat)
    requires p < n && next < n
    ensures draw < n && Position(n, next, draw) == p
    ensures forall d: nat :: d < n && Position(n, next, d) == p ==> d == draw
  {
    draw := if p + next < n then p + next else p + next - n;
  }

  class IdRing {
    const cap: nat
    var buf: seq<string>
    var next: nat

    ghost predicate Valid()
      reads this
    {
      && cap > 0 && |buf| <= cap && next < cap && (|buf| < cap ==> next == 0)
    }

    /** The ids, oldest first: once the ring is full the oldest is at `next`. */
    function Contents(): seq<string>
      requires Valid()
      reads this
    {
      if |buf| < cap then buf else Rotated(buf, next)
    }

    constructor (n: nat)
      requires n > 0
      ensures Valid() && cap == n && Contents() == []
    {
      cap, buf, next := n, [], 0;
    }

    method Add(id: string)
      requires Valid()
      modifies this`buf, this`next
      ensures Valid() && Contents() == Keep(old(Contents()), cap, id)
    {
      if id == "" {
        return;
      }
      if |buf| < cap {
        buf := buf + [id];
        assert next == 0 && Rotated(buf, 0) == buf;
        return;
      }
      Overwrite(buf, next, id);
      buf, next := buf[next := id], (next + 1) % cap;
    }

    /** random, for any draw below the length. */
    method Random(draw: nat) returns (id: string, ok: bool)
      requires Valid() && (buf != [] ==> draw < |buf|)
      ensures ok <==> Contents() != []
      ensures ok ==> id == Contents()[Position(|Contents()|, next, draw)]
    {
      if |buf| == 0 {
        return "", false;
      }
      id, ok := buf[draw], true;
    }
  }

  /** Any sequence of adds on a new ring. */
  method AddAll(cap: nat, ids: seq<string>) returns (r: IdRing)
    requires cap > 0
    ensures fresh(r) && r.Valid() && r.cap == cap && r.Contents() == Last(NonEmpty(ids), cap)
  {
    r := new IdRing(cap);
    for i := 0 to |ids|
      invariant fresh(r) && r.Valid() && r.cap == cap && r.Contents() == KeepAll(cap, ids[..i])
    {
      assert ids[..i + 1][..i] == ids[..i];
      r.Add(ids[i]);
    }
    assert ids[..|ids|] == ids;
    RingKeepsLast(cap, ids);
  }

  // ---- pick ----------------------------------------------------------------------------------

  type Kind = string

  datatype Share = Share(kind: Kind, weight: nat)

  const FALLBACK: Kind := "create"

  function Total(mix: seq<Share>): nat {
    if mix == [] then 0 else Total(mix[..|mix| - 1]) + mix[|mix| - 1].weight
  }

  function Weight(mix: seq<Share>, kind: Kind): nat {
    if mix == [] then 0
    else Weight(mix[..|mix| - 1], kind)
         + if mix[|mix| - 1].kind == kind then mix[|mix| - 1].weight else 0
  }

  /** The draws laid out on a line, each share taking as many as its weight. */
  function Line(mix: seq<Share>): (ks: seq<Kind>)
    ensures |ks| == Total(mix)
  {
    if mix == [] then []
    else Line(mix[..|mix| - 1]) + seq(mix[|mix| - 1].weight, _ => mix[|mix| - 1].kind)
  }

  lemma {:induction false} PrefixOfLine(mix: seq<Share>, i: nat)
    requires i <= |mix|
    ensures Line(mix[..i]) <= Line(mix)
    decreases |mix| - i
  {
    if i < |mix| {
      PrefixOfLine(mix, i + 1);
      assert mix[..i + 1][..i] == mix[..i];
    } else {
      assert mix[..i] == mix;
    }
  }

  /** pick, for any draw that rng.Intn(total) can give: the fallback is never reached. */
  method Pick(mix: seq<Share>, draw: nat) returns (kind: Kind)
    requires draw < Total(mix)
    ensures kind == Line(mix)[draw]
  {
    var n := draw;
    assert mix[..|mix|] == mix;
    for i := 0 to |mix|
      invariant n == draw - Total(mix[..i]) && n >= 0
    {
      assert mix[..i + 1][..i] == mix[..i];
      if n < mix[i].weight {
        PrefixOfLine(mix, i + 1);
        return mix[i].kind;
      }
      n := n - mix[i].weight;
    }
    assert false;
    kind := FALLBACK;
  }

  lemma {:induction false} RepeatCount(kind: Kind, n: nat, k: Kind)
    ensures multiset(seq(n, _ => kind))[k] == if k == kind then n else 0
  {
    var s := seq(n, _ => kind);
    if n > 0 {
      RepeatCount(kind, n - 1, k);
      assert s == seq(n - 1, _ => kind) + [kind];
    }
  }

  /** Each kind gets exactly its weight of the draws. */
  lemma {:induction false} EachKindGetsItsWeight(mix: seq<Share>, kind: Kind)
    ensures multiset(Line(mix))[kind] == Weight(mix, kind)
  {
    if mix != [] {
      var last := mix[|mix| - 1];
      EachKindGetsItsWeight(mix[..|mix| - 1], kind);
      RepeatCount(last.kind, last.weight, kind);
    }
  }

  // ---- results -----------------------------------------------------------------------------------

  datatype Stat = Stat(count: nat, codes: map<int, nat>)

  datatype Results = Results(byKind: map<Kind, Stat>, byCode: map<int, nat>, latencies: seq<int>)

  function StatOf(r: Results, kind: Kind): Stat {
    if kind in r.byKind then r.byKind[kind] else Stat(0, map[])
  }

  function Bump<K>(m: map<K, nat>, k: K): map<K, nat> {
    m[k := Get(m, k) + 1]
  }

  /** record. */
  function Record(r: Results, kind: Kind, code: int, d: int): Results {
    var s := StatOf(r, kind);
    Results(r.byKind[kind := Stat(s.count + 1, Bump(s.codes, code))], Bump(r.byCode, code), r.latencies + [d])
  }

  datatype Sample = Sample(kind: Kind, code: int, latency: int)

  function RecordAll(samples: seq<Sample>): Results {
    if samples == [] then Results(map[], map[], [])
    else
      var x := samples[|samples| - 1];
      Record(RecordAll(samples[..|samples| - 1]), x.kind, x.code, x.latency)
  }

  function CountsOf(byKind: map<Kind, Stat>): map<Kind, nat> {
    map k | k in byKind :: byKind[k].count
  }

  function CodeByKind(byKind: map<Kind, Stat>, code: int): map<Kind, nat> {
    map k | k in byKind :: Get(byKind[k].codes, code)
  }

  ghost predicate Consistent(r: Results) {
    && Sum(CountsOf(r.byKind)) == |r.latencies| == Sum(r.byCode)
    && (forall k :: k in r.byKind ==> Sum(r.byKind[k].codes) == r.byKind[k].count)
    && (forall code :: Sum(CodeByKind(r.byKind, code)) == Get(r.byCode, code))
  }

  lemma CountsAfter(r: Results, kind: Kind, code: int, d: int)
    ensures var r' := Record(r, kind, code, d);
      && Sum(CountsOf(r'.byKind)) == Sum(CountsOf(r.byKind)) + 1
      && Sum(r'.byCode) == Sum(r.byCode) + 1
  {
    var r', s := Record(r, kind, code, d), StatOf(r, kind);
    SumUpdate(r.byCode, code, Get(r.byCode, code) + 1);
    SumUpdate(CountsOf(r.byKind), kind, s.count + 1);
    assert CountsOf(r'.byKind) == CountsOf(r.byKind)[kind := s.count + 1];
  }

  lemma CodeByKindUpdate(byKind: map<Kind, Stat>, kind: Kind, s: Stat, c: int)
    ensures CodeByKind(byKind[kind := s], c) == CodeByKind(byKind, c)[kind := Get(s.codes, c)]
  {
  }

  lemma CodeAfter(r: Results, kind: Kind, code: int, d: int, c: int)
    ensures var r' := Record(r, kind, code, d);
      Sum(CodeByKind(r'.byKind, c)) == Sum(CodeByKind(r.byKind, c)) + if c == code then 1 else 0
  {
    var s := StatOf(r, kind);
    var v := Get(Bump(s.codes, code), c);
    SumUpdate(CodeByKind(r.byKind, c), kind, v);
    CodeByKindUpdate(r.byKind, kind, Stat(s.count + 1, Bump(s.codes, code)), c);
  }

  lemma RecordKeepsConsistent(r: Results, kind: Kind, code: int, d: int)
    requires Consistent(r)
    ensures Consistent(Record(r, kind, code, d))
  {
    var s := StatOf(r, kind);
    CountsAfter(r, kind, code, d);
    SumUpdate(s.codes, code, Get(s.codes, code) + 1);
    forall c
      ensures Sum(CodeByKind(Record(r, kind, code, d).byKind, c)) == Get(Record(r, kind, code, d).byCode, c)
    {
      CodeAfter(r, kind, code, d, c);
    }
  }

  /** Per-kind counts, per-code counts and the latency list always agree: every total is the number of
      samples, every kind's codes sum to its count, and every code's total is its sum over the kinds. */
  lemma {:induction false} TalliesAgree(samples: seq<Sample>)
    ensures Consistent(RecordAll(samples)) && |RecordAll(samples).latencies| == |samples|
  {
    if samples != [] {
      var x := samples[|samples| - 1];
      TalliesAgree(samples[..|samples| - 1]);
      RecordKeepsConsistent(RecordAll(samples[..|samples| - 1]), x.kind, x.code, x.latency);
    } else {
      assert CountsOf(map[]) == map[];
      forall c ensures Sum(CodeByKind(map[], c)) == 0 {
        assert CodeByKind(map[], c) == map[];
      }
    }
  }

  function CountSamples(samples: seq<Sample>, p: Sample -> bool): nat {
    if samples == [] then 0
    else CountSamples(samples[..|samples| - 1], p) + if p(samples[|samples| - 1]) then 1 else 0
  }

  predicate OfKind(x: Sample, kind: Kind) { x.kind == kind }

  predicate OfKindAndCode(x: Sample, kind: Kind, code: int) { x.kind == kind && x.code == code }

  /** Each number that print shows is the number of the samples it is about, and the latencies are those of
      the samples, in order. */
  lemma {:induction false} TalliesCountSamples(samples: seq<Sample>, kind: Kind, code: int)
    ensures var r := RecordAll(samples);
      && StatOf(r, kind).count == CountSamples(samples, x => OfKind(x, kind))
      && Get(StatOf(r, kind).codes, code) == CountSamples(samples, x => OfKindAndCode(x, kind, code))
      && Get(r.byCode, code) == CountSamples(samples, (x: Sample) => x.code == code)
      && r.latencies == seq(|samples|, i requires 0 <= i < |samples| => samples[i].latency)
  {
    if samples != [] {
      TalliesCountSamples(samples[..|samples| - 1], kind, code);
    }
  }

  class Tally {
    var r: Results

    constructor ()
      ensures r == RecordAll([])
    {
      r := Results(map[], map[], []);
    }

    /** record, with the stat of a new kind created on first use. */
    method RecordSample(kind: Kind, code: int, d: int)
      modifies this
      ensures r == Record(old(r), kind, code, d)
    {
      var byKind := r.byKind;
      if kind !in byKind {
        byKind := byKind[kind := Stat(0, map[])];
      }
      var s := byKind[kind];
      s := s.(count := s.count + 1);
      s := s.(codes := Bump(s.codes, code));
      byKind := byKind[kind := s];
      assert byKind == r.byKind[kind := s];
      r := Results(byKind, Bump(r.byCode, code), r.latencies + [d]);
    }
  }
}
