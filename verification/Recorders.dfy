/** The nested response recorders of the access log, the metrics and the tracing layer, and what they
    report about a response that may end in a recovered panic. */
module Recorders {

  /** What a handler does to its ResponseWriter. `accepted` is the byte count the connection returns. */
  datatype Op = WriteHeader(code: int) | Write(accepted: nat)

  /** What a recorder holds: initially status 200, no header and nothing written. */
  datatype Record = Record(status: int, wroteHeader: bool, written: int)

  const FRESH := Record(200, false, 0)

  function Step(r: Record, op: Op): Record {
    match op
    case WriteHeader(code) => if r.wroteHeader then r else Record(code, true, r.written)
    case Write(n) =>
      if r.wroteHeader then r.(written := r.written + n) else Record(200, true, r.written + n)
  }

  function After(ops: seq<Op>): Record {
    if ops == [] then FRESH else Step(After(ops[..|ops| - 1]), ops[|ops| - 1])
  }

  // ---- The client's side ------------------------------------------------------------------------

  /** The final status net/http sends, and whether it is settled; 200 if the handler never says. */
  datatype Sent = Sent(status: int, settled: bool)

  /** An informational response does not settle the final status. */
  predicate Informational(code: int) {
    100 <= code <= 199 && code != 101
  }

  function Settle(w: Sent, code: int): Sent {
    if w.settled || Informational(code) then w else Sent(code, true)
  }

  /** What reaches the connection: the recorders pass on one WriteHeader, and every Write. */
  function SentStep(r: Record, w: Sent, op: Op): Sent {
    match op
    case WriteHeader(code) => if r.wroteHeader then w else Settle(w, code)
    case Write(_) => Settle(w, 200)
  }

  function SentAfter(ops: seq<Op>): Sent {
    if ops == [] then Sent(200, false)
    else
      var front := ops[..|ops| - 1];
      SentStep(After(front), SentAfter(front), ops[|ops| - 1])
  }

  // ---- The stack on the heap -----------------------------------------------------------------------

  /** The two statusRecorders and the responseRecorder; the tracing one does not count bytes. */
  class Recorder {
    const counts: bool
    var status: int
    var wroteHeader: bool
    var written: int

    constructor (counts: bool)
      ensures Holds(FRESH) && this.counts == counts
    {
      this.counts := counts;
      status, wroteHeader, written := 200, false, 0;
    }

    ghost predicate Holds(v: Record)
      reads this
    {
      status == v.status && wroteHeader == v.wroteHeader && (counts ==> written == v.written)
    }
  }

  class Wire {
    var sent: Sent

    constructor ()
      ensures sent == Sent(200, false)
    {
      sent := Sent(200, false);
    }
  }

  ghost predicate Distinct(stack: seq<Recorder>) {
    forall i, j :: 0 <= i < j < |stack| ==> stack[i] != stack[j]
  }

  /** The recorders from k outwards all hold v. */
  ghost predicate InStep(stack: seq<Recorder>, k: nat, v: Record)
    reads stack
  {
    forall i :: k <= i < |stack| ==> stack[i].Holds(v)
  }

  /** WriteHeader on recorder k, forwarded outwards: stack[0] is the innermost recorder. */
  method ForwardHeader(stack: seq<Recorder>, wire: Wire, k: nat, code: int, ghost v: Record)
    requires k <= |stack| && Distinct(stack) && InStep(stack, k, v)
    modifies stack[k..], wire
    ensures InStep(stack, k, Step(v, WriteHeader(code)))
    ensures wire.sent ==
      if k < |stack| && v.wroteHeader then old(wire.sent) else Settle(old(wire.sent), code)
    decreases |stack| - k
  {
    if k == |stack| {
      wire.sent := Settle(wire.sent, code);
      return;
    }
    assert stack[k..][0] == stack[k] && stack[k..][1..] == stack[k + 1..];
    assert stack[k].Holds(v);
    if stack[k].wroteHeader {
      return;
    }
    stack[k].status, stack[k].wroteHeader := code, true;
    ForwardHeader(stack, wire, k + 1, code, v);
  }

  /** Write on recorder k, forwarded outwards; the connection accepts n bytes. */
  method ForwardWrite(stack: seq<Recorder>, wire: Wire, k: nat, n: nat, ghost v: Record)
      returns (accepted: nat)
    requires k <= |stack| && Distinct(stack) && InStep(stack, k, v)
    modifies stack[k..], wire
    ensures accepted == n && InStep(stack, k, Step(v, Write(n)))
    ensures wire.sent == Settle(old(wire.sent), 200)
    decreases |stack| - k
  {
    if k == |stack| {
      wire.sent := Settle(wire.sent, 200);
      return n;
    }
    assert stack[k..][0] == stack[k] && stack[k..][1..] == stack[k + 1..];
    assert stack[k].Holds(v);
    ghost var w := v;
    if !stack[k].wroteHeader {
      ForwardHeader(stack, wire, k, 200, v);
      w := Step(v, WriteHeader(200));
    }
    assert stack[k].Holds(w);
    accepted := ForwardWrite(stack, wire, k + 1, n, w);
    if stack[k].counts {
      stack[k].written := stack[k].written + accepted;
    }
  }

  /** A handler's calls on the innermost of any number of recorders keep all of them in step. */
  method Respond(stack: seq<Recorder>, wire: Wire, ops: seq<Op>)
    requires stack != [] && Distinct(stack) && InStep(stack, 0, FRESH)
    requires wire.sent == Sent(200, false)
    modifies stack, wire
    ensures InStep(stack, 0, After(ops)) && wire.sent == SentAfter(ops)
  {
    assert stack[0..] == stack;
    for i := 0 to |ops|
      invariant InStep(stack, 0, After(ops[..i])) && wire.sent == SentAfter(ops[..i])
    {
      assert ops[..i + 1][..i] == ops[..i];
      match ops[i] {
        case WriteHeader(code) => ForwardHeader(stack, wire, 0, code, After(ops[..i]));
        case Write(n) => var accepted := ForwardWrite(stack, wire, 0, n, After(ops[..i]));
      }
    }
    assert ops[..|ops|] == ops;
  }

  // ---- What the recorders report --------------------------------------------------------------------

  function FirstStatus(ops: seq<Op>): int {
    if ops != [] && ops[0].WriteHeader? then ops[0].code else 200
  }

  function Accepted(ops: seq<Op>): nat {
    if ops == [] then 0
    else Accepted(ops[..|ops| - 1])
         + if ops[|ops| - 1].Write? then ops[|ops| - 1].accepted else 0
  }

  /** The first call decides the status; the byte count is what the connection accepted. */
  lemma {:induction false} RecordMeans(ops: seq<Op>)
    ensures After(ops) == Record(FirstStatus(ops), ops != [], Accepted(ops))
  {
    if ops != [] {
      RecordMeans(ops[..|ops| - 1]);
    }
  }

  /** What Recover adds after a panic: writeError with status 500 and a body. */
  function Recovered(ops: seq<Op>, body: nat): seq<Op> {
    ops + [WriteHeader(500), Write(body)]
  }

  /** A panic before any header is a 500 everywhere; after one, the status sent first stands. */
  lemma PanicStatus(ops: seq<Op>, body: nat)
    ensures After(Recovered(ops, body)).status == if ops == [] then 500 else FirstStatus(ops)
    ensures After(Recovered(ops, body)).written == Accepted(ops) + body
  {
    var all := Recovered(ops, body);
    RecordMeans(all);
    assert all[..|all| - 1] == ops + [WriteHeader(500)];
    assert (ops + [WriteHeader(500)])[..|ops|] == ops;
  }

  /** The recorded status is the one the client gets exactly when the first call is not an
      informational WriteHeader: the recorders take that for the final status and then swallow it. */
  lemma {:induction false} RecordedIsSentIff(ops: seq<Op>)
    ensures SentAfter(ops).status == After(ops).status <==>
      !(ops != [] && ops[0].WriteHeader? && 100 <= ops[0].code <= 199 && ops[0].code != 101)
    ensures ops != [] && ops[0].WriteHeader? && Informational(ops[0].code) ==>
      SentAfter(ops).status == 200
    ensures ops != [] && !(ops[0].WriteHeader? && Informational(ops[0].code)) ==>
      SentAfter(ops).settled
  {
    RecordMeans(ops);
    if ops != [] {
      var front := ops[..|ops| - 1];
      RecordMeans(front);
      RecordedIsSentIff(front);
    }
  }

  // ---- The span and the access-log line ------------------------------------------------------------------

  datatype SpanStatus = Unset | Error | Ok

  /** Set Status of the OpenTelemetry Trace API: Ok is final, and Unset never overwrites. */
  function SetStatus(current: SpanStatus, value: SpanStatus): SpanStatus {
    if current == Ok || value == Unset then current else value
  }

  /** RecordPanic during the request, then the tracing middleware's own verdict on the status. */
  function SpanVerdict(panicked: bool, status: int): SpanStatus {
    var during := if panicked then SetStatus(Unset, Error) else Unset;
    SetStatus(during, if status >= 500 then Error else Ok)
  }

  /** Calls of a handler that then returns, or panics and is recovered. */
  function Response(ops: seq<Op>, panicked: bool, body: nat): seq<Op> {
    if panicked then Recovered(ops, body) else ops
  }

  /** The span ends Ok exactly when the recorded status is below 500; so a panic after a header below
      500 leaves an Ok span, and a panic before any header an Error. */
  lemma SpanOfPanic(ops: seq<Op>, body: nat)
    ensures SpanVerdict(true, After(Response(ops, true, body)).status)
      == if ops != [] && FirstStatus(ops) < 500 then Ok else Error
    ensures SpanVerdict(false, After(Response(ops, false, body)).status)
      == if FirstStatus(ops) < 500 then Ok else Error
  {
    PanicStatus(ops, body);
    RecordMeans(ops);
  }
}
