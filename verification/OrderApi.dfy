/** createOrder: validate, insert, and count the event only after the insert replied. */
module OrderApi {
  import opened Domain
  import opened OrderQueue

  datatype Response = Created | Invalid(reason: Reason) | InternalError | Panicked

  /** What the database does with the insert: replies, refuses it, or commits it and the reply is lost. */
  datatype InsertFate = Answers | Refused | CommitsUnheard

  /** The response to a valid order whose identifier is free or taken; `panics` strikes after the insert. */
  function ResponseTo(taken: bool, fate: InsertFate, panics: bool): Response {
    if taken || fate != Answers then InternalError else if panics then Panicked else Created
  }

  /** The step is one of a createOrder call that makes one of these orders. */
  predicate OfCalls(e: Event, own: set<OrderId>) {
    (e.Insert? || e.InsertLost? || e.CountCreate? || e.DropCreate?) && e.id in own
  }

  /** The service around one call: the queue, and the steps that everybody has taken. */
  class Service {
    ghost const start: State
    var st: State
    ghost var run: seq<Event>

    ghost predicate Valid()
      reads this
    {
      Init(start) && IsRun(start, run) && st == After(start, run)
    }

    constructor (start: State)
      requires Init(start)
      ensures Valid() && run == [] && st == start
    {
      this.start, this.st := start, start;
      run := [];
    }

    method Do(e: Event)
      requires Valid() && Enabled(st, e)
      modifies this
      ensures Valid() && st == Apply(old(st), e) && run == old(run) + [e]
    {
      st := Apply(st, e);
      run := run + [e];
      assert run[..|run| - 1] == old(run);
    }

    /** Any steps of the workers, the server and the other requests, in any number; `own` are the orders
        whose insert and count only this call makes. */
    method Others(own: set<OrderId>) returns (ghost steps: seq<Event>)
      requires Valid()
      modifies this
      ensures Valid() && run == old(run) + steps
      ensures forall e :: e in steps ==> !OfCalls(e, own)
      ensures old(st.table).Keys <= st.table.Keys
      ensures forall id :: id in own ==> (id in st.creating <==> id in old(st.creating))
    {
      var script: seq<Event> := *;
      steps := [];
      for i := 0 to |script|
        invariant Valid() && run == old(run) + steps
        invariant forall e :: e in steps ==> !OfCalls(e, own)
        invariant old(st.table).Keys <= st.table.Keys
        invariant forall id :: id in own ==> (id in st.creating <==> id in old(st.creating))
      {
        if Enabled(st, script[i]) && !OfCalls(script[i], own) {
          Do(script[i]);
          steps := steps + [script[i]];
        }
      }
    }

    /** createOrder on a decoded body. `before` is the run up to its insert, `between` the steps that the
        others take until it counts the order. A taken identifier makes the insert fail, and a panic or
        crash after the insert leaves the order uncounted. */
    method CreateOrder(n: NewOrder, id: OrderId, at: int, fate: InsertFate, panics: bool)
        returns (r: Response, ghost before: seq<Event>, ghost between: seq<Event>)
      requires Valid()
      modifies this
      ensures Valid() && old(run) <= before && IsRun(start, before)
      ensures forall e :: e in between ==> !OfCalls(e, {id})
      ensures r == match Validate(n)
                   case Rejected(reason) => Invalid(reason)
                   case Accepted => ResponseTo(id in After(start, before).table, fate, panics)
      ensures r.Invalid? ==> run == before
      ensures r.Created? ==> run == before + [Insert(id, at, n)] + between + [CountCreate(id)]
      ensures r.Panicked? ==> run == before + [Insert(id, at, n)] + between + [DropCreate(id)]
      ensures r.InternalError? ==>
        if fate.CommitsUnheard? && id !in After(start, before).table then run == before + [InsertLost(id, at, n)]
        else run == before
      ensures r.Created? || r.Panicked? ==> id in st.table && id !in st.creating
    {
      ghost var first := Others({});
      before, between := run, [];
      match Validate(n) {
        case Rejected(reason) =>
          return Invalid(reason), before, between;
        case Accepted =>
      }
      r := InternalError;
      if id in st.table || fate.Refused? {
        return;
      }
      if fate.CommitsUnheard? {
        Do(InsertLost(id, at, n));
        return;
      }
      Do(Insert(id, at, n));
      between := Others({id});
      if panics {
        Do(DropCreate(id));
        r := Panicked;
      } else {
        Do(CountCreate(id));
        r := Created;
      }
    }
  }
}
