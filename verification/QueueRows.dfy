/** What no statement changes: a row keeps its creation time and its order for ever, it was inserted once
    and validated before that, and the created counters follow the rows currency by currency. */
module QueueRows {
  import opened Collections
  import opened Domain
  import opened OrderQueue
  import opened QueueOwnership
  import opened QueueFlow

  // ---- Rows keep their identity ---------------------------------------------------------------

  lemma RowStep(s: State, e: Event, id: OrderId)
    requires Enabled(s, e) && id in s.table
    ensures id in Apply(s, e).table
    ensures Apply(s, e).table[id] == s.table[id].(status := Apply(s, e).table[id].status)
  {
    StepTable(s, e);
    KeptInNewTable(s, e, id);
  }

  lemma KeptInNewTable(s: State, e: Event, id: OrderId)
    requires Enabled(s, e) && id in s.table
    ensures id in NewTable(s, e)
    ensures NewTable(s, e)[id] == s.table[id].(status := NewTable(s, e)[id].status)
  {
  }

  /** No row disappears, and no claim, mark or release touches anything but its status, in any
      continuation from any state: in particular a released order keeps its creation time. */
  lemma {:induction false} RowsKeepIdentity(s: State, run: seq<Event>, id: OrderId)
    requires IsRun(s, run) && id in s.table
    ensures id in After(s, run).table
    ensures After(s, run).table[id].createdAt == s.table[id].createdAt
    ensures After(s, run).table[id].order == s.table[id].order
    decreases |run|
  {
    if run != [] {
      var front := run[..|run| - 1];
      RowsKeepIdentity(s, front, id);
      RowStep(After(s, front), run[|run| - 1], id);
    }
  }

  // ---- Every row was inserted once ---------------------------------------------------------------

  predicate InsertsRow(e: Event, id: OrderId) {
    (e.Insert? || e.InsertLost?) && e.id == id
  }

  function Inserts(run: seq<Event>, id: OrderId): nat {
    if run == [] then 0
    else Inserts(run[..|run| - 1], id) + if InsertsRow(run[|run| - 1], id) then 1 else 0
  }

  lemma NewRowStep(s: State, e: Event, id: OrderId)
    requires Enabled(s, e) && id !in s.table
    ensures id in Apply(s, e).table <==> InsertsRow(e, id)
    ensures InsertsRow(e, id) ==> Apply(s, e).table[id] == Row(Pending, e.at, e.order)
  {
    StepTable(s, e);
  }

  /** A row exists exactly after its one insert, and holds what that insert wrote. */
  lemma {:induction false} RowsAreInsertedOnce(s: State, run: seq<Event>, id: OrderId) returns (k: nat)
    requires Init(s) && IsRun(s, run)
    ensures Inserts(run, id) == if id in After(s, run).table then 1 else 0
    ensures id in After(s, run).table ==>
      && k < |run| && InsertsRow(run[k], id) && Validate(run[k].order) == Accepted
      && After(s, run).table[id].createdAt == run[k].at && After(s, run).table[id].order == run[k].order
    decreases |run|
  {
    k := 0;
    if run != [] {
      var front, e := run[..|run| - 1], run[|run| - 1];
      k := RowsAreInsertedOnce(s, front, id);
      if id in After(s, front).table {
        RowStep(After(s, front), e, id);
      } else {
        NewRowStep(After(s, front), e, id);
        k := |run| - 1;
      }
    }
  }

  /** Whatever clients send, the table only ever holds orders with a customer, an amount within the limits
      and one of the five currencies. */
  lemma StoredOrdersAreValid(s: State, run: seq<Event>, id: OrderId)
    requires Init(s) && IsRun(s, run) && id in After(s, run).table
    ensures var o := After(s, run).table[id].order;
      && 1 <= |o.customerId| <= 64 && 1 <= o.amountCents <= 10_000_000
      && o.currency in {"USD", "EUR", "GBP", "INR", "JPY"}
  {
    var k := RowsAreInsertedOnce(s, run, id);
    AcceptedIff(run[k].order);
  }

  // ---- orders_created_total ---------------------------------------------------------------------

  function CurrencyOf(s: State, id: OrderId): string {
    if id in s.table then s.table[id].order.currency else ""
  }

  /** The series that PreInit and the OrderCreated calls of the run leave. */
  ghost function CreatedTotal(s: State, run: seq<Event>): map<string, nat>
    requires IsRun(s, run)
    decreases |run|
  {
    if run == [] then map c | c in SUPPORTED_CURRENCIES :: 0
    else
      var front, e := run[..|run| - 1], run[|run| - 1];
      var total := CreatedTotal(s, front);
      if !e.CountCreate? then total
      else
        var c := CurrencyOf(After(s, front), e.id);
        total[c := Get(total, c) + 1]
  }

  /** The orders_created_total metric never has a currency label outside the five supported ones. */
  lemma {:induction false} CurrencyLabelsAreClosed(s: State, run: seq<Event>)
    requires Init(s) && IsRun(s, run)
    ensures CreatedTotal(s, run).Keys == {"USD", "EUR", "GBP", "INR", "JPY"}
    decreases |run|
  {
    if run == [] {
      FiveCurrencies();
    } else {
      var front, e := run[..|run| - 1], run[|run| - 1];
      CurrencyLabelsAreClosed(s, front);
      if e.CountCreate? {
        CallsAlwaysHaveRows(s, front);
        StoredOrdersAreValid(s, front, e.id);
      }
    }
  }

  function RowsIn(t: Table, currency: string): set<OrderId> {
    set id | id in t && t[id].order.currency == currency
  }

  /** The createOrder calls that have yet to count an order in this currency. */
  function CallsIn(s: State, currency: string): set<OrderId> {
    RowsIn(s.table, currency) * s.creating
  }

  /** One if the event leaves an order in this currency uncounted for good. */
  function Misses(s: State, e: Event, currency: string): nat {
    if e.InsertLost? && e.order.currency == currency then 1
    else if e.DropCreate? && CurrencyOf(s, e.id) == currency then 1
    else 0
  }

  ghost function Missed(s: State, run: seq<Event>, currency: string): nat
    requires IsRun(s, run)
    decreases |run|
  {
    if run == [] then 0
    else
      var front := run[..|run| - 1];
      Missed(s, front, currency) + Misses(After(s, front), run[|run| - 1], currency)
  }

  function Counts(s: State, e: Event, currency: string): nat {
    if e.CountCreate? && CurrencyOf(s, e.id) == currency then 1 else 0
  }

  lemma CurrencyStep(s: State, e: Event, currency: string)
    requires CallsHaveRows(s) && Enabled(s, e)
    ensures |RowsIn(Apply(s, e).table, currency)| - |RowsIn(s.table, currency)|
      == |CallsIn(Apply(s, e), currency)| - |CallsIn(s, currency)|
         + Counts(s, e, currency) + Misses(s, e, currency)
  {
    if e.Insert? || e.InsertLost? {
      InsertInCurrency(s.table, e.id, Row(Pending, e.at, e.order), s.creating, currency);
    } else {
      SameRowsIn(s, e, currency);
      CallsStepInCurrency(s, e, currency);
    }
  }

  lemma SameRowsIn(s: State, e: Event, currency: string)
    requires Enabled(s, e) && !e.Insert? && !e.InsertLost?
    ensures RowsIn(Apply(s, e).table, currency) == RowsIn(s.table, currency)
  {
    StepTable(s, e);
    forall id | id in s.table
      ensures id in NewTable(s, e) && NewTable(s, e)[id].order == s.table[id].order
    {
      KeptInNewTable(s, e, id);
    }
    assert NewTable(s, e).Keys == s.table.Keys;
  }

  lemma InsertInCurrency(t: Table, id: OrderId, row: Row, creating: set<OrderId>, currency: string)
    requires id !in t && id !in creating
    ensures var more, rows, rows' :=
        if row.order.currency == currency then 1 else 0, RowsIn(t, currency), RowsIn(t[id := row], currency);
      && |rows'| == |rows| + more && |rows' * creating| == |rows * creating|
      && |rows' * (creating + {id})| == |rows * creating| + more
  {
    var rows, rows' := RowsIn(t, currency), RowsIn(t[id := row], currency);
    RowsWith(t, id, row, currency);
    WithOneMore(rows, rows', creating, id);
  }

  lemma RowsWith(t: Table, id: OrderId, row: Row, currency: string)
    requires id !in t
    ensures var rows, rows' := RowsIn(t, currency), RowsIn(t[id := row], currency);
      id !in rows && rows' == if row.order.currency == currency then rows + {id} else rows
  {
  }

  lemma WithOneMore(rows: set<OrderId>, rows': set<OrderId>, creating: set<OrderId>, id: OrderId)
    requires id !in rows && id !in creating && (rows' == rows + {id} || rows' == rows)
    ensures |rows'| == |rows| + (if id in rows' then 1 else 0)
    ensures |rows' * creating| == |rows * creating|
    ensures |rows' * (creating + {id})| == |rows * creating| + if id in rows' then 1 else 0
  {
    assert rows' * creating == rows * creating;
    if id in rows' {
      assert rows' * (creating + {id}) == rows * creating + {id};
    } else {
      assert rows' * (creating + {id}) == rows * creating;
    }
  }

  lemma CallsStepInCurrency(s: State, e: Event, currency: string)
    requires CallsHaveRows(s) && Enabled(s, e) && !e.Insert? && !e.InsertLost?
    requires RowsIn(Apply(s, e).table, currency) == RowsIn(s.table, currency)
    ensures |CallsIn(s, currency)| == |CallsIn(Apply(s, e), currency)|
      + Counts(s, e, currency) + Misses(s, e, currency)
  {
    CallsAfter(s, e);
    if e.CountCreate? || e.DropCreate? {
      var rows, id := RowsIn(s.table, currency), e.id;
      if id in rows {
        assert rows * s.creating == rows * (s.creating - {id}) + {id};
      } else {
        assert rows * s.creating == rows * (s.creating - {id});
      }
    }
  }

  lemma CallsAfter(s: State, e: Event)
    requires Enabled(s, e) && !e.Insert?
    ensures Apply(s, e).creating == if e.CountCreate? || e.DropCreate? then s.creating - {e.id} else s.creating
  {
  }

  /** Currency by currency, the rows of the table are the orders counted, plus the calls that have yet to
      count, plus those that a lost reply, a panic or a crash left uncounted. */
  lemma {:induction false} CreatedPerCurrency(s: State, run: seq<Event>, currency: string)
    requires Init(s) && IsRun(s, run)
    ensures |RowsIn(After(s, run).table, currency)|
      == Get(CreatedTotal(s, run), currency) + |CallsIn(After(s, run), currency)| + Missed(s, run, currency)
    decreases |run|
  {
    if run == [] {
      assert RowsIn(s.table, currency) == {} && CallsIn(s, currency) == {};
    } else {
      var front := run[..|run| - 1];
      CreatedPerCurrency(s, front, currency);
      CallsAlwaysHaveRows(s, front);
      CurrencyStep(After(s, front), run[|run| - 1], currency);
    }
  }
}
