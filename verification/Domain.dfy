/** The closed status set, the closed transition set and the validation of new orders. */
module Domain {

  datatype Status = Pending | Processing | Paid | Failed | Cancelled

  /** One end of a transition label: the pseudo-status "new", or a real status. */
  datatype Label = New | At(status: Status)

  datatype Transition = Transition(from: Label, to: Label)

  const CREATED := Transition(New, At(Pending))
  const CLAIMED := Transition(At(Pending), At(Processing))

  function Finished(target: Status): Transition {
    Transition(At(Processing), At(target))
  }

  /** AllTransitions: the series that PreInit creates before the first event. */
  const ALL_TRANSITIONS: set<Transition> := {
    CREATED,
    CLAIMED,
    Transition(At(Processing), At(Paid)),
    Transition(At(Processing), At(Failed)),
    Transition(At(Pending), At(Cancelled)),
    Transition(At(Processing), At(Pending))
  }

  // ---- NewOrder.Validate -------------------------------------------------

  datatype NewOrder = NewOrder(customerId: string, amountCents: int, currency: string)

  datatype Reason =
    | CustomerRequired
    | CustomerTooLong
    | AmountNotPositive
    | AmountExceedsLimit
    | CurrencyNotIso
    | CurrencyUnsupported

  datatype Verdict = Accepted | Rejected(reason: Reason)

  const MAX_AMOUNT := 10_000_000
  const MAX_CUSTOMER := 64
  const SUPPORTED_CURRENCIES: seq<string> := ["USD", "EUR", "GBP", "INR", "JPY"]

  function Validate(n: NewOrder): Verdict {
    if n.customerId == "" then Rejected(CustomerRequired)
    else if |n.customerId| > MAX_CUSTOMER then Rejected(CustomerTooLong)
    else if n.amountCents <= 0 then Rejected(AmountNotPositive)
    else if n.amountCents > MAX_AMOUNT then Rejected(AmountExceedsLimit)
    else if |n.currency| != 3 then Rejected(CurrencyNotIso)
    else if n.currency !in SUPPORTED_CURRENCIES then Rejected(CurrencyUnsupported)
    else Accepted
  }

  const SOME_ORDER := NewOrder("customer", 100, "USD")

  /** An order is accepted exactly when it has a customer of at most 64 bytes, an amount within the limits
      and one of the five currencies. */
  lemma AcceptedIff(n: NewOrder)
    ensures Validate(n) == Accepted <==>
      && 1 <= |n.customerId| <= 64 && 1 <= n.amountCents <= 10_000_000
      && n.currency in {"USD", "EUR", "GBP", "INR", "JPY"}
  {
    FiveCurrencies();
  }

  lemma FiveCurrencies()
    ensures (set c | c in SUPPORTED_CURRENCIES) == {"USD", "EUR", "GBP", "INR", "JPY"}
    ensures forall c :: c in SUPPORTED_CURRENCIES ==> |c| == 3
  {
    assert SUPPORTED_CURRENCIES[0] == "USD" && SUPPORTED_CURRENCIES[1] == "EUR";
    assert SUPPORTED_CURRENCIES[2] == "GBP" && SUPPORTED_CURRENCIES[3] == "INR";
    assert SUPPORTED_CURRENCIES[4] == "JPY";
  }

  /** The field that a reason is about: customer, amount and currency, in the order of the checks. */
  function Field(r: Reason): nat {
    match r
    case CustomerRequired => 0
    case CustomerTooLong => 0
    case AmountNotPositive => 1
    case AmountExceedsLimit => 1
    case CurrencyNotIso => 2
    case CurrencyUnsupported => 2
  }

  predicate FieldIsGood(n: NewOrder, field: nat) {
    match field
    case 0 => 1 <= |n.customerId| <= 64
    case 1 => 1 <= n.amountCents <= 10_000_000
    case _ => n.currency in {"USD", "EUR", "GBP", "INR", "JPY"}
  }

  /** What each reason says about the value of its field. */
  predicate Explains(r: Reason, n: NewOrder) {
    match r
    case CustomerRequired => n.customerId == ""
    case CustomerTooLong => |n.customerId| > 64
    case AmountNotPositive => n.amountCents < 1
    case AmountExceedsLimit => n.amountCents > 10_000_000
    case CurrencyNotIso => |n.currency| != 3
    case CurrencyUnsupported => |n.currency| == 3 && n.currency !in {"USD", "EUR", "GBP", "INR", "JPY"}
  }

  /** A rejection names the first field that is wrong, and what is wrong with it. */
  lemma FirstBadField(n: NewOrder)
    requires Validate(n).Rejected?
    ensures var r := Validate(n).reason;
      && !FieldIsGood(n, Field(r)) && Explains(r, n)
      && forall earlier: nat :: earlier < Field(r) ==> FieldIsGood(n, earlier)
  {
    FiveCurrencies();
  }

  // ---- The created-value counter -----------------------------------------

  /** Orders up to which every partial sum of the float64 counter is an exact integer. */
  const EXACT_ORDERS := 900_719_925
  const TWO_53 := 0x20_0000_0000_0000

  /** The exact total that createdValue stands for. */
  function ValueTotal(orders: seq<NewOrder>): int {
    if orders == [] then 0
    else ValueTotal(orders[..|orders| - 1]) + orders[|orders| - 1].amountCents
  }

  /** float64 holds the integer exactly: it has at most 53 significant bits. */
  predicate Representable(n: nat) {
    n <= TWO_53 || (n % 2 == 0 && Representable(n / 2))
  }

  lemma {:induction false} ValueTotalGrowth(orders: seq<NewOrder>)
    requires forall o :: o in orders ==> Validate(o) == Accepted
    ensures |orders| <= ValueTotal(orders) <= |orders| * MAX_AMOUNT
  {
    if orders != [] {
      var front := orders[..|orders| - 1];
      assert orders[|orders| - 1] in orders;
      ValueTotalGrowth(front);
    }
  }

  /** Every partial sum of the counter is below 2^53 and held exactly by float64, for any 900,719,925
      accepted orders. */
  lemma ValueCounterExact(orders: seq<NewOrder>, k: nat)
    requires forall o :: o in orders ==> Validate(o) == Accepted
    requires k <= |orders| <= EXACT_ORDERS
    ensures 0 <= ValueTotal(orders[..k]) < TWO_53 && Representable(ValueTotal(orders[..k]))
  {
    ValueTotalGrowth(orders[..k]);
  }

  /** The bound is the best possible: with one accepted order more the total can be 2^53 + 1, which
      float64 does not hold. */
  lemma ValueCounterBoundIsTight() returns (orders: seq<NewOrder>)
    ensures |orders| == EXACT_ORDERS + 1 && forall o :: o in orders ==> Validate(o) == Accepted
    ensures ValueTotal(orders) == TWO_53 + 1 && !Representable(TWO_53 + 1)
  {
    var most, last := NewOrder("c", MAX_AMOUNT, "USD"), NewOrder("c", 4_740_993, "USD");
    var full := seq(EXACT_ORDERS, _ => most);
    ConstantTotal(full, most);
    orders := full + [last];
    assert orders[..EXACT_ORDERS] == full;
  }

  lemma {:induction false} ConstantTotal(orders: seq<NewOrder>, o: NewOrder)
    requires forall i :: 0 <= i < |orders| ==> orders[i] == o
    ensures ValueTotal(orders) == |orders| * o.amountCents
  {
    if orders != [] {
      ConstantTotal(orders[..|orders| - 1], o);
      assert |orders| * o.amountCents == (|orders| - 1) * o.amountCents + o.amountCents;
    }
  }
}
