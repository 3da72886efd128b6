/**
 * The mobile-money check of test_zambian_features.py: it builds a street
 * vendor's month of transactions, summarises them, scores how much they look
 * like a business, classifies the vendor and, for a business, works out the
 * turnover tax.
 *
 * The script's division and tax are floating point; here the average and the
 * tax are exact reals. The printed report and the USSD and language sections,
 * which only print fixed text, are not modelled.
 */
module ZambianFeatures {
  import opened Strings
  import Query

  const Receive: string := "receive"
  const CustomerPrefix: string := "customer_"
  const Days: nat := 25
  const CustomersPerDay: nat := 15
  const BaseAmount: int := 30
  const AmountStep: int := 5

  datatype Transaction = Transaction(kind: string, amount: int, customer: string)

  // ---------------------------------------------------------------------------
  // The generated transactions
  // ---------------------------------------------------------------------------

  /** `f'customer_{day}_{customer}'`. */
  function CustomerKey(day: nat, customer: nat): string {
    CustomerPrefix + NatToString(day) + "_" + NatToString(customer)
  }

  /** The sale to customer number `customer` on day `day`: a receipt of 30 + 5·customer. */
  function Sale(day: nat, customer: nat): Transaction {
    Transaction(Receive, BaseAmount + customer * AmountStep, CustomerKey(day, customer))
  }

  /** One day's sales, customer by customer. */
  function DaySales(day: nat, customers: nat): (ts: seq<Transaction>)
    ensures |ts| == customers
    ensures forall c :: 0 <= c < customers ==> ts[c] == Sale(day, c)
  {
    seq(customers, c requires 0 <= c => Sale(day, c))
  }

  /** The sales of the first `days` days, in the order of the two loops. */
  function Generated(days: nat, customers: nat): (ts: seq<Transaction>)
    ensures |ts| == days * customers
  {
    if days == 0 then []
    else
      var earlier := Generated(days - 1, customers);
      assert (days - 1) * customers + customers == days * customers;
      earlier + DaySales(days - 1, customers)
  }

  /** The two nested loops that append the sales. */
  method GenerateTransactions(days: nat, customers: nat) returns (transactions: seq<Transaction>)
    ensures transactions == Generated(days, customers)
  {
    transactions := [];
    for day := 0 to days
      invariant transactions == Generated(day, customers)
    {
      ghost var sales := DaySales(day, customers);
      for customer := 0 to customers
        invariant transactions == Generated(day, customers) + sales[..customer]
      {
        transactions := transactions + [Sale(day, customer)];
        assert sales[..customer + 1] == sales[..customer] + [sales[customer]];
      }
      assert sales[..customers] == sales;
    }
  }

  // ---------------------------------------------------------------------------
  // The summary
  // ---------------------------------------------------------------------------

  predicate IsReceive(t: Transaction) {
    t.kind == Receive
  }

  /** `len([t for t in transactions if t['type'] == 'receive'])`. */
  function ReceiveCount(ts: seq<Transaction>): nat {
    |Query.Where(ts, IsReceive)|
  }

  /** `sum(t['amount'] for t in transactions if t['type'] == 'receive')`. */
  function Revenue(ts: seq<Transaction>): (total: int)
    ensures (forall i :: 0 <= i < |ts| ==> ts[i].amount >= 0) ==> total >= 0
  {
    if ts == [] then 0 else (if IsReceive(ts[0]) then ts[0].amount else 0) + Revenue(ts[1..])
  }

  /** `set(t['customer'] for t in transactions)`: every transaction counts, whatever its type. */
  function Customers(ts: seq<Transaction>): (r: set<string>)
    ensures forall i :: 0 <= i < |ts| ==> ts[i].customer in r
  {
    set i | 0 <= i < |ts| :: ts[i].customer
  }

  lemma {:induction false} RevenueAppend(a: seq<Transaction>, b: seq<Transaction>)
    ensures Revenue(a + b) == Revenue(a) + Revenue(b)
    decreases |a|
  {
    if a == [] {
      assert a + b == b;
    } else {
      assert (a + b)[1..] == a[1..] + b;
      RevenueAppend(a[1..], b);
    }
  }

  lemma CustomersAppend(a: seq<Transaction>, b: seq<Transaction>)
    ensures Customers(a + b) == Customers(a) + Customers(b)
  {
    var ab := a + b;
    forall x | x in Customers(a)
      ensures x in Customers(ab)
    {
      var i :| 0 <= i < |a| && a[i].customer == x;
      assert ab[i] == a[i];
    }
    forall x | x in Customers(ab)
      ensures x in Customers(a) + Customers(b)
    {
      var i :| 0 <= i < |ab| && ab[i].customer == x;
      if i >= |a| {
        assert b[i - |a|] == ab[i];
      }
    }
    forall x | x in Customers(b)
      ensures x in Customers(ab)
    {
      var i :| 0 <= i < |b| && b[i].customer == x;
      assert ab[|a| + i] == b[i];
    }
  }

  /** The key names the day and the customer: two different sales have different customers. */
  lemma CustomerKeyInjective(d1: nat, c1: nat, d2: nat, c2: nat)
    requires CustomerKey(d1, c1) == CustomerKey(d2, c2)
    ensures d1 == d2 && c1 == c2
  {
    var a1, b1 := NatToString(d1), NatToString(c1);
    var a2, b2 := NatToString(d2), NatToString(c2);
    var s1, s2 := a1 + "_" + b1, a2 + "_" + b2;
    assert CustomerKey(d1, c1) == CustomerPrefix + s1;
    assert CustomerKey(d2, c2) == CustomerPrefix + s2;
    assert s1 == s2 by {
      assert s1 == CustomerKey(d1, c1)[|CustomerPrefix|..];
      assert s2 == CustomerKey(d2, c2)[|CustomerPrefix|..];
    }
    DigitsBeforeSeparator(a1, b1, a2, b2);
    NatToStringInjective(d1, d2);
    NatToStringInjective(c1, c2);
  }

  /** Digits followed by `_`: the first `_` ends the digits, so both parts are recovered. */
  lemma DigitsBeforeSeparator(a1: string, b1: string, a2: string, b2: string)
    requires forall c :: c in a1 ==> IsDigit(c)
    requires forall c :: c in a2 ==> IsDigit(c)
    requires a1 + "_" + b1 == a2 + "_" + b2
    ensures a1 == a2 && b1 == b2
  {
    var s := a1 + "_" + b1;
    UnderscoreAfterDigits(a1, b1);
    UnderscoreAfterDigits(a2, b2);
    assert a1 == s[..|a1|] == a2;
    assert b1 == s[|a1| + 1..] == b2;
  }

  lemma UnderscoreAfterDigits(a: string, b: string)
    requires forall c :: c in a ==> IsDigit(c)
    ensures IndexOf(a + "_" + b, "_") == Some(|a|)
  {
    var s := a + "_" + b;
    assert s[|a|..|a| + 1] == "_";
    OccursImpliesContains(s, "_", |a|);
    forall j | 0 <= j < |a|
      ensures !OccursAt(s, "_", j)
    {
      assert s[j..j + 1] == [a[j]];
      assert a[j] in a;
    }
    assert OccursAt(s, "_", |a|);
    var r := IndexOf(s, "_");
    assert r.Some? && OccursAt(s, "_", r.value);
    assert r.value >= |a|;
    assert r.value <= |a|;
  }

  /** A day's customers are that day's keys. */
  lemma DayCustomerKeys(day: nat, customers: nat)
    ensures forall x :: x in Customers(DaySales(day, customers)) ==> exists c :: 0 <= c < customers && x == CustomerKey(day, c)
  {
    var sales := DaySales(day, customers);
    forall x | x in Customers(sales)
      ensures exists c :: 0 <= c < customers && x == CustomerKey(day, c)
    {
      var i :| 0 <= i < |sales| && sales[i].customer == x;
      assert x == CustomerKey(day, i);
    }
  }

  /** Each day brings `customers` new customers. */
  lemma {:induction false} DayCustomers(day: nat, customers: nat)
    ensures |Customers(DaySales(day, customers))| == customers
  {
    var sales := DaySales(day, customers);
    if customers > 0 {
      var last := customers - 1;
      var earlier := DaySales(day, last);
      DayCustomers(day, last);
      assert sales == earlier + [Sale(day, last)];
      CustomersAppend(earlier, [Sale(day, last)]);
      assert Customers([Sale(day, last)]) == {CustomerKey(day, last)};
      NewCustomer(day, last);
    } else {
      assert Customers(sales) == {};
    }
  }

  lemma NewCustomer(day: nat, last: nat)
    ensures CustomerKey(day, last) !in Customers(DaySales(day, last))
  {
    DayCustomerKeys(day, last);
    if CustomerKey(day, last) in Customers(DaySales(day, last)) {
      var c :| 0 <= c < last && CustomerKey(day, last) == CustomerKey(day, c);
      CustomerKeyInjective(day, last, day, c);
    }
  }

  /** The month's customers are keys of its days and customer numbers. */
  lemma {:induction false} GeneratedCustomerKeys(days: nat, customers: nat)
    ensures forall x :: x in Customers(Generated(days, customers)) ==>
      exists d, c :: 0 <= d < days && 0 <= c < customers && x == CustomerKey(d, c)
  {
    if days == 0 {
      assert Customers(Generated(days, customers)) == {};
    } else {
      GeneratedCustomerKeys(days - 1, customers);
      DayCustomerKeys(days - 1, customers);
      CustomersAppend(Generated(days - 1, customers), DaySales(days - 1, customers));
    }
  }

  /** A day's customers are new: none of them bought on an earlier day. */
  lemma EarlierDaysDisjoint(days: nat, customers: nat)
    requires days > 0
    ensures Customers(Generated(days - 1, customers)) * Customers(DaySales(days - 1, customers)) == {}
  {
    var earlier := Customers(Generated(days - 1, customers));
    var today := Customers(DaySales(days - 1, customers));
    GeneratedCustomerKeys(days - 1, customers);
    DayCustomerKeys(days - 1, customers);
    forall x | x in earlier
      ensures x !in today
    {
      var d, c :| 0 <= d < days - 1 && 0 <= c < customers && x == CustomerKey(d, c);
      if x in today {
        var c2 :| 0 <= c2 < customers && x == CustomerKey(days - 1, c2);
        CustomerKeyInjective(d, c, days - 1, c2);
      }
    }
  }

  /** Every customer key is distinct: the month has days·customers different customers. */
  lemma {:induction false} GeneratedCustomers(days: nat, customers: nat)
    ensures |Customers(Generated(days, customers))| == days * customers
  {
    if days == 0 {
      assert Customers(Generated(days, customers)) == {};
    } else {
      GeneratedCustomers(days - 1, customers);
      DayCustomers(days - 1, customers);
      CustomersAppend(Generated(days - 1, customers), DaySales(days - 1, customers));
      EarlierDaysDisjoint(days, customers);
      assert (days - 1) * customers + customers == days * customers;
    }
  }

  /** What one day of sales takes in: 30 + 35 + … over its customers. */
  function DayTotal(customers: nat): int {
    if customers == 0 then 0 else DayTotal(customers - 1) + BaseAmount + (customers - 1) * AmountStep
  }

  /** The arithmetic series in closed form: 2·total = 60n + 5n(n − 1). */
  lemma {:induction false} DayTotalClosedForm(n: nat)
    ensures 2 * DayTotal(n) == 60 * n + 5 * n * (n - 1)
  {
    if n > 0 {
      DayTotalClosedForm(n - 1);
      assert 5 * (n - 1) * (n - 2) + 10 * (n - 1) == 5 * n * (n - 1);
    }
  }

  lemma {:induction false} DayRevenue(day: nat, customers: nat)
    ensures Revenue(DaySales(day, customers)) == DayTotal(customers)
  {
    if customers > 0 {
      DayRevenue(day, customers - 1);
      assert DaySales(day, customers) == DaySales(day, customers - 1) + [Sale(day, customers - 1)];
      RevenueAppend(DaySales(day, customers - 1), [Sale(day, customers - 1)]);
    }
  }

  /** Every day takes in the same: the month's revenue is days times a day's. */
  lemma {:induction false} GeneratedRevenue(days: nat, customers: nat)
    ensures Revenue(Generated(days, customers)) == days * DayTotal(customers)
  {
    if days > 0 {
      GeneratedRevenue(days - 1, customers);
      RevenueAppend(Generated(days - 1, customers), DaySales(days - 1, customers));
      DayRevenue(days - 1, customers);
      assert (days - 1) * DayTotal(customers) + DayTotal(customers) == days * DayTotal(customers);
    }
  }

  /** Every generated transaction is a receipt. */
  lemma GeneratedAllReceive(days: nat, customers: nat)
    ensures ReceiveCount(Generated(days, customers)) == days * customers
  {
    var ts := Generated(days, customers);
    assert forall i :: 0 <= i < |ts| ==> IsReceive(ts[i]) by {
      GeneratedAreSales(days, customers);
    }
    Query.WhereAll(ts, IsReceive);
  }

  lemma {:induction false} GeneratedAreSales(days: nat, customers: nat)
    ensures forall i :: 0 <= i < |Generated(days, customers)| ==> Generated(days, customers)[i].kind == Receive
  {
    if days > 0 {
      GeneratedAreSales(days - 1, customers);
      var earlier, today := Generated(days - 1, customers), DaySales(days - 1, customers);
      assert forall i :: |earlier| <= i < |earlier| + |today| ==> (earlier + today)[i] == today[i - |earlier|];
    }
  }

  // ---------------------------------------------------------------------------
  // The business score, the classification and the tax
  // ---------------------------------------------------------------------------

  const ReceivesThreshold: nat := 20
  const CustomersThreshold: nat := 10
  const MinAverage: real := 30.0
  const MaxAverage: real := 500.0
  const BusinessThreshold: int := 60
  const TurnoverTaxRate: real := 0.04

  /** `30 <= total_revenue / receive_count <= 500`; no answer when there are no receipts (the division raises). */
  function AverageInRange(receives: nat, revenue: int): (r: Option<bool>)
    ensures r.None? <==> receives == 0
    ensures r.Some? ==> (r.value <==> 30 * receives <= revenue <= 500 * receives)
  {
    if receives == 0 then None
    else
      QuotientBounds(revenue as real, receives as real, MinAverage);
      QuotientBounds(revenue as real, receives as real, MaxAverage);
      Some(MinAverage <= revenue as real / receives as real <= MaxAverage)
  }

  /** Comparing a quotient by a positive divisor with a bound is comparing the dividend with the bound times the divisor. */
  lemma QuotientBounds(x: real, n: real, bound: real)
    requires n > 0.0
    ensures bound <= x / n <==> bound * n <= x
    ensures x / n <= bound <==> x <= bound * n
  {
    assert (x / n) * n == x;
    if bound <= x / n {
      assert bound * n <= (x / n) * n;
    }
    if x / n <= bound {
      assert (x / n) * n <= bound * n;
    }
    if bound * n <= x {
      assert bound <= x / n;
    }
  }

  function Points(passed: bool, points: int): int {
    if passed then points else 0
  }

  /**
   * The score: 30 for more than 20 receipts, 25 for more than 10 customers, 20
   * for an average receipt between 30 and 500, and 25 always (the
   * business-hours pattern is assumed).
   */
  function BusinessScore(receives: nat, unique: nat, revenue: int): (score: Option<int>)
    ensures score.None? <==> receives == 0
    ensures score.Some? ==> 25 <= score.value <= 100
    ensures score.Some? ==> (score.value == 100 <==> receives > ReceivesThreshold && unique > CustomersThreshold && AverageInRange(receives, revenue) == Some(true))
  {
    match AverageInRange(receives, revenue)
    case None => None
    case Some(inRange) =>
      Some(Points(receives > ReceivesThreshold, 30) + Points(unique > CustomersThreshold, 25) + Points(inRange, 20) + 25)
  }

  /** The script's `score += …` steps. */
  method DetectBusiness(receives: nat, unique: nat, revenue: int) returns (score: Option<int>)
    ensures score == BusinessScore(receives, unique, revenue)
  {
    var s := 0;
    if receives > ReceivesThreshold {
      s := s + 30;
    }
    if unique > CustomersThreshold {
      s := s + 25;
    }
    if receives == 0 {
      return None;
    }
    if MinAverage <= revenue as real / receives as real <= MaxAverage {
      s := s + 20;
    }
    s := s + 25;
    score := Some(s);
  }

  /** `score >= 60`: classified as an informal business. */
  predicate InformalBusiness(score: int) {
    score >= BusinessThreshold
  }

  /** A vendor is a business exactly when at least two of the three tests pass. */
  lemma BusinessIffTwoTests(receives: nat, unique: nat, revenue: int)
    requires receives > 0
    ensures var many, repeat, typical := receives > ReceivesThreshold, unique > CustomersThreshold, AverageInRange(receives, revenue) == Some(true);
      InformalBusiness(BusinessScore(receives, unique, revenue).value) <==>
        (many && repeat) || (many && typical) || (repeat && typical)
  {
  }

  /** The turnover tax of a business: 4% of the month's revenue, and twelve months of it a year. */
  datatype Tax = Tax(monthly: real, annual: real)

  function TurnoverTax(score: int, revenue: int): (tax: Option<Tax>)
    ensures tax.Some? <==> InformalBusiness(score)
    ensures tax.Some? ==> tax.value.monthly == revenue as real * TurnoverTaxRate
    ensures tax.Some? ==> tax.value.annual == 12.0 * tax.value.monthly
  {
    if InformalBusiness(score) then
      var monthly := revenue as real * TurnoverTaxRate;
      Some(Tax(monthly, monthly * 12.0))
    else None
  }

  /** The script's own data: 375 receipts from 375 different customers, worth 24375 in all. */
  lemma BuiltInSummary()
    ensures var ts := Generated(Days, CustomersPerDay);
      ReceiveCount(ts) == 375 && |Customers(ts)| == 375 && Revenue(ts) == 24375
  {
    GeneratedAllReceive(Days, CustomersPerDay);
    GeneratedCustomers(Days, CustomersPerDay);
    GeneratedRevenue(Days, CustomersPerDay);
    DayTotalClosedForm(CustomersPerDay);
  }

  /** On that summary the average receipt is 65, the score is the full 100, and the tax is 975 a month and 11700 a year. */
  lemma BuiltInVerdict()
    ensures 24375.0 / 375.0 == 65.0
    ensures BusinessScore(375, 375, 24375) == Some(100)
    ensures TurnoverTax(100, 24375) == Some(Tax(975.0, 11700.0))
  {
  }
}
