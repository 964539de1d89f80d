/**
  The dashboard's statistics: totals and health score (`calculateTotals`) and
  the chart series (`prepareCharts`): month buckets, savings per month,
  cumulative wealth, expense per category and the savings forecast.
  The React state setters become the values the methods return.
 */
module Dashboard {
  import opened Wrappers
  import opened Ledger

  datatype Totals = Totals(income: real, expense: real, balance: real)

  /** One entry of the monthly line chart. */
  datatype Bucket = Bucket(month: string, income: real, expense: real)

  /** One entry of the savings bar chart. */
  datatype SavingsPoint = SavingsPoint(month: string, savings: real)

  /** One entry of the wealth growth chart. */
  datatype WealthPoint = WealthPoint(month: string, balance: real)

  /** One slice of the category pie chart. */
  datatype Slice = Slice(name: string, value: real)

  /** One entry of the forecast chart; `predicted` is `null` except on the last entry. */
  datatype ForecastPoint = ForecastPoint(month: string, savings: real, predicted: Option<real>)

  /** Everything `processTransactions` hands to the page's state. */
  datatype DashboardView = DashboardView(
    totals: Totals,
    healthScore: real,
    lineData: seq<Bucket>,
    barData: seq<SavingsPoint>,
    wealthData: seq<WealthPoint>,
    pieData: seq<Slice>,
    forecastData: seq<ForecastPoint>)

  /** Label of the synthetic forecast entry. */
  const NextMonth: string := "Next"

  // ---------------------------------------------------------------------------
  // Totals and health score

  /** The health score: the share of income that is saved, as a percentage,
      clamped to [0, 100]; 0 when there is no positive income. */
  function HealthScore(income: real, expense: real): (score: real)
    ensures 0.0 <= score <= 100.0
    ensures income <= 0.0 ==> score == 0.0
  {
    var ratio := if income > 0.0 then ((income - expense) / income) * 100.0 else 0.0;
    var atLeastZero := if ratio > 0.0 then ratio else 0.0;
    if atLeastZero < 100.0 then atLeastZero else 100.0
  }

  /** Spending at least as much as one earns gives the lowest score. */
  lemma HealthScoreOverspent(income: real, expense: real)
    requires expense >= income
    ensures HealthScore(income, expense) == 0.0
  {
    if income > 0.0 {
      assert (income - expense) / income <= 0.0 by {
        assert income - expense <= 0.0;
      }
    }
  }

  /** Between the two clamps the score is the saved share of income, unclamped. */
  lemma HealthScoreUnclamped(income: real, expense: real)
    requires income > 0.0 && 0.0 <= expense <= income
    ensures HealthScore(income, expense) == ((income - expense) / income) * 100.0
  {
    var q := (income - expense) / income;
    assert q * income == income - expense;
    assert 0.0 <= q <= 1.0;
  }

  /** `calculateTotals`: one pass over the transactions accumulating income
      (type "income") and expense (every other type). */
  method CalculateTotals(data: seq<Transaction>) returns (totals: Totals, score: real)
    ensures totals.income == Total(data, IncomeOnly)
    ensures totals.expense == Total(data, NotIncome)
    ensures totals.balance == totals.income - totals.expense
    ensures score == HealthScore(totals.income, totals.expense)
  {
    var income, expense := 0.0, 0.0;
    for i := 0 to |data|
      invariant income == Total(data[..i], IncomeOnly)
      invariant expense == Total(data[..i], NotIncome)
    {
      assert data[..i + 1][..i] == data[..i];
      var amt := data[i].amount;
      if data[i].kind == IncomeKind {
        income := income + amt;
      } else {
        expense := expense + amt;
      }
    }
    assert data[..|data|] == data;
    var balance := income - expense;
    totals := Totals(income, expense, balance);
    score := HealthScore(income, expense);
  }

  // ---------------------------------------------------------------------------
  // Month buckets

  function Months(bs: seq<Bucket>): (ms: seq<string>)
    ensures |ms| == |bs| && forall i :: 0 <= i < |bs| ==> ms[i] == bs[i].month
  {
    seq(|bs|, i requires 0 <= i < |bs| => bs[i].month)
  }

  /** Month keys strictly ascending, hence unique. */
  predicate Ascending(bs: seq<Bucket>)
  {
    forall i, j :: 0 <= i < j < |bs| ==> LexLess(bs[i].month, bs[j].month)
  }

  /** The bucket of month `k`: the income and the non-income amounts of that month. */
  function MonthBucket(data: seq<Transaction>, k: string): Bucket
  {
    Bucket(k, GroupTotal(data, ByMonth, k, IncomeOnly), GroupTotal(data, ByMonth, k, NotIncome))
  }

  /** What the monthly line data is: one bucket per month key present in the
      input and no other, in ascending order, each holding that month's sums. */
  ghost predicate IsMonthlyBreakdown(data: seq<Transaction>, monthly: seq<Bucket>)
  {
    && Ascending(monthly)
    && (forall k :: k in Months(monthly) <==> k in KeysOf(data, ByMonth, AnyKind))
    && (forall b :: b in monthly ==> b == MonthBucket(data, b.month))
  }

  lemma AscendingPrepend(b: Bucket, sorted: seq<Bucket>)
    requires Ascending(sorted) && sorted != [] && LexLess(b.month, sorted[0].month)
    ensures Ascending([b] + sorted)
  {
    forall j | 0 < j < |sorted|
      ensures LexLess(b.month, sorted[j].month)
    {
      LexTransitive(b.month, sorted[0].month, sorted[j].month);
    }
  }

  /** One step of the library sort: place `b` into an already sorted list. */
  function Insert(b: Bucket, sorted: seq<Bucket>): (r: seq<Bucket>)
    requires Ascending(sorted)
    requires forall c :: c in sorted ==> c.month != b.month
    ensures Ascending(r) && |r| == |sorted| + 1
    ensures forall c :: c in r <==> c == b || c in sorted
  {
    if sorted == [] then [b]
    else if LexLess(b.month, sorted[0].month) then
      AscendingPrepend(b, sorted);
      [b] + sorted
    else
      LexTotal(b.month, sorted[0].month);
      var rest := Insert(b, sorted[1..]);
      HeadBelowTail(sorted);
      AscendingCons(sorted[0], rest);
      [sorted[0]] + rest
  }

  lemma HeadBelowTail(sorted: seq<Bucket>)
    requires Ascending(sorted) && sorted != []
    ensures forall c :: c in sorted[1..] ==> LexLess(sorted[0].month, c.month)
  {
    forall c | c in sorted[1..]
      ensures LexLess(sorted[0].month, c.month)
    {
      var j :| 0 <= j < |sorted[1..]| && sorted[1..][j] == c;
      assert c == sorted[j + 1];
    }
  }

  lemma AscendingCons(x: Bucket, rest: seq<Bucket>)
    requires Ascending(rest)
    requires forall c :: c in rest ==> LexLess(x.month, c.month)
    ensures Ascending([x] + rest)
  {
    forall j | 0 < j < |rest| + 1
      ensures LexLess(x.month, ([x] + rest)[j].month)
    {
      assert ([x] + rest)[j] == rest[j - 1];
    }
  }

  /** The library sort of the buckets by month key, on buckets with distinct months. */
  function SortByMonth(bs: seq<Bucket>): (r: seq<Bucket>)
    requires forall i, j :: 0 <= i < j < |bs| ==> bs[i].month != bs[j].month
    ensures Ascending(r) && |r| == |bs|
    ensures forall b :: b in r <==> b in bs
  {
    if bs == [] then [] else Insert(bs[0], SortByMonth(bs[1..]))
  }

  /** The dictionary's values in the order of its keys: `Object.values`. */
  function ValuesInOrder(m: map<string, Bucket>, order: seq<string>): (vs: seq<Bucket>)
    requires forall k :: k in order ==> k in m
    ensures |vs| == |order| && forall j :: 0 <= j < |order| ==> vs[j] == m[order[j]]
  {
    seq(|order|, j requires 0 <= j < |order| => m[order[j]])
  }

  /** The month dictionary after a prefix of the data: `order` is its key
      order, the prefix's months in order of first appearance, and each entry
      holds that month's totals so far. */
  ghost predicate MonthDictionary(prefix: seq<Transaction>, m: map<string, Bucket>, order: seq<string>)
  {
    && order == FirstSeen(KeysOf(prefix, ByMonth, AnyKind))
    && (forall k :: k in m <==> k in order)
    && (forall k :: k in m ==> m[k] == MonthBucket(prefix, k))
  }

  /** Sorting the values of a completely filled month dictionary gives the
      monthly breakdown. */
  lemma SortedDictionaryIsBreakdown(data: seq<Transaction>, m: map<string, Bucket>, order: seq<string>)
    requires MonthDictionary(data, m, order)
    ensures forall k :: k in order ==> k in m
    ensures forall i, j :: 0 <= i < j < |order| ==> ValuesInOrder(m, order)[i].month != ValuesInOrder(m, order)[j].month
    ensures IsMonthlyBreakdown(data, SortByMonth(ValuesInOrder(m, order)))
  {
    DictionaryValues(data, m, order);
    SortedBreakdown(data, ValuesInOrder(m, order));
  }

  /** The values of a completely filled month dictionary: one bucket per
      month of the data, each with that month's sums. */
  lemma DictionaryValues(data: seq<Transaction>, m: map<string, Bucket>, order: seq<string>)
    requires MonthDictionary(data, m, order)
    ensures forall k :: k in order ==> k in m
    ensures forall i, j :: 0 <= i < j < |order| ==> ValuesInOrder(m, order)[i].month != ValuesInOrder(m, order)[j].month
    ensures forall k :: k in Months(ValuesInOrder(m, order)) <==> k in KeysOf(data, ByMonth, AnyKind)
    ensures forall b :: b in ValuesInOrder(m, order) ==> b == MonthBucket(data, b.month)
  {
    var values := ValuesInOrder(m, order);
    assert Months(values) == order;
  }

  lemma InMonths(bs: seq<Bucket>, b: Bucket)
    requires b in bs
    ensures b.month in Months(bs)
  {
    var i :| 0 <= i < |bs| && bs[i] == b;
    assert Months(bs)[i] == b.month;
  }

  lemma FromMonths(bs: seq<Bucket>, k: string) returns (b: Bucket)
    requires k in Months(bs)
    ensures b in bs && b.month == k
  {
    var i :| 0 <= i < |bs| && Months(bs)[i] == k;
    b := bs[i];
  }

  /** Sorting buckets with distinct months keeps every bucket and its month. */
  lemma SortedBreakdown(data: seq<Transaction>, values: seq<Bucket>)
    requires forall i, j :: 0 <= i < j < |values| ==> values[i].month != values[j].month
    requires forall k :: k in Months(values) <==> k in KeysOf(data, ByMonth, AnyKind)
    requires forall b :: b in values ==> b == MonthBucket(data, b.month)
    ensures IsMonthlyBreakdown(data, SortByMonth(values))
  {
    var monthly := SortByMonth(values);
    forall k | k in Months(monthly)
      ensures k in Months(values)
    {
      var b := FromMonths(monthly, k);
      InMonths(values, b);
    }
    forall k | k in Months(values)
      ensures k in Months(monthly)
    {
      var b := FromMonths(values, k);
      InMonths(monthly, b);
    }
  }

  /** The bucket for `t`'s month after adding `t` to it. */
  function AddToBucket(b: Bucket, t: Transaction): Bucket
  {
    if t.kind == IncomeKind then b.(income := b.income + t.amount) else b.(expense := b.expense + t.amount)
  }

  /** One iteration of the monthly loop keeps the dictionary complete. */
  lemma MonthStep(prefix: seq<Transaction>, t: Transaction,
                  m0: map<string, Bucket>, o0: seq<string>, m1: map<string, Bucket>, o1: seq<string>)
    requires MonthDictionary(prefix, m0, o0)
    requires o1 == if MonthKey(t.date) in m0 then o0 else o0 + [MonthKey(t.date)]
    requires m1 == m0[MonthKey(t.date) := AddToBucket(if MonthKey(t.date) in m0 then m0[MonthKey(t.date)] else Bucket(MonthKey(t.date), 0.0, 0.0), t)]
    ensures MonthDictionary(prefix + [t], m1, o1)
  {
    MonthOrderStep(prefix, t, m0, o0, m1, o1);
    MonthValueStep(prefix, t, m0, m1);
  }

  /** The key-order half of `MonthStep`. */
  lemma MonthOrderStep(prefix: seq<Transaction>, t: Transaction,
                       m0: map<string, Bucket>, o0: seq<string>, m1: map<string, Bucket>, o1: seq<string>)
    requires o0 == FirstSeen(KeysOf(prefix, ByMonth, AnyKind))
    requires forall k :: k in m0 <==> k in o0
    requires o1 == if MonthKey(t.date) in m0 then o0 else o0 + [MonthKey(t.date)]
    requires m1.Keys == m0.Keys + {MonthKey(t.date)}
    ensures o1 == FirstSeen(KeysOf(prefix + [t], ByMonth, AnyKind))
    ensures forall k :: k in m1 <==> k in o1
  {
    KeysOfSnoc(prefix, t, ByMonth, AnyKind);
    var ks := KeysOf(prefix, ByMonth, AnyKind);
    assert KeysOf(prefix + [t], ByMonth, AnyKind) == ks + [MonthKey(t.date)];
    assert (MonthKey(t.date) in m0) == (MonthKey(t.date) in o0);
    FirstSeenSnoc(ks, MonthKey(t.date));
  }

  /** The entry-value half of `MonthStep`. */
  lemma MonthValueStep(prefix: seq<Transaction>, t: Transaction, m0: map<string, Bucket>, m1: map<string, Bucket>)
    requires forall k :: k in m0 <==> k in KeysOf(prefix, ByMonth, AnyKind)
    requires forall k :: k in m0 ==> m0[k] == MonthBucket(prefix, k)
    requires m1 == m0[MonthKey(t.date) := AddToBucket(if MonthKey(t.date) in m0 then m0[MonthKey(t.date)] else Bucket(MonthKey(t.date), 0.0, 0.0), t)]
    ensures forall k :: k in m1 ==> m1[k] == MonthBucket(prefix + [t], k)
  {
    var month := MonthKey(t.date);
    if month !in m0 {
      GroupTotalAbsent(prefix, ByMonth, month, AnyKind, IncomeOnly);
      GroupTotalAbsent(prefix, ByMonth, month, AnyKind, NotIncome);
    }
    forall k | k in m1
      ensures m1[k] == MonthBucket(prefix + [t], k)
    {
      GroupTotalSnoc(prefix, t, ByMonth, k, IncomeOnly);
      GroupTotalSnoc(prefix, t, ByMonth, k, NotIncome);
    }
  }

  /** Updating an entry twice keeps only the second value. */
  lemma OverwriteEntry(m: map<string, Bucket>, k: string, v0: Bucket, v1: Bucket)
    ensures m[k := v0][k := v1] == m[k := v1]
  {
  }

  /** One step of the monthly loop: create the bucket of `t`'s month when it
      is new (at the end of the key order), then add `t`'s amount to its
      income when `t` is "income" and to its expense otherwise. */
  method AddToMonth(ghost prefix: seq<Transaction>, t: Transaction, m: map<string, Bucket>, order: seq<string>)
    returns (m': map<string, Bucket>, order': seq<string>)
    requires MonthDictionary(prefix, m, order)
    ensures MonthDictionary(prefix + [t], m', order')
  {
    m', order' := m, order;
    var month := MonthKey(t.date);
    ghost var start := if month in m then m[month] else Bucket(month, 0.0, 0.0);
    if month !in m' {
      m' := m'[month := Bucket(month, 0.0, 0.0)];
      order' := order' + [month];
    }
    assert month in m' && m'[month] == start;
    ghost var m1 := m';
    var amt := t.amount;
    if t.kind == IncomeKind {
      m' := m'[month := m'[month].(income := m'[month].income + amt)];
    } else {
      m' := m'[month := m'[month].(expense := m'[month].expense + amt)];
    }
    assert m' == m1[month := AddToBucket(start, t)];
    if month !in m {
      OverwriteEntry(m, month, start, AddToBucket(start, t));
    }
    MonthStep(prefix, t, m, order, m', order');
  }

  /** The monthly part of `prepareCharts`: fill a dictionary keyed by the
      month prefix of each date, take its values and sort them by month. */
  method MonthlyBuckets(data: seq<Transaction>) returns (monthly: seq<Bucket>)
    ensures IsMonthlyBreakdown(data, monthly)
  {
    var monthlyMap: map<string, Bucket> := map[];
    var order: seq<string> := [];  // the dictionary's key order: first insertion
    for i := 0 to |data|
      invariant MonthDictionary(data[..i], monthlyMap, order)
    {
      var t := data[i];
      assert data[..i + 1] == data[..i] + [t];
      monthlyMap, order := AddToMonth(data[..i], t, monthlyMap, order);
    }
    assert data[..|data|] == data;
    monthly := SortedValues(data, monthlyMap, order);
  }

  /** `Object.values(monthlyMap)` sorted by month: for a dictionary complete
      for the whole data, the monthly breakdown. */
  method SortedValues(ghost data: seq<Transaction>, monthlyMap: map<string, Bucket>, order: seq<string>)
    returns (monthly: seq<Bucket>)
    requires MonthDictionary(data, monthlyMap, order)
    ensures IsMonthlyBreakdown(data, monthly)
  {
    SortedDictionaryIsBreakdown(data, monthlyMap, order);
    monthly := SortByMonth(ValuesInOrder(monthlyMap, order));
  }

  function IncomeSum(bs: seq<Bucket>): real
  {
    if bs == [] then 0.0 else IncomeSum(bs[..|bs| - 1]) + bs[|bs| - 1].income
  }

  function ExpenseSum(bs: seq<Bucket>): real
  {
    if bs == [] then 0.0 else ExpenseSum(bs[..|bs| - 1]) + bs[|bs| - 1].expense
  }

  lemma {:induction false} BucketSumsAreKeySums(data: seq<Transaction>, bs: seq<Bucket>)
    requires forall b :: b in bs ==> b == MonthBucket(data, b.month)
    ensures IncomeSum(bs) == SumOverKeys(Months(bs), data, ByMonth, IncomeOnly)
    ensures ExpenseSum(bs) == SumOverKeys(Months(bs), data, ByMonth, NotIncome)
  {
    if bs != [] {
      var init := bs[..|bs| - 1];
      assert Months(bs)[..|bs| - 1] == Months(init);
      assert bs[|bs| - 1] in bs;
      BucketSumsAreKeySums(data, init);
    }
  }

  lemma AscendingDistinct(bs: seq<Bucket>)
    requires Ascending(bs)
    ensures Distinct(Months(bs))
  {
    forall i, j | 0 <= i < j < |bs|
      ensures bs[i].month != bs[j].month
    {
      LexIrreflexive(bs[i].month);
    }
  }

  /** Bucketing partitions the totals: the bucket incomes (expenses) add up to
      the income (expense) that `calculateTotals` reports. */
  lemma BucketsPartitionTotals(data: seq<Transaction>, monthly: seq<Bucket>)
    requires IsMonthlyBreakdown(data, monthly)
    ensures IncomeSum(monthly) == Total(data, IncomeOnly)
    ensures ExpenseSum(monthly) == Total(data, NotIncome)
  {
    BucketSumsAreKeySums(data, monthly);
    AscendingDistinct(monthly);
    KeysOfCovers(data, ByMonth, AnyKind, IncomeOnly);
    KeysOfCovers(data, ByMonth, AnyKind, NotIncome);
    GroupingPartitionsTotal(Months(monthly), data, ByMonth, IncomeOnly);
    GroupingPartitionsTotal(Months(monthly), data, ByMonth, NotIncome);
  }

  /** Buckets exist exactly for the months that occur in the input: none is
      synthesised for a month without transactions. */
  lemma NoGapMonths(data: seq<Transaction>, monthly: seq<Bucket>, k: string)
    requires IsMonthlyBreakdown(data, monthly)
    ensures k in Months(monthly) <==> exists t :: t in data && MonthKey(t.date) == k
  {
    if k in Months(monthly) {
      KeysOfSound(data, ByMonth, AnyKind, k);
    }
    KeysOfCovers(data, ByMonth, AnyKind, AnyKind);
  }

  /** Two ascending lists with the same elements start with the same element. */
  lemma AscendingSameHead(a: seq<Bucket>, b: seq<Bucket>)
    requires Ascending(a) && Ascending(b) && a != [] && b != []
    requires forall x :: x in a <==> x in b
    ensures a[0] == b[0]
  {
    assert a[0] in b && b[0] in a;
    assert a == [a[0]] + a[1..] && b == [b[0]] + b[1..];
    HeadBelowTail(a);
    HeadBelowTail(b);
    LexAsymmetric(a[0].month, b[0].month);
  }

  /** ... and then the same elements after it. */
  lemma AscendingSameTail(a: seq<Bucket>, b: seq<Bucket>)
    requires Ascending(a) && Ascending(b) && a != [] && b != [] && a[0] == b[0]
    requires forall x :: x in a <==> x in b
    ensures forall x :: x in a[1..] <==> x in b[1..]
  {
    HeadBelowTail(a);
    HeadBelowTail(b);
    LexIrreflexive(a[0].month);
    forall x | x in a[1..]
      ensures x in b[1..]
    {
      assert x in b && x != b[0];
      var j :| 0 <= j < |b| && b[j] == x;
      assert b[1..][j - 1] == x;
    }
    forall x | x in b[1..]
      ensures x in a[1..]
    {
      assert x in a && x != a[0];
      var j :| 0 <= j < |a| && a[j] == x;
      assert a[1..][j - 1] == x;
    }
  }

  /** Two ascending lists with the same elements are equal. */
  lemma {:induction false} AscendingUnique(a: seq<Bucket>, b: seq<Bucket>)
    requires Ascending(a) && Ascending(b)
    requires forall x :: x in a <==> x in b
    ensures a == b
  {
    assert a != [] ==> a[0] in b;
    assert b != [] ==> b[0] in a;
    if a != [] {
      AscendingSameHead(a, b);
      AscendingSameTail(a, b);
      AscendingUnique(a[1..], b[1..]);
      assert a == [a[0]] + a[1..] && b == [b[0]] + b[1..];
    }
  }

  /** The monthly breakdown is a complete description: the input determines it. */
  lemma MonthlyBreakdownUnique(data: seq<Transaction>, m1: seq<Bucket>, m2: seq<Bucket>)
    requires IsMonthlyBreakdown(data, m1) && IsMonthlyBreakdown(data, m2)
    ensures m1 == m2
  {
    forall x | x in m1
      ensures x in m2
    {
      var i :| 0 <= i < |m1| && m1[i] == x;
      assert x.month in Months(m1);
      var j :| 0 <= j < |m2| && Months(m2)[j] == x.month;
      assert m2[j] in m2;
    }
    forall x | x in m2
      ensures x in m1
    {
      var i :| 0 <= i < |m2| && m2[i] == x;
      assert x.month in Months(m2);
      var j :| 0 <= j < |m1| && Months(m1)[j] == x.month;
      assert m1[j] in m1;
    }
    AscendingUnique(m1, m2);
  }

  // ---------------------------------------------------------------------------
  // Savings and wealth

  /** The bar chart: one savings point per bucket, with its month and its
      income minus its expense. */
  function Savings(monthly: seq<Bucket>): (bar: seq<SavingsPoint>)
    ensures |bar| == |monthly|
    ensures forall i :: 0 <= i < |monthly| ==>
      bar[i].month == monthly[i].month && bar[i].savings == monthly[i].income - monthly[i].expense
  {
    seq(|monthly|, i requires 0 <= i < |monthly| => SavingsPoint(monthly[i].month, monthly[i].income - monthly[i].expense))
  }

  function SavingsTotal(bar: seq<SavingsPoint>): real
  {
    if bar == [] then 0.0 else SavingsTotal(bar[..|bar| - 1]) + bar[|bar| - 1].savings
  }

  /** The savings add up to total bucket income minus total bucket expense. */
  lemma {:induction false} SavingsTotalIsNet(bs: seq<Bucket>)
    ensures SavingsTotal(Savings(bs)) == IncomeSum(bs) - ExpenseSum(bs)
  {
    if bs != [] {
      assert Savings(bs)[..|bs| - 1] == Savings(bs[..|bs| - 1]);
      SavingsTotalIsNet(bs[..|bs| - 1]);
    }
  }

  /** The wealth chart: a running total of the monthly savings seeded at 0,
      so entry i is the sum of the savings of months 0..i. */
  method Wealth(monthly: seq<Bucket>) returns (wealth: seq<WealthPoint>)
    ensures |wealth| == |monthly|
    ensures forall i :: 0 <= i < |monthly| ==>
      wealth[i].month == monthly[i].month && wealth[i].balance == SavingsTotal(Savings(monthly)[..i + 1])
  {
    var cumulative := 0.0;
    wealth := [];
    for i := 0 to |monthly|
      invariant |wealth| == i
      invariant cumulative == SavingsTotal(Savings(monthly)[..i])
      invariant forall j :: 0 <= j < i ==>
        wealth[j].month == monthly[j].month && wealth[j].balance == SavingsTotal(Savings(monthly)[..j + 1])
    {
      assert Savings(monthly)[..i + 1][..i] == Savings(monthly)[..i];
      cumulative := cumulative + (monthly[i].income - monthly[i].expense);
      wealth := wealth + [WealthPoint(monthly[i].month, cumulative)];
    }
  }

  // ---------------------------------------------------------------------------
  // Category pie

  function Names(pie: seq<Slice>): (ns: seq<string>)
    ensures |ns| == |pie| && forall i :: 0 <= i < |pie| ==> ns[i] == pie[i].name
  {
    seq(|pie|, i requires 0 <= i < |pie| => pie[i].name)
  }

  /** What the pie data is: one slice per category of a transaction of type
      "expense", in order of first appearance, worth that category's sum. */
  predicate IsCategoryBreakdown(data: seq<Transaction>, pie: seq<Slice>)
  {
    && Names(pie) == FirstSeen(KeysOf(data, ByCategory, ExpenseOnly))
    && (forall i :: 0 <= i < |pie| ==> pie[i].value == GroupTotal(data, ByCategory, pie[i].name, ExpenseOnly))
  }

  /** The category dictionary after a prefix of the data: its key order is the
      first-seen order of the prefix's "expense" categories, and each entry
      holds that category's expense total so far. */
  ghost predicate CategoryDictionary(prefix: seq<Transaction>, m: map<string, real>, order: seq<string>)
  {
    && order == FirstSeen(KeysOf(prefix, ByCategory, ExpenseOnly))
    && (forall k :: k in m <==> k in order)
    && (forall k :: k in m ==> m[k] == GroupTotal(prefix, ByCategory, k, ExpenseOnly))
  }

  /** Adding one transaction to a category dictionary (and its key order)
      that is complete for the transactions before it makes it complete for
      the longer prefix. */
  lemma CategoryStep(prefix: seq<Transaction>, t: Transaction,
                     m0: map<string, real>, o0: seq<string>, m1: map<string, real>, o1: seq<string>)
    requires CategoryDictionary(prefix, m0, o0)
    requires t.kind != ExpenseKind ==> m1 == m0 && o1 == o0
    requires t.kind == ExpenseKind ==>
      && o1 == (if t.category in m0 then o0 else o0 + [t.category])
      && m1 == m0[t.category := (if t.category in m0 && m0[t.category] != 0.0 then m0[t.category] else 0.0) + t.amount]
    ensures CategoryDictionary(prefix + [t], m1, o1)
  {
    CategoryOrderStep(prefix, t, m0, o0, m1, o1);
    CategoryValueStep(prefix, t, m0, m1);
  }

  /** The entry-value half of `CategoryStep`. */
  lemma CategoryValueStep(prefix: seq<Transaction>, t: Transaction, m0: map<string, real>, m1: map<string, real>)
    requires forall k :: k in m0 <==> k in KeysOf(prefix, ByCategory, ExpenseOnly)
    requires forall k :: k in m0 ==> m0[k] == GroupTotal(prefix, ByCategory, k, ExpenseOnly)
    requires t.kind != ExpenseKind ==> m1 == m0
    requires t.kind == ExpenseKind ==>
      m1 == m0[t.category := (if t.category in m0 && m0[t.category] != 0.0 then m0[t.category] else 0.0) + t.amount]
    ensures forall k :: k in m1 ==> m1[k] == GroupTotal(prefix + [t], ByCategory, k, ExpenseOnly)
  {
    if t.kind == ExpenseKind && t.category !in m0 {
      GroupTotalAbsent(prefix, ByCategory, t.category, ExpenseOnly, ExpenseOnly);
    }
    forall k | k in m1
      ensures m1[k] == GroupTotal(prefix + [t], ByCategory, k, ExpenseOnly)
    {
      GroupTotalSnoc(prefix, t, ByCategory, k, ExpenseOnly);
    }
  }

  /** The key-order half of `CategoryStep`. */
  lemma CategoryOrderStep(prefix: seq<Transaction>, t: Transaction,
                          m0: map<string, real>, o0: seq<string>, m1: map<string, real>, o1: seq<string>)
    requires o0 == FirstSeen(KeysOf(prefix, ByCategory, ExpenseOnly))
    requires forall k :: k in m0 <==> k in o0
    requires t.kind != ExpenseKind ==> m1 == m0 && o1 == o0
    requires t.kind == ExpenseKind ==>
      && o1 == (if t.category in m0 then o0 else o0 + [t.category])
      && m1.Keys == m0.Keys + {t.category}
    ensures o1 == FirstSeen(KeysOf(prefix + [t], ByCategory, ExpenseOnly))
    ensures forall k :: k in m1 <==> k in o1
  {
    KeysOfSnoc(prefix, t, ByCategory, ExpenseOnly);
    var ks := KeysOf(prefix, ByCategory, ExpenseOnly);
    if t.kind == ExpenseKind {
      assert KeysOf(prefix + [t], ByCategory, ExpenseOnly) == ks + [t.category];
      assert (t.category in m0) == (t.category in o0);
      FirstSeenSnoc(ks, t.category);
    } else {
      assert KeysOf(prefix + [t], ByCategory, ExpenseOnly) == ks;
    }
  }

  /** The slices listing a dictionary's entries in its key order. */
  function PieOf(m: map<string, real>, order: seq<string>): (pie: seq<Slice>)
    requires forall k :: k in order ==> k in m
    ensures Names(pie) == order
    ensures forall i :: 0 <= i < |pie| ==> pie[i].value == m[order[i]]
  {
    seq(|order|, j requires 0 <= j < |order| => Slice(order[j], m[order[j]]))
  }

  /** Listing a complete dictionary of the whole data gives the pie. */
  lemma DictionaryGivesPie(data: seq<Transaction>, m: map<string, real>, order: seq<string>)
    requires CategoryDictionary(data, m, order)
    ensures forall k :: k in order ==> k in m
    ensures IsCategoryBreakdown(data, PieOf(m, order))
  {
  }

  /** One step of the pie loop: an "expense" transaction adds its amount to
      its category's entry, creating the entry (at the end of the key order)
      when the category is new; any other transaction changes nothing. */
  method AddExpense(ghost prefix: seq<Transaction>, t: Transaction, m: map<string, real>, order: seq<string>)
    returns (m': map<string, real>, order': seq<string>)
    requires CategoryDictionary(prefix, m, order)
    ensures CategoryDictionary(prefix + [t], m', order')
  {
    m', order' := m, order;
    if t.kind == ExpenseKind {
      if t.category !in m' {
        order' := order' + [t.category];
      }
      // `(categoryTotals[cat] || 0)`: a missing or zero entry reads as 0
      var sofar := if t.category in m' && m'[t.category] != 0.0 then m'[t.category] else 0.0;
      m' := m'[t.category := sofar + t.amount];
    }
    CategoryStep(prefix, t, m, order, m', order');
  }

  /** The pie part of `prepareCharts`: sum the "expense" amounts per category
      into a dictionary and list its entries. */
  method CategoryTotals(data: seq<Transaction>) returns (pie: seq<Slice>)
    ensures IsCategoryBreakdown(data, pie)
  {
    var categoryTotals: map<string, real> := map[];
    var order: seq<string> := [];  // the dictionary's key order: first insertion
    for i := 0 to |data|
      invariant CategoryDictionary(data[..i], categoryTotals, order)
    {
      var t := data[i];
      assert data[..i + 1] == data[..i] + [t];
      categoryTotals, order := AddExpense(data[..i], t, categoryTotals, order);
    }
    assert data[..|data|] == data;
    DictionaryGivesPie(data, categoryTotals, order);
    pie := PieOf(categoryTotals, order);
  }

  function SliceSum(pie: seq<Slice>): real
  {
    if pie == [] then 0.0 else SliceSum(pie[..|pie| - 1]) + pie[|pie| - 1].value
  }

  lemma {:induction false} SliceSumIsKeySum(data: seq<Transaction>, pie: seq<Slice>)
    requires forall i :: 0 <= i < |pie| ==> pie[i].value == GroupTotal(data, ByCategory, pie[i].name, ExpenseOnly)
    ensures SliceSum(pie) == SumOverKeys(Names(pie), data, ByCategory, ExpenseOnly)
  {
    if pie != [] {
      var init := pie[..|pie| - 1];
      assert Names(pie)[..|pie| - 1] == Names(init);
      SliceSumIsKeySum(data, init);
    }
  }

  /** The pie slices add up to the total of the "expense" transactions. */
  lemma PieSumIsExpenseTotal(data: seq<Transaction>, pie: seq<Slice>)
    requires IsCategoryBreakdown(data, pie)
    ensures SliceSum(pie) == Total(data, ExpenseOnly)
  {
    SliceSumIsKeySum(data, pie);
    KeysOfCovers(data, ByCategory, ExpenseOnly, ExpenseOnly);
    GroupingPartitionsTotal(Names(pie), data, ByCategory, ExpenseOnly);
  }

  /** Every slice names the category of some transaction of type "expense". */
  lemma PieOnlyExpenseCategories(data: seq<Transaction>, pie: seq<Slice>, i: nat)
    requires IsCategoryBreakdown(data, pie) && i < |pie|
    ensures exists t :: t in data && t.kind == ExpenseKind && t.category == pie[i].name
  {
    assert pie[i].name in Names(pie);
    KeysOfSound(data, ByCategory, ExpenseOnly, pie[i].name);
  }

  // ---------------------------------------------------------------------------
  // Forecast

  /** Half the latest trend added to the latest value. */
  function Projected(last: real, prev: real): real
  {
    last + (last - prev) * 0.5
  }

  /** The forecast chart: the savings series, plus a synthetic "Next" entry
      when there are at least two months, with only the final entry marked
      as predicted (whether or not it is the synthetic one). */
  function Forecast(bar: seq<SavingsPoint>): (r: seq<ForecastPoint>)
    ensures |r| == if |bar| >= 2 then |bar| + 1 else |bar|
    ensures forall i :: 0 <= i < |bar| ==> r[i].month == bar[i].month && r[i].savings == bar[i].savings
    ensures |bar| >= 2 ==>
      r[|bar|].month == NextMonth && r[|bar|].savings == Projected(bar[|bar| - 1].savings, bar[|bar| - 2].savings)
    ensures forall i :: 0 <= i < |r| - 1 ==> r[i].predicted == None
    ensures r != [] ==> r[|r| - 1].predicted == Some(r[|r| - 1].savings)
  {
    var forecast :=
      if |bar| >= 2 then
        bar + [SavingsPoint(NextMonth, Projected(bar[|bar| - 1].savings, bar[|bar| - 2].savings))]
      else bar;
    seq(|forecast|, i requires 0 <= i < |forecast| =>
      ForecastPoint(forecast[i].month, forecast[i].savings,
        if i == |forecast| - 1 then Some(forecast[i].savings) else None))
  }

  /** Only the last two months matter: savings 100, 150, 200 project 225. */
  lemma ForecastThreeMonths()
    ensures var r := Forecast([SavingsPoint("2024-01", 100.0), SavingsPoint("2024-02", 150.0), SavingsPoint("2024-03", 200.0)]);
      |r| == 4 && r[3] == ForecastPoint(NextMonth, 225.0, Some(225.0))
  {
  }

  /** A single month gets no synthetic entry; it is itself the marked last entry. */
  lemma ForecastSingleMonth(p: SavingsPoint)
    ensures Forecast([p]) == [ForecastPoint(p.month, p.savings, Some(p.savings))]
  {
  }

  // ---------------------------------------------------------------------------
  // The whole pipeline

  /** `processTransactions`: totals, score and every chart series, with the
      consistency laws that hold between them. */
  method ProcessTransactions(data: seq<Transaction>) returns (view: DashboardView)
    ensures view.totals.income == Total(data, IncomeOnly) && view.totals.expense == Total(data, NotIncome)
    ensures view.totals.balance == view.totals.income - view.totals.expense
    ensures view.healthScore == HealthScore(view.totals.income, view.totals.expense)
    ensures IsMonthlyBreakdown(data, view.lineData)
    ensures IncomeSum(view.lineData) == view.totals.income && ExpenseSum(view.lineData) == view.totals.expense
    ensures view.barData == Savings(view.lineData)
    ensures |view.wealthData| == |view.lineData|
    ensures forall i :: 0 <= i < |view.wealthData| ==>
      view.wealthData[i].month == view.lineData[i].month && view.wealthData[i].balance == SavingsTotal(view.barData[..i + 1])
    ensures view.wealthData != [] ==> view.wealthData[|view.wealthData| - 1].balance == view.totals.balance
    ensures IsCategoryBreakdown(data, view.pieData)
    ensures SliceSum(view.pieData) == Total(data, ExpenseOnly)
    ensures view.forecastData == Forecast(view.barData)
  {
    var totals, score := CalculateTotals(data);
    var monthly := MonthlyBuckets(data);
    BucketsPartitionTotals(data, monthly);
    var bar := Savings(monthly);
    var wealth := Wealth(monthly);
    if wealth != [] {
      assert Savings(monthly)[..|monthly|] == Savings(monthly);
      SavingsTotalIsNet(monthly);
    }
    var pie := CategoryTotals(data);
    PieSumIsExpenseTotal(data, pie);
    var forecast := Forecast(bar);
    view := DashboardView(totals, score, monthly, bar, wealth, pie, forecast);
  }
}
