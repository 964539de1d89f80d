/**
  The notification page's rule engine (`generateNotifications`) and its
  severity filter (`filteredNotifications`).
 */
module Notifications {
  import opened Wrappers
  import opened Ledger

  /** The `type` of a notification, shown as "info", "warning" or "danger". */
  datatype Severity = Info | Warning | Danger

  function SeverityName(s: Severity): string
  {
    match s
    case Info => "info"
    case Warning => "warning"
    case Danger => "danger"
  }

  /** Budget notices carry the numeric ids 1, 2, 3; large-expense notices the
      string `t.id + "-large"`. */
  datatype NotificationId = Code(n: nat) | Tagged(text: string)

  /** The message, as a tag with the values the text is built from. */
  datatype Message = ExceededTotal | AboveEightyPercent | WithinBudget(spentPercent: real) | HighExpense(amount: real, category: string)

  datatype Notification = Notification(
    id: NotificationId,
    severity: Severity,
    message: Message,
    date: Option<string>,
    category: Option<string>)

  const LargeExpenseLimit: real := 1000.0
  const LargeSuffix: string := "-large"
  const AllFilter: string := "All"

  // ---------------------------------------------------------------------------
  // Total spent

  /** The transactions of type "expense", in input order. */
  function ExpensesOnly(ts: seq<Transaction>): seq<Transaction>
  {
    if ts == [] then []
    else ExpensesOnly(ts[..|ts| - 1]) + (if ts[|ts| - 1].kind == ExpenseKind then [ts[|ts| - 1]] else [])
  }

  /** The sum of the amounts, accumulated from the first transaction to the last. */
  function SumAmounts(ts: seq<Transaction>): real
  {
    if ts == [] then 0.0 else SumAmounts(ts[..|ts| - 1]) + ts[|ts| - 1].amount
  }

  lemma {:induction false} FilterThenReduce(ts: seq<Transaction>)
    ensures SumAmounts(ExpensesOnly(ts)) == Total(ts, ExpenseOnly)
  {
    if ts != [] {
      var init := ts[..|ts| - 1];
      var t := ts[|ts| - 1];
      FilterThenReduce(init);
      var e := ExpensesOnly(init);
      if t.kind == ExpenseKind {
        assert (e + [t])[..|e + [t]| - 1] == e;
      } else {
        assert e + [] == e;
      }
    }
  }

  /** What the page calls `totalSpent`: the amounts of the "expense"
      transactions only (other non-income types are not counted). */
  function TotalSpent(ts: seq<Transaction>): (spent: real)
    ensures spent == Total(ts, ExpenseOnly)
  {
    FilterThenReduce(ts);
    SumAmounts(ExpensesOnly(ts))
  }

  // ---------------------------------------------------------------------------
  // Budget status rule

  /** The percentage of the total budget that has been spent. */
  function SpentPercent(spent: real, totalBudget: real): real
    requires totalBudget != 0.0
  {
    (spent / totalBudget) * 100.0
  }

  /** The single budget-status notice for a positive total budget, by the
      thresholds 100% (danger) and 80% (warning). */
  function BudgetNotice(spent: real, totalBudget: real): Notification
    requires totalBudget > 0.0
  {
    var spentPercent := SpentPercent(spent, totalBudget);
    if spentPercent >= 100.0 then Notification(Code(1), Danger, ExceededTotal, None, None)
    else if spentPercent >= 80.0 then Notification(Code(2), Warning, AboveEightyPercent, None, None)
    else Notification(Code(3), Info, WithinBudget(spentPercent), None, None)
  }

  /** The severity thresholds, stated on the amounts: danger from the whole
      budget on, warning from 80% of it, info below that. */
  lemma BudgetThresholds(spent: real, totalBudget: real)
    requires totalBudget > 0.0
    ensures var n := BudgetNotice(spent, totalBudget);
      && (n.severity == Danger <==> spent >= totalBudget)
      && (n.severity == Warning <==> totalBudget * 0.8 <= spent < totalBudget)
      && (n.severity == Info <==> spent < totalBudget * 0.8)
      && n.id.Code? && n.date == None && n.category == None
  {
    PercentThreshold(spent, totalBudget, 100.0);
    PercentThreshold(spent, totalBudget, 80.0);
  }

  /** A percentage threshold on spent/total is a threshold on spent itself. */
  lemma PercentThreshold(spent: real, totalBudget: real, percent: real)
    requires totalBudget > 0.0
    ensures SpentPercent(spent, totalBudget) >= percent <==> spent >= totalBudget * (percent / 100.0)
  {
    var q := spent / totalBudget;
    assert q * totalBudget == spent;
    if q * 100.0 >= percent {
      assert q >= percent / 100.0;
      assert q * totalBudget >= (percent / 100.0) * totalBudget;
    } else {
      assert q < percent / 100.0;
      assert q * totalBudget < (percent / 100.0) * totalBudget;
    }
  }

  /** The budget rule's output: nothing without a positive total budget,
      otherwise exactly one notice. */
  function BudgetStatus(spent: real, totalBudget: real): (r: seq<Notification>)
    ensures |r| == if totalBudget > 0.0 then 1 else 0
  {
    if totalBudget > 0.0 then [BudgetNotice(spent, totalBudget)] else []
  }

  // ---------------------------------------------------------------------------
  // Large-expense rule

  /** An "expense" transaction strictly above 1000. */
  predicate IsLarge(t: Transaction)
  {
    t.kind == ExpenseKind && t.amount > LargeExpenseLimit
  }

  /** The large expenses, in input order, each as often as it occurs. */
  function LargeExpenses(ts: seq<Transaction>): seq<Transaction>
  {
    if ts == [] then []
    else LargeExpenses(ts[..|ts| - 1]) + (if IsLarge(ts[|ts| - 1]) then [ts[|ts| - 1]] else [])
  }

  /** Each large expense occurs in `LargeExpenses` as often as in the input,
      every other transaction not at all. */
  lemma {:induction false} LargeExpensesCounts(ts: seq<Transaction>)
    ensures forall t :: multiset(LargeExpenses(ts))[t] == if IsLarge(t) then multiset(ts)[t] else 0
  {
    if ts != [] {
      var init := ts[..|ts| - 1];
      LargeExpensesCounts(init);
      assert ts == init + [ts[|ts| - 1]];
    }
  }

  /** The warning for one large expense: its id with "-large", its date and category. */
  function LargeAlert(t: Transaction): Notification
  {
    Notification(Tagged(t.id + LargeSuffix), Warning, HighExpense(t.amount, t.category), Some(t.date), Some(t.category))
  }

  function LargeExpenseAlerts(ts: seq<Transaction>): seq<Notification>
  {
    var large := LargeExpenses(ts);
    seq(|large|, i requires 0 <= i < |large| => LargeAlert(large[i]))
  }

  lemma LargeExpenseAlertsSnoc(ts: seq<Transaction>, t: Transaction)
    ensures LargeExpenseAlerts(ts + [t]) == LargeExpenseAlerts(ts) + (if IsLarge(t) then [LargeAlert(t)] else [])
  {
    assert (ts + [t])[..|ts|] == ts;
  }

  /** The notifications the page generates: the budget status first (when a
      positive total budget is set), then one warning per large expense. */
  function Generated(ts: seq<Transaction>, totalBudget: real): seq<Notification>
  {
    BudgetStatus(TotalSpent(ts), totalBudget) + LargeExpenseAlerts(ts)
  }

  /** The budget rule of `generateNotifications`: the if-chain that pushes
      one notice when a positive total budget is set. */
  method PushBudgetStatus(notifs: seq<Notification>, totalSpent: real, totalBudget: real) returns (notifs': seq<Notification>)
    ensures notifs' == notifs + BudgetStatus(totalSpent, totalBudget)
  {
    notifs' := notifs;
    if totalBudget > 0.0 {
      var spentPercent := (totalSpent / totalBudget) * 100.0;
      if spentPercent >= 100.0 {
        notifs' := notifs' + [Notification(Code(1), Danger, ExceededTotal, None, None)];
      } else if spentPercent >= 80.0 {
        notifs' := notifs' + [Notification(Code(2), Warning, AboveEightyPercent, None, None)];
      } else {
        notifs' := notifs' + [Notification(Code(3), Info, WithinBudget(spentPercent), None, None)];
      }
    } else {
      assert notifs + [] == notifs;
    }
  }

  /** `generateNotifications`: the budget rule, then a pass over the
      transactions pushing one warning per large expense. */
  method GenerateNotifications(transactions: seq<Transaction>, totalBudget: real) returns (notifs: seq<Notification>)
    ensures notifs == Generated(transactions, totalBudget)
  {
    notifs := [];
    var totalSpent := SumAmounts(ExpensesOnly(transactions));
    notifs := PushBudgetStatus(notifs, totalSpent, totalBudget);
    ghost var head := notifs;
    assert head == BudgetStatus(TotalSpent(transactions), totalBudget);
    for i := 0 to |transactions|
      invariant notifs == head + LargeExpenseAlerts(transactions[..i])
    {
      var t := transactions[i];
      assert transactions[..i + 1] == transactions[..i] + [t];
      LargeExpenseAlertsSnoc(transactions[..i], t);
      if t.kind == ExpenseKind && t.amount > 1000.0 {
        notifs := notifs + [Notification(Tagged(t.id + "-large"), Warning, HighExpense(t.amount, t.category), Some(t.date), Some(t.category))];
      }
    }
    assert transactions[..|transactions|] == transactions;
  }

  /** How many notifications there are: one for the budget when it is
      positive, plus one per large expense. */
  lemma GeneratedCount(ts: seq<Transaction>, totalBudget: real)
    ensures |Generated(ts, totalBudget)| == (if totalBudget > 0.0 then 1 else 0) + |LargeExpenses(ts)|
  {
  }

  /** The budget notice, when present, comes first; then come the large-expense
      warnings, the i-th for the i-th large expense in input order. */
  lemma {:induction false} GeneratedShape(ts: seq<Transaction>, totalBudget: real)
    ensures var g := Generated(ts, totalBudget);
      var offset := if totalBudget > 0.0 then 1 else 0;
      && (totalBudget > 0.0 ==> g[0] == BudgetNotice(Total(ts, ExpenseOnly), totalBudget))
      && (forall i :: offset <= i < |g| ==>
            var t := LargeExpenses(ts)[i - offset];
            && g[i].severity == Warning && g[i].id == Tagged(t.id + LargeSuffix)
            && g[i].date == Some(t.date) && g[i].category == Some(t.category))
  {
  }

  /** The large expenses are exactly the "expense" transactions above 1000,
      kept in input order. */
  lemma {:induction false} LargeExpensesInOrder(ts: seq<Transaction>)
    ensures IsSubsequence(LargeExpenses(ts), ts)
    ensures forall t :: t in LargeExpenses(ts) <==> t in ts && IsLarge(t)
  {
    if ts != [] {
      var init := ts[..|ts| - 1];
      var t := ts[|ts| - 1];
      LargeExpensesInOrder(init);
      var r := LargeExpenses(init);
      if IsLarge(t) {
        assert (r + [t])[..|r + [t]| - 1] == r;
      } else {
        assert r + [] == r;
        SubsequenceOfLonger(r, init, t);
      }
      assert ts == init + [t];
    }
  }

  // ---------------------------------------------------------------------------
  // Severity filter

  /** `a` is `b` with some entries left out, order kept. */
  ghost predicate IsSubsequence<T>(a: seq<T>, b: seq<T>)
  {
    if a == [] then true
    else if b == [] then false
    else if a[|a| - 1] == b[|b| - 1] then IsSubsequence(a[..|a| - 1], b[..|b| - 1])
    else IsSubsequence(a, b[..|b| - 1])
  }

  lemma {:induction false} SubsequenceOfLonger<T>(a: seq<T>, b: seq<T>, x: T)
    requires IsSubsequence(a, b)
    ensures IsSubsequence(a, b + [x])
    decreases |b|, 1
  {
    assert (b + [x])[..|b|] == b;
    if a != [] && a[|a| - 1] == x {
      SubsequenceDropLast(a, b);
    }
  }

  lemma {:induction false} SubsequenceDropLast<T>(a: seq<T>, b: seq<T>)
    requires a != [] && IsSubsequence(a, b)
    ensures IsSubsequence(a[..|a| - 1], b)
    decreases |b|, 0
  {
    if a[..|a| - 1] != [] {
      if a[|a| - 1] == b[|b| - 1] {
        SubsequenceOfLonger(a[..|a| - 1], b[..|b| - 1], b[|b| - 1]);
        assert b[..|b| - 1] + [b[|b| - 1]] == b;
      } else {
        SubsequenceDropLast(a, b[..|b| - 1]);
        SubsequenceOfLonger(a[..|a| - 1], b[..|b| - 1], b[|b| - 1]);
        assert b[..|b| - 1] + [b[|b| - 1]] == b;
      }
    }
  }

  /** The notifications whose severity name is `filterType`, in list order. */
  function OfType(ns: seq<Notification>, filterType: string): seq<Notification>
  {
    if ns == [] then []
    else OfType(ns[..|ns| - 1], filterType) + (if SeverityName(ns[|ns| - 1].severity) == filterType then [ns[|ns| - 1]] else [])
  }

  /** Each notification of the chosen type is kept as often as it occurs,
      every other one is dropped. */
  lemma {:induction false} OfTypeCounts(ns: seq<Notification>, filterType: string)
    ensures forall n :: multiset(OfType(ns, filterType))[n] == if SeverityName(n.severity) == filterType then multiset(ns)[n] else 0
  {
    if ns != [] {
      var init := ns[..|ns| - 1];
      OfTypeCounts(init, filterType);
      assert ns == init + [ns[|ns| - 1]];
    }
  }

  /** `filteredNotifications`: "All" shows every notification, any other
      value exactly those of that type. */
  function FilterNotifications(ns: seq<Notification>, filterType: string): (r: seq<Notification>)
    ensures filterType == AllFilter ==> r == ns
    ensures forall n :: multiset(r)[n] ==
                        (if filterType == AllFilter || SeverityName(n.severity) == filterType
                         then multiset(ns)[n] else 0)
  {
    if filterType == AllFilter then ns
    else
      OfTypeCounts(ns, filterType);
      OfType(ns, filterType)
  }

  /** The filter keeps exactly the entries of the chosen type, in their
      original order ("All" keeps everything). */
  lemma {:induction false} FilterKeepsExactlyMatching(ns: seq<Notification>, filterType: string)
    ensures filterType == AllFilter ==> FilterNotifications(ns, filterType) == ns
    ensures filterType != AllFilter ==>
      forall n :: n in FilterNotifications(ns, filterType) <==> n in ns && SeverityName(n.severity) == filterType
    ensures IsSubsequence(FilterNotifications(ns, filterType), ns)
  {
    if filterType == AllFilter {
      SubsequenceReflexive(ns);
    } else {
      OfTypeInOrder(ns, filterType);
      OfTypeCounts(ns, filterType);
      forall n ensures n in OfType(ns, filterType) <==> n in ns && SeverityName(n.severity) == filterType {
        assert n in OfType(ns, filterType) <==> multiset(OfType(ns, filterType))[n] > 0;
        assert n in ns <==> multiset(ns)[n] > 0;
      }
    }
  }

  lemma {:induction false} SubsequenceReflexive<T>(a: seq<T>)
    ensures IsSubsequence(a, a)
  {
    if a != [] {
      SubsequenceReflexive(a[..|a| - 1]);
    }
  }

  lemma {:induction false} OfTypeInOrder(ns: seq<Notification>, filterType: string)
    ensures IsSubsequence(OfType(ns, filterType), ns)
  {
    if ns != [] {
      var init := ns[..|ns| - 1];
      var n := ns[|ns| - 1];
      OfTypeInOrder(init, filterType);
      var r := OfType(init, filterType);
      if SeverityName(n.severity) == filterType {
        assert (r + [n])[..|r + [n]| - 1] == r;
      } else {
        assert r + [] == r;
        SubsequenceOfLonger(r, init, n);
      }
      assert ns == init + [n];
    }
  }

  /** Filtering twice by the same choice is filtering once. */
  lemma {:induction false} FilterIdempotent(ns: seq<Notification>, filterType: string)
    ensures FilterNotifications(FilterNotifications(ns, filterType), filterType) == FilterNotifications(ns, filterType)
  {
    if filterType != AllFilter {
      OfTypeIdempotent(ns, filterType);
    }
  }

  lemma {:induction false} OfTypeIdempotent(ns: seq<Notification>, filterType: string)
    ensures OfType(OfType(ns, filterType), filterType) == OfType(ns, filterType)
  {
    if ns != [] {
      var init := ns[..|ns| - 1];
      var n := ns[|ns| - 1];
      OfTypeIdempotent(init, filterType);
      var r := OfType(init, filterType);
      if SeverityName(n.severity) == filterType {
        assert (r + [n])[..|r + [n]| - 1] == r;
      } else {
        assert r + [] == r;
      }
    }
  }

  lemma OfTypeLength(ns: seq<Notification>, n: Notification, filterType: string)
    ensures |OfType(ns + [n], filterType)| == |OfType(ns, filterType)| + if SeverityName(n.severity) == filterType then 1 else 0
  {
    assert (ns + [n])[..|ns|] == ns;
  }

  /** The three severity filters split the list: their sizes add up to its size. */
  lemma {:induction false} SeverityFiltersPartition(ns: seq<Notification>)
    ensures |OfType(ns, "info")| + |OfType(ns, "warning")| + |OfType(ns, "danger")| == |ns|
  {
    if ns != [] {
      var init := ns[..|ns| - 1];
      var n := ns[|ns| - 1];
      SeverityFiltersPartition(init);
      OfTypeLength(init, n, "info");
      OfTypeLength(init, n, "warning");
      OfTypeLength(init, n, "danger");
      assert ns == init + [n];
    }
  }

  // ---------------------------------------------------------------------------
  // Worked cases

  /** 800 spent of 1000 is exactly 80%: a warning, not an info notice. */
  lemma EightyPercentIsWarning()
    ensures BudgetNotice(800.0, 1000.0).severity == Warning
  {
  }

  /** 1000 spent of 1000 is a danger notice. */
  lemma FullBudgetIsDanger()
    ensures BudgetNotice(1000.0, 1000.0).severity == Danger
  {
  }

  /** Expenses of 1500, 500 and 2000 give two warnings: the limit is strict. */
  lemma TwoOfThreeAreLarge(a: Transaction, b: Transaction, c: Transaction)
    requires a.kind == ExpenseKind && b.kind == ExpenseKind && c.kind == ExpenseKind
    requires a.amount == 1500.0 && b.amount == 500.0 && c.amount == 2000.0
    ensures LargeExpenses([a, b, c]) == [a, c]
    ensures |Generated([a, b, c], 0.0)| == 2
  {
    assert [a, b, c][..2] == [a, b];
    assert [a, b][..1] == [a];
    assert [a][..0] == [];
    assert LargeExpenses([a]) == [a];
    assert LargeExpenses([a, b]) == [a];
  }
}
