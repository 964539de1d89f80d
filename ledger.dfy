/**
  Transactions as the frontend pages receive them, and the sums and groupings
  that the dashboard and the notification page compute over them.

  Every sum is defined from the back (`s[..|s|-1]` and then the last element),
  which is the order in which the pages' `forEach` / `reduce` loops accumulate.
 */
module Ledger {

  /** One row of `GET /api/transactions/:userId`. `kind` is the row's free-form
      `type` string; `amount` is the value `parseFloat` gives for it. */
  datatype Transaction = Transaction(id: string, kind: string, category: string, amount: real, date: string)

  const IncomeKind: string := "income"
  const ExpenseKind: string := "expense"

  /** Which transactions a sum or a grouping takes into account. The pages are
      not consistent: totals and month buckets treat every type other than
      "income" as an expense, while the category pie and the notifications
      take only the type "expense". */
  datatype Selection = AnyKind | IncomeOnly | NotIncome | ExpenseOnly | OtherKind

  predicate Selects(sel: Selection, t: Transaction)
  {
    match sel
    case AnyKind => true
    case IncomeOnly => t.kind == IncomeKind
    case NotIncome => t.kind != IncomeKind
    case ExpenseOnly => t.kind == ExpenseKind
    case OtherKind => t.kind != IncomeKind && t.kind != ExpenseKind
  }

  /** The two keys transactions are grouped by. */
  datatype Grouping = ByMonth | ByCategory

  /** The "YYYY-MM" prefix of a date: its first seven characters, or the whole
      string when it is shorter. */
  function MonthKey(date: string): (k: string)
    ensures |k| == if |date| < 7 then |date| else 7
    ensures k == date[..|k|]
  {
    if |date| <= 7 then date else date[..7]
  }

  function KeyOf(g: Grouping, t: Transaction): string
  {
    match g
    case ByMonth => MonthKey(t.date)
    case ByCategory => t.category
  }

  /** Sum of the amounts of the selected transactions. */
  function Total(s: seq<Transaction>, sel: Selection): real
  {
    if s == [] then 0.0
    else Total(s[..|s| - 1], sel) + (if Selects(sel, s[|s| - 1]) then s[|s| - 1].amount else 0.0)
  }

  /** Sum of the amounts of the selected transactions whose key under `g` is `k`. */
  function GroupTotal(s: seq<Transaction>, g: Grouping, k: string, sel: Selection): real
  {
    if s == [] then 0.0
    else
      GroupTotal(s[..|s| - 1], g, k, sel)
      + (if Selects(sel, s[|s| - 1]) && KeyOf(g, s[|s| - 1]) == k then s[|s| - 1].amount else 0.0)
  }

  /** The keys of the selected transactions, one per transaction, in input order. */
  function KeysOf(s: seq<Transaction>, g: Grouping, sel: Selection): (ks: seq<string>)
    ensures |ks| <= |s|
  {
    if s == [] then []
    else KeysOf(s[..|s| - 1], g, sel) + (if Selects(sel, s[|s| - 1]) then [KeyOf(g, s[|s| - 1])] else [])
  }

  predicate Distinct(xs: seq<string>)
  {
    forall i, j :: 0 <= i < j < |xs| ==> xs[i] != xs[j]
  }

  /** The distinct elements of `xs` in order of first occurrence: the order in
      which a JavaScript object reports the keys it was given. */
  function FirstSeen(xs: seq<string>): (r: seq<string>)
    ensures Distinct(r)
    ensures forall x :: x in r <==> x in xs
  {
    if xs == [] then []
    else
      var r0 := FirstSeen(xs[..|xs| - 1]);
      var x := xs[|xs| - 1];
      assert xs == xs[..|xs| - 1] + [x];
      if x in r0 then r0 else r0 + [x]
  }

  lemma KeysOfSnoc(s: seq<Transaction>, t: Transaction, g: Grouping, sel: Selection)
    ensures KeysOf(s + [t], g, sel) == KeysOf(s, g, sel) + (if Selects(sel, t) then [KeyOf(g, t)] else [])
  {
    assert (s + [t])[..|s|] == s;
  }

  lemma GroupTotalSnoc(s: seq<Transaction>, t: Transaction, g: Grouping, k: string, sel: Selection)
    ensures GroupTotal(s + [t], g, k, sel)
         == GroupTotal(s, g, k, sel) + (if Selects(sel, t) && KeyOf(g, t) == k then t.amount else 0.0)
  {
    assert (s + [t])[..|s|] == s;
  }

  lemma FirstSeenSnoc(xs: seq<string>, x: string)
    ensures FirstSeen(xs + [x]) == if x in FirstSeen(xs) then FirstSeen(xs) else FirstSeen(xs) + [x]
  {
    assert (xs + [x])[..|xs|] == xs;
  }

  /** Sum of the per-key totals over a list of keys. */
  function SumOverKeys(keys: seq<string>, s: seq<Transaction>, g: Grouping, sel: Selection): real
  {
    if keys == [] then 0.0
    else SumOverKeys(keys[..|keys| - 1], s, g, sel) + GroupTotal(s, g, keys[|keys| - 1], sel)
  }

  /** A key no selected transaction carries has a zero total. */
  lemma {:induction false} GroupTotalAbsent(s: seq<Transaction>, g: Grouping, k: string, sel0: Selection, sel: Selection)
    requires sel0 == AnyKind || sel0 == sel
    requires k !in KeysOf(s, g, sel0)
    ensures GroupTotal(s, g, k, sel) == 0.0
  {
    if s != [] {
      GroupTotalAbsent(s[..|s| - 1], g, k, sel0, sel);
    }
  }

  /** Every selected transaction contributes its key. */
  lemma {:induction false} KeysOfCovers(s: seq<Transaction>, g: Grouping, sel0: Selection, sel: Selection)
    requires sel0 == AnyKind || sel0 == sel
    ensures forall t :: t in s && Selects(sel, t) ==> KeyOf(g, t) in KeysOf(s, g, sel0)
  {
    if s != [] {
      var init := s[..|s| - 1];
      KeysOfCovers(init, g, sel0, sel);
      assert s == init + [s[|s| - 1]];
      forall t | t in s && Selects(sel, t)
        ensures KeyOf(g, t) in KeysOf(s, g, sel0)
      {
        if t in init {
          assert KeyOf(g, t) in KeysOf(init, g, sel0);
        }
      }
    }
  }

  /** Every key in `KeysOf` belongs to a selected transaction. */
  lemma {:induction false} KeysOfSound(s: seq<Transaction>, g: Grouping, sel: Selection, k: string)
    requires k in KeysOf(s, g, sel)
    ensures exists t :: t in s && Selects(sel, t) && KeyOf(g, t) == k
  {
    var init := s[..|s| - 1];
    var t := s[|s| - 1];
    assert s == init + [t];
    if k in KeysOf(init, g, sel) {
      KeysOfSound(init, g, sel, k);
      var u :| u in init && Selects(sel, u) && KeyOf(g, u) == k;
      assert u in s;
    } else {
      assert Selects(sel, t) && KeyOf(g, t) == k;
    }
  }

  lemma {:induction false} SumOverKeysOfEmpty(keys: seq<string>, g: Grouping, sel: Selection)
    ensures SumOverKeys(keys, [], g, sel) == 0.0
  {
    if keys != [] {
      SumOverKeysOfEmpty(keys[..|keys| - 1], g, sel);
    }
  }

  /** Appending one transaction adds its amount to the sum over keys exactly
      once, when it is selected and its key is listed. */
  lemma {:induction false} SumOverKeysSnoc(keys: seq<string>, s: seq<Transaction>, t: Transaction, g: Grouping, sel: Selection)
    requires Distinct(keys)
    ensures SumOverKeys(keys, s + [t], g, sel)
         == SumOverKeys(keys, s, g, sel) + (if Selects(sel, t) && KeyOf(g, t) in keys then t.amount else 0.0)
  {
    assert (s + [t])[..|s + [t]| - 1] == s;
    if keys != [] {
      var init := keys[..|keys| - 1];
      var last := keys[|keys| - 1];
      assert keys == init + [last];
      assert Distinct(init);
      assert last !in init;
      SumOverKeysSnoc(init, s, t, g, sel);
    }
  }

  /** Grouping partitions a total: the per-key totals over a duplicate-free
      list of keys that covers every selected transaction add up to the
      overall total of the selected transactions. */
  lemma {:induction false} GroupingPartitionsTotal(keys: seq<string>, s: seq<Transaction>, g: Grouping, sel: Selection)
    requires Distinct(keys)
    requires forall t :: t in s && Selects(sel, t) ==> KeyOf(g, t) in keys
    ensures SumOverKeys(keys, s, g, sel) == Total(s, sel)
  {
    if s == [] {
      SumOverKeysOfEmpty(keys, g, sel);
    } else {
      var init := s[..|s| - 1];
      var t := s[|s| - 1];
      assert s == init + [t];
      GroupingPartitionsTotal(keys, init, g, sel);
      SumOverKeysSnoc(keys, init, t, g, sel);
    }
  }

  /** Every non-"income" amount is either an "expense" amount or one of an
      unrecognised type; so the two notions of expense differ exactly by the
      unrecognised types. */
  lemma {:induction false} ExpenseSplit(s: seq<Transaction>)
    ensures Total(s, NotIncome) == Total(s, ExpenseOnly) + Total(s, OtherKind)
  {
    if s != [] {
      ExpenseSplit(s[..|s| - 1]);
    }
  }

  /** Strict lexicographic order on strings: the model of `localeCompare` on
      "YYYY-MM" keys. */
  predicate LexLess(a: string, b: string)
  {
    if a == [] then b != []
    else if b == [] then false
    else if a[0] != b[0] then a[0] < b[0]
    else LexLess(a[1..], b[1..])
  }

  lemma {:induction false} LexIrreflexive(a: string)
    ensures !LexLess(a, a)
  {
    if a != [] {
      LexIrreflexive(a[1..]);
    }
  }

  lemma {:induction false} LexTransitive(a: string, b: string, c: string)
    requires LexLess(a, b) && LexLess(b, c)
    ensures LexLess(a, c)
  {
    if a != [] && b != [] && c != [] && a[0] == b[0] && b[0] == c[0] {
      LexTransitive(a[1..], b[1..], c[1..]);
    }
  }

  lemma {:induction false} LexTotal(a: string, b: string)
    requires a != b
    ensures LexLess(a, b) || LexLess(b, a)
  {
    if a != [] && b != [] && a[0] == b[0] {
      assert a == [a[0]] + a[1..] && b == [b[0]] + b[1..];
      LexTotal(a[1..], b[1..]);
    }
  }

  lemma LexAsymmetric(a: string, b: string)
    ensures LexLess(a, b) ==> !LexLess(b, a)
  {
    if LexLess(a, b) && LexLess(b, a) {
      LexTransitive(a, b, a);
      LexIrreflexive(a);
    }
  }
}
