/** The figures the dashboard derives from the transaction list: boolean-mask
    selection, column sums, totals per type, net savings, the savings delta and
    the group-by totals behind the pie and bar charts. */
module Aggregation {
  import opened Ledger

  /** The rows for which keep holds, in their original order (a frame indexed by a mask). */
  function Filter(rows: seq<Transaction>, keep: Transaction -> bool): (r: seq<Transaction>)
    ensures |r| <= |rows|
    ensures forall i :: 0 <= i < |r| ==> keep(r[i])
  {
    if rows == [] then []
    else
      var init, last := rows[..|rows| - 1], rows[|rows| - 1];
      Filter(init, keep) + (if keep(last) then [last] else [])
  }

  /** The selection keeps exactly the rows the mask holds for, each as often as it occurs. */
  lemma {:induction false} FilterCount(rows: seq<Transaction>, keep: Transaction -> bool, x: Transaction)
    ensures multiset(Filter(rows, keep))[x] == if keep(x) then multiset(rows)[x] else 0
  {
    if rows != [] {
      var init, last := rows[..|rows| - 1], rows[|rows| - 1];
      assert rows == init + [last];
      FilterCount(init, keep, x);
    }
  }

  lemma FilterMember(rows: seq<Transaction>, keep: Transaction -> bool, x: Transaction)
    ensures x in Filter(rows, keep) <==> x in rows && keep(x)
  {
    FilterCount(rows, keep, x);
    assert x in Filter(rows, keep) <==> multiset(Filter(rows, keep))[x] > 0;
    assert x in rows <==> multiset(rows)[x] > 0;
  }

  /** The mask "key column equals k". */
  function HasKey<K(==)>(key: Transaction -> K, k: K): Transaction -> bool {
    (r: Transaction) => key(r) == k
  }

  function KindOf(r: Transaction): Kind { r.kind }

  function CategoryOf(r: Transaction): Category { r.category }

  /** The rows of one type: df[df['Type'] == kind]. */
  function OfKind(rows: seq<Transaction>, kind: Kind): (r: seq<Transaction>)
    ensures forall i :: 0 <= i < |r| ==> r[i].kind == kind
  {
    Filter(rows, HasKey(KindOf, kind))
  }

  /** The sum of the Amount column; zero for no rows. */
  function SumAmounts(rows: seq<Transaction>): (r: real)
    ensures AllPositive(rows) ==> r >= 0.0
  {
    if rows == [] then 0.0 else SumAmounts(rows[..|rows| - 1]) + rows[|rows| - 1].amount
  }

  lemma SumSnoc(rows: seq<Transaction>, x: Transaction)
    ensures SumAmounts(rows + [x]) == SumAmounts(rows) + x.amount
  {
    assert (rows + [x])[..|rows|] == rows;
  }

  /** The sum of the Amount column over the rows of one type. */
  function TotalByType(rows: seq<Transaction>, kind: Kind): (r: real)
    ensures AllPositive(rows) ==> r >= 0.0
    ensures (forall i :: 0 <= i < |rows| ==> rows[i].kind != kind) ==> r == 0.0
  {
    FilterPositive(rows, HasKey(KindOf, kind));
    OfKindEmpty(rows, kind);
    SumAmounts(OfKind(rows, kind))
  }

  /** The "Total Income" metric: the Amount sum over the Income rows. */
  function TotalIncome(rows: seq<Transaction>): (r: real)
    ensures AllPositive(rows) ==> r >= 0.0
    ensures (forall i :: 0 <= i < |rows| ==> rows[i].kind != Income) ==> r == 0.0
  {
    TotalByType(rows, Income)
  }

  /** The "Total Expenses" metric: the Amount sum over the Expense rows. */
  function TotalExpenses(rows: seq<Transaction>): (r: real)
    ensures AllPositive(rows) ==> r >= 0.0
    ensures (forall i :: 0 <= i < |rows| ==> rows[i].kind != Expense) ==> r == 0.0
  {
    TotalByType(rows, Expense)
  }

  /** The "Net Savings" metric; with positive amounts it never exceeds total income. */
  function NetSavings(rows: seq<Transaction>): (r: real)
    ensures AllPositive(rows) ==> r <= TotalIncome(rows)
  {
    TotalIncome(rows) - TotalExpenses(rows)
  }

  /** The delta under the Net Savings metric: a percentage of income, or the fixed "0%"
      shown when there is no positive income to divide by. */
  datatype SavingsDelta = Percent(value: real) | NoIncome

  function SavingsDeltaOf(rows: seq<Transaction>): (d: SavingsDelta)
    ensures d.NoIncome? <==> TotalIncome(rows) <= 0.0
    ensures d.Percent? ==> d.value * TotalIncome(rows) == NetSavings(rows) * 100.0
  {
    var income, net := TotalIncome(rows), NetSavings(rows);
    if income > 0.0 then
      PercentScales(net, income);
      Percent(net / income * 100.0)
    else NoIncome
  }

  lemma PercentScales(net: real, income: real)
    requires income > 0.0
    ensures (net / income * 100.0) * income == net * 100.0
  {
    assert net / income * income == net;
  }

  /** The value a map holds for k, zero when k is absent. */
  function Lookup<K>(m: map<K, real>, k: K): real {
    if k in m then m[k] else 0.0
  }

  /** groupby(key)['Amount'].sum(): one entry per key value present among the rows,
      holding the sum of the amounts of the rows with that key. */
  function GroupTotals<K(==)>(rows: seq<Transaction>, key: Transaction -> K): (r: map<K, real>)
    ensures r == map[] <==> rows == []
  {
    if rows == [] then map[]
    else
      var m := GroupTotals(rows[..|rows| - 1], key);
      var k := key(rows[|rows| - 1]);
      m[k := Lookup(m, k) + rows[|rows| - 1].amount]
  }

  /** Appending a row adds its amount to the group of its key. */
  lemma GroupTotalsSnoc<K>(rows: seq<Transaction>, key: Transaction -> K, x: Transaction)
    ensures GroupTotals(rows + [x], key)
      == GroupTotals(rows, key)[key(x) := Lookup(GroupTotals(rows, key), key(x)) + x.amount]
  {
    var all := rows + [x];
    assert all[..|all| - 1] == rows;
  }

  /** The group-by has exactly one key per key value present among the rows. */
  lemma {:induction false} GroupTotalsKeys<K>(rows: seq<Transaction>, key: Transaction -> K, k: K)
    ensures k in GroupTotals(rows, key) <==> exists i :: 0 <= i < |rows| && key(rows[i]) == k
  {
    if rows != [] {
      var init := rows[..|rows| - 1];
      GroupTotalsKeys(init, key, k);
      if k in GroupTotals(init, key) {
        var i :| 0 <= i < |init| && key(init[i]) == k;
        assert key(rows[i]) == k;
      }
    }
  }

  /** Each group holds the sum of the amounts of the rows with that key. */
  lemma {:induction false} GroupTotalsValues<K>(rows: seq<Transaction>, key: Transaction -> K, k: K)
    ensures Lookup(GroupTotals(rows, key), k) == SumAmounts(Filter(rows, HasKey(key, k)))
  {
    if rows != [] {
      var init, last := rows[..|rows| - 1], rows[|rows| - 1];
      GroupTotalsValues(init, key, k);
      if key(last) == k {
        SumSnoc(Filter(init, HasKey(key, k)), last);
      } else {
        assert !HasKey(key, k)(last);
        assert Filter(rows, HasKey(key, k)) == Filter(init, HasKey(key, k));
      }
    }
  }

  /** Expenses grouped by category, the data of the pie chart. */
  function CategoryTotals(rows: seq<Transaction>): (r: map<Category, real>)
    ensures r == map[] <==> forall i :: 0 <= i < |rows| ==> rows[i].kind != Expense
  {
    OfKindEmpty(rows, Expense);
    GroupTotals(OfKind(rows, Expense), CategoryOf)
  }

  /** Totals grouped by type, the data of the bar chart. */
  function TypeTotals(rows: seq<Transaction>): (r: map<Kind, real>)
    ensures r == map[] <==> rows == []
  {
    GroupTotals(rows, KindOf)
  }

  /** The sum of a map's values over the keys ks (absent keys add zero). */
  function SumOver<K>(m: map<K, real>, ks: seq<K>): real {
    if ks == [] then 0.0 else Lookup(m, ks[0]) + SumOver(m, ks[1..])
  }

  // Column sums

  lemma {:induction false} SumConcat(a: seq<Transaction>, b: seq<Transaction>)
    ensures SumAmounts(a + b) == SumAmounts(a) + SumAmounts(b)
  {
    if b == [] {
      assert a + b == a;
    } else {
      var init, last := b[..|b| - 1], b[|b| - 1];
      assert SumAmounts(b) == SumAmounts(init) + last.amount;
      assert a + b == (a + init) + [last];
      SumConcat(a, init);
      SumSnoc(a + init, last);
    }
  }

  /** Taking one row out of a sequence takes its amount out of the sum. */
  lemma SumRemoveAt(b: seq<Transaction>, j: nat)
    requires j < |b|
    ensures SumAmounts(b) == SumAmounts(b[..j] + b[j + 1..]) + b[j].amount
  {
    var pre, x, post := b[..j], b[j], b[j + 1..];
    SplitAt(b, j);
    calc {
      SumAmounts(b);
      SumAmounts((pre + [x]) + post);
      { SumConcat(pre + [x], post); }
      SumAmounts(pre + [x]) + SumAmounts(post);
      { SumSnoc(pre, x); }
      SumAmounts(pre) + x.amount + SumAmounts(post);
      { SumConcat(pre, post); }
      SumAmounts(pre + post) + x.amount;
    }
  }

  /** Reordering the rows does not change a column sum. */
  lemma {:induction false} SumPermutation(a: seq<Transaction>, b: seq<Transaction>)
    requires multiset(a) == multiset(b)
    ensures SumAmounts(a) == SumAmounts(b)
    decreases |a|
  {
    if a == [] {
      assert |b| == |multiset(b)| == 0;
    } else {
      var init, last := a[..|a| - 1], a[|a| - 1];
      assert a == init + [last];
      assert multiset(init) == multiset(a) - multiset{last};
      assert last in multiset(b);
      var j :| 0 <= j < |b| && b[j] == last;
      var rest := b[..j] + b[j + 1..];
      RemoveAtMultiset(b, j);
      SumPermutation(init, rest);
      SumRemoveAt(b, j);
    }
  }

  lemma SplitAt(b: seq<Transaction>, j: nat)
    requires j < |b|
    ensures b == (b[..j] + [b[j]]) + b[j + 1..]
  {
  }

  lemma RemoveAtMultiset(b: seq<Transaction>, j: nat)
    requires j < |b|
    ensures multiset(b[..j] + b[j + 1..]) == multiset(b) - multiset{b[j]}
  {
    SplitAt(b, j);
  }

  /** With positive amounts a sum is never negative, and it is zero only for no rows. */
  lemma {:induction false} SumOfPositives(rows: seq<Transaction>)
    requires AllPositive(rows)
    ensures SumAmounts(rows) >= 0.0
    ensures SumAmounts(rows) == 0.0 <==> rows == []
  {
    if rows != [] {
      SumOfPositives(rows[..|rows| - 1]);
    }
  }

  lemma FilterPositive(rows: seq<Transaction>, keep: Transaction -> bool)
    ensures AllPositive(rows) ==> AllPositive(Filter(rows, keep))
  {
    var f := Filter(rows, keep);
    if AllPositive(rows) {
      forall i | 0 <= i < |f| ensures f[i].amount > 0.0 {
        FilterMember(rows, keep, f[i]);
      }
    }
  }

  // Totals by type and net savings

  /** Appending a row extends the selection of its own type and of no other. */
  lemma OfKindSnoc(rows: seq<Transaction>, x: Transaction, kind: Kind)
    ensures OfKind(rows + [x], kind) == OfKind(rows, kind) + (if x.kind == kind then [x] else [])
  {
    var all := rows + [x];
    assert all[..|all| - 1] == rows;
    if x.kind == kind {
      assert KindOf(x) == kind;
    } else {
      assert KindOf(x) != kind;
    }
  }

  /** Appending a row adds its amount to the total of its own type and to no other. */
  lemma TotalAfterAppend(rows: seq<Transaction>, x: Transaction, kind: Kind)
    ensures TotalByType(rows + [x], kind)
      == TotalByType(rows, kind) + (if x.kind == kind then x.amount else 0.0)
  {
    OfKindSnoc(rows, x, kind);
    if x.kind == kind {
      SumSnoc(OfKind(rows, kind), x);
    } else {
      assert OfKind(rows, kind) + [] == OfKind(rows, kind);
    }
  }

  /** An income row raises net savings by its amount; an expense row lowers them by it. */
  lemma NetSavingsAfterAppend(rows: seq<Transaction>, x: Transaction)
    ensures NetSavings(rows + [x])
      == NetSavings(rows) + (if x.kind == Income then x.amount else -x.amount)
  {
    TotalAfterAppend(rows, x, Income);
    TotalAfterAppend(rows, x, Expense);
  }

  lemma NetSavingsOfEmpty()
    ensures TotalIncome([]) == 0.0 && TotalExpenses([]) == 0.0 && NetSavings([]) == 0.0
  {
  }

  /** Every row is either income or expense: the two type selections split the rows,
      their counts and their amounts. */
  lemma {:induction false} KindsPartitionRows(rows: seq<Transaction>)
    ensures |OfKind(rows, Income)| + |OfKind(rows, Expense)| == |rows|
    ensures TotalIncome(rows) + TotalExpenses(rows) == SumAmounts(rows)
  {
    if rows != [] {
      var init, last := rows[..|rows| - 1], rows[|rows| - 1];
      assert rows == init + [last];
      KindsPartitionRows(init);
      TotalAfterAppend(init, last, Income);
      TotalAfterAppend(init, last, Expense);
      if last.kind == Income {
        assert KindOf(last) != Expense;
      } else {
        assert KindOf(last) != Income;
      }
    }
  }

  /** The selection of one type is empty exactly when no row has that type. */
  lemma OfKindEmpty(rows: seq<Transaction>, kind: Kind)
    ensures OfKind(rows, kind) == [] <==> forall i :: 0 <= i < |rows| ==> rows[i].kind != kind
  {
    var f := OfKind(rows, kind);
    if f != [] {
      FilterMember(rows, HasKey(KindOf, kind), f[0]);
      assert f[0] in rows && f[0].kind == kind;
    }
    if i :| 0 <= i < |rows| && rows[i].kind == kind {
      assert KindOf(rows[i]) == kind;
      FilterMember(rows, HasKey(KindOf, kind), rows[i]);
    }
  }

  /** With positive amounts a type total is non-negative, and zero exactly when no row
      has that type. */
  lemma TotalByTypeSign(rows: seq<Transaction>, kind: Kind)
    requires AllPositive(rows)
    ensures TotalByType(rows, kind) >= 0.0
    ensures TotalByType(rows, kind) == 0.0 <==> forall i :: 0 <= i < |rows| ==> rows[i].kind != kind
  {
    FilterPositive(rows, HasKey(KindOf, kind));
    SumOfPositives(OfKind(rows, kind));
    OfKindEmpty(rows, kind);
  }

  /** With positive amounts the savings delta is at most 100%, reaching it exactly
      when there are no expenses, and is negative exactly when expenses exceed income. */
  lemma SavingsDeltaBounds(rows: seq<Transaction>)
    requires AllPositive(rows)
    ensures SavingsDeltaOf(rows).Percent? ==> SavingsDeltaOf(rows).value <= 100.0
    ensures SavingsDeltaOf(rows).Percent? ==>
      (SavingsDeltaOf(rows).value == 100.0 <==> TotalExpenses(rows) == 0.0)
    ensures SavingsDeltaOf(rows).Percent? ==>
      (SavingsDeltaOf(rows).value < 0.0 <==> TotalExpenses(rows) > TotalIncome(rows))
  {
    TotalByTypeSign(rows, Expense);
    var d := SavingsDeltaOf(rows);
    if d.Percent? {
      var income, expenses := TotalIncome(rows), TotalExpenses(rows);
      PercentOfIncome(d.value, income, expenses);
    }
  }

  lemma PercentOfIncome(p: real, income: real, expenses: real)
    requires income > 0.0 && expenses >= 0.0
    requires p * income == (income - expenses) * 100.0
    ensures p <= 100.0
    ensures p == 100.0 <==> expenses == 0.0
    ensures p < 0.0 <==> expenses > income
  {
    assert (p - 100.0) * income == -expenses * 100.0;
  }

  // Group-by totals

  lemma {:induction false} SumOverUntouched<K>(m: map<K, real>, ks: seq<K>, k: K, v: real)
    requires k !in ks
    ensures SumOver(m[k := v], ks) == SumOver(m, ks)
  {
    if ks != [] {
      SumOverUntouched(m, ks[1..], k, v);
    }
  }

  lemma {:induction false} SumOverEmpty<K>(ks: seq<K>)
    ensures SumOver(map[], ks) == 0.0
  {
    if ks != [] {
      SumOverEmpty(ks[1..]);
    }
  }

  /** Replacing the value of a listed key changes the sum by the difference. */
  lemma {:induction false} SumOverUpdate<K>(m: map<K, real>, ks: seq<K>, k: K, v: real)
    requires Distinct(ks) && k in ks
    ensures SumOver(m[k := v], ks) == SumOver(m, ks) - Lookup(m, k) + v
  {
    if ks[0] == k {
      assert k !in ks[1..];
      SumOverUntouched(m, ks[1..], k, v);
    } else {
      SumOverUpdate(m, ks[1..], k, v);
    }
  }

  /** The group totals add up to the whole Amount column when every key is listed. */
  lemma {:induction false} GroupTotalsAddUp<K>(rows: seq<Transaction>, key: Transaction -> K, ks: seq<K>)
    requires Distinct(ks)
    requires forall i :: 0 <= i < |rows| ==> key(rows[i]) in ks
    ensures SumOver(GroupTotals(rows, key), ks) == SumAmounts(rows)
  {
    if rows == [] {
      SumOverEmpty<K>(ks);
    } else {
      var init, last := rows[..|rows| - 1], rows[|rows| - 1];
      var m, k := GroupTotals(init, key), key(last);
      GroupTotalsAddUp(init, key, ks);
      assert k in ks;
      assert GroupTotals(rows, key) == m[k := Lookup(m, k) + last.amount];
      assert SumAmounts(rows) == SumAmounts(init) + last.amount;
      SumOverUpdate(m, ks, k, Lookup(m, k) + last.amount);
    }
  }

  /** The pie chart has one slice per category among the expense rows, each the sum of
      that category's expenses. */
  lemma CategoryTotalsSpec(rows: seq<Transaction>, c: Category)
    ensures c in CategoryTotals(rows) <==>
      exists i :: 0 <= i < |rows| && rows[i].kind == Expense && rows[i].category == c
    ensures Lookup(CategoryTotals(rows), c)
      == SumAmounts(Filter(OfKind(rows, Expense), HasKey(CategoryOf, c)))
  {
    var expenses := OfKind(rows, Expense);
    GroupTotalsKeys(expenses, CategoryOf, c);
    GroupTotalsValues(expenses, CategoryOf, c);
    if j :| 0 <= j < |expenses| && expenses[j].category == c {
      FilterMember(rows, HasKey(KindOf, Expense), expenses[j]);
    }
    if i :| 0 <= i < |rows| && rows[i].kind == Expense && rows[i].category == c {
      assert KindOf(rows[i]) == Expense;
      FilterMember(rows, HasKey(KindOf, Expense), rows[i]);
      var j :| 0 <= j < |expenses| && expenses[j] == rows[i];
    }
  }

  /** The pie chart's slices add up to the Total Expenses metric. */
  lemma CategoryTotalsAddUp(rows: seq<Transaction>)
    ensures SumOver(CategoryTotals(rows), AllCategories()) == TotalExpenses(rows)
  {
    var expenses := OfKind(rows, Expense);
    forall i | 0 <= i < |expenses| ensures CategoryOf(expenses[i]) in AllCategories() {
      CategoryListed(expenses[i].category);
    }
    GroupTotalsAddUp(expenses, CategoryOf, AllCategories());
  }

  /** The bar chart has one bar per type present, and each bar is that type's total. */
  lemma TypeTotalsSpec(rows: seq<Transaction>, kind: Kind)
    ensures kind in TypeTotals(rows) <==> exists i :: 0 <= i < |rows| && rows[i].kind == kind
    ensures Lookup(TypeTotals(rows), kind) == TotalByType(rows, kind)
  {
    GroupTotalsKeys(rows, KindOf, kind);
    GroupTotalsValues(rows, KindOf, kind);
  }

  /** The two bars add up to all the amounts in the log. */
  lemma TypeTotalsAddUp(rows: seq<Transaction>)
    ensures SumOver(TypeTotals(rows), [Income, Expense]) == TotalIncome(rows) + TotalExpenses(rows)
  {
    forall i | 0 <= i < |rows| ensures KindOf(rows[i]) in [Income, Expense] {
      if rows[i].kind == Income {
        assert [Income, Expense][0] == KindOf(rows[i]);
      } else {
        assert [Income, Expense][1] == KindOf(rows[i]);
      }
    }
    GroupTotalsAddUp(rows, KindOf, [Income, Expense]);
    KindsPartitionRows(rows);
  }
}
