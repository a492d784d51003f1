/** What the main area shows for a transaction list: the welcome prompt for an empty
    list, otherwise the four metrics, the two charts' data, the two trend lines and the
    filtered history table. */
module Views {
  import opened Ledger
  import opened Aggregation
  import opened Ordering

  /** The rows of one type behind a trend line: the whole frame ordered by date,
      then restricted to that type. */
  function TrendRows(rows: seq<Transaction>, kind: Kind): (r: seq<Transaction>)
    ensures SortedByDate(r, true)
    ensures multiset(r) == multiset(OfKind(rows, kind))
  {
    var sorted := SortByDate(rows, true);
    FilterKeepsOrder(sorted, HasKey(KindOf, kind), true);
    forall x ensures multiset(OfKind(sorted, kind))[x] == multiset(OfKind(rows, kind))[x] {
      FilterCount(sorted, HasKey(KindOf, kind), x);
      FilterCount(rows, HasKey(KindOf, kind), x);
    }
    assert multiset(OfKind(sorted, kind)) == multiset(OfKind(rows, kind));
    OfKind(sorted, kind)
  }

  /** A point of a trend line: the date on the x axis and the amount on the y axis. */
  datatype Point = Point(date: Date, amount: real)

  /** The trend line of one type: one point per transaction of that type, by ascending date. */
  function TrendSeries(rows: seq<Transaction>, kind: Kind): (r: seq<Point>)
    ensures |r| == |OfKind(rows, kind)|
    ensures forall i, j :: 0 <= i < j < |r| ==> DateLe(r[i].date, r[j].date)
    ensures |r| == |TrendRows(rows, kind)|
    ensures forall i :: 0 <= i < |r| ==>
              r[i] == Point(TrendRows(rows, kind)[i].date, TrendRows(rows, kind)[i].amount)
  {
    var t := TrendRows(rows, kind);
    assert |t| == |multiset(t)| == |OfKind(rows, kind)|;
    var r := seq(|t|, i requires 0 <= i < |t| => Point(t[i].date, t[i].amount));
    assert forall i :: 0 <= i < |r| ==> r[i].date == t[i].date;
    r
  }

  /** The points of a trend line add up to the matching total metric. */
  lemma TrendRowsTotal(rows: seq<Transaction>, kind: Kind)
    ensures SumAmounts(TrendRows(rows, kind)) == TotalByType(rows, kind)
  {
    SumPermutation(TrendRows(rows, kind), OfKind(rows, kind));
  }

  /** The mask of the two multiselect filters. */
  function Selected(types: set<Kind>, categories: set<Category>): Transaction -> bool {
    (r: Transaction) => r.kind in types && r.category in categories
  }

  /** The rows whose Type is among the selected types and whose Category is among the
      selected categories, in log order. */
  function FilterRows(rows: seq<Transaction>, types: set<Kind>, categories: set<Category>): (r: seq<Transaction>)
    ensures |r| <= |rows|
    ensures forall i :: 0 <= i < |r| ==> r[i].kind in types && r[i].category in categories
  {
    Filter(rows, Selected(types, categories))
  }

  /** The values each multiselect offers, and selects by default. */
  function KindsPresent(rows: seq<Transaction>): (r: set<Kind>)
    ensures forall i :: 0 <= i < |rows| ==> rows[i].kind in r
    ensures forall k :: k in r <==> exists i :: 0 <= i < |rows| && rows[i].kind == k
    ensures r == {} <==> rows == []
  {
    var r := set i | 0 <= i < |rows| :: rows[i].kind;
    assert rows != [] ==> rows[0].kind in r;
    r
  }

  function CategoriesPresent(rows: seq<Transaction>): (r: set<Category>)
    ensures forall i :: 0 <= i < |rows| ==> rows[i].category in r
    ensures forall c :: c in r <==> exists i :: 0 <= i < |rows| && rows[i].category == c
    ensures r == {} <==> rows == []
  {
    var r := set i | 0 <= i < |rows| :: rows[i].category;
    assert rows != [] ==> rows[0].category in r;
    r
  }

  lemma {:induction false} FilterAll(rows: seq<Transaction>, keep: Transaction -> bool)
    requires forall i :: 0 <= i < |rows| ==> keep(rows[i])
    ensures Filter(rows, keep) == rows
  {
    if rows != [] {
      var init := rows[..|rows| - 1];
      FilterAll(init, keep);
      assert keep(rows[|rows| - 1]);
    }
  }

  /** With the default selections (every type and category present) no row is filtered out. */
  lemma DefaultFiltersKeepAll(rows: seq<Transaction>)
    ensures FilterRows(rows, KindsPresent(rows), CategoriesPresent(rows)) == rows
  {
    var types, categories := KindsPresent(rows), CategoriesPresent(rows);
    forall i | 0 <= i < |rows| ensures Selected(types, categories)(rows[i]) {
      assert rows[i].kind in types && rows[i].category in categories;
    }
    FilterAll(rows, Selected(types, categories));
  }

  /** The history table: the selected rows, each as often as in the log, newest first. */
  function History(rows: seq<Transaction>, types: set<Kind>, categories: set<Category>): (r: seq<Transaction>)
    ensures SortedByDate(r, false)
    ensures forall x :: multiset(r)[x] ==
                        (if x.kind in types && x.category in categories then multiset(rows)[x] else 0)
  {
    var r := SortByDate(FilterRows(rows, types, categories), false);
    forall x ensures multiset(r)[x] ==
                     (if x.kind in types && x.category in categories then multiset(rows)[x] else 0) {
      FilterCount(rows, Selected(types, categories), x);
    }
    r
  }

  /** The data of the "Expenses by Category" panel: the pie, or the note that there are none. */
  datatype CategoryChart = NoExpenses | Pie(slices: map<Category, real>)

  datatype Page =
    | Welcome
    | Dashboard(
        totalIncome: real,
        totalExpenses: real,
        netSavings: real,
        delta: SavingsDelta,
        count: nat,
        categoryChart: CategoryChart,
        typeTotals: map<Kind, real>,
        incomeTrend: seq<Point>,
        expenseTrend: seq<Point>,
        history: seq<Transaction>)

  /** The main area for a transaction list and the two filter selections. */
  function Render(rows: seq<Transaction>, types: set<Kind>, categories: set<Category>): (p: Page)
    ensures p.Welcome? <==> rows == []
    ensures p.Dashboard? ==> p.totalIncome == TotalIncome(rows)
    ensures p.Dashboard? ==> p.totalExpenses == TotalExpenses(rows)
    ensures p.Dashboard? ==> p.netSavings == p.totalIncome - p.totalExpenses
    ensures p.Dashboard? ==> p.delta == SavingsDeltaOf(rows)
    ensures p.Dashboard? ==> p.count == |rows|
    ensures p.Dashboard? ==> p.count == |OfKind(rows, Income)| + |OfKind(rows, Expense)|
    ensures p.Dashboard? ==>
      (p.categoryChart.Pie? <==> exists i :: 0 <= i < |rows| && rows[i].kind == Expense)
    ensures p.Dashboard? && p.categoryChart.Pie? ==> p.categoryChart.slices == CategoryTotals(rows)
    ensures p.Dashboard? ==> p.typeTotals == TypeTotals(rows)
    ensures p.Dashboard? ==> p.incomeTrend == TrendSeries(rows, Income)
    ensures p.Dashboard? ==> p.expenseTrend == TrendSeries(rows, Expense)
    ensures p.Dashboard? ==> p.history == History(rows, types, categories)
  {
    if rows == [] then Welcome
    else
      var expenses := OfKind(rows, Expense);
      KindsPartitionRows(rows);
      OfKindEmpty(rows, Expense);
      Dashboard(
        TotalIncome(rows),
        TotalExpenses(rows),
        NetSavings(rows),
        SavingsDeltaOf(rows),
        |rows|,
        if |expenses| > 0 then Pie(CategoryTotals(rows)) else NoExpenses,
        TypeTotals(rows),
        TrendSeries(rows, Income),
        TrendSeries(rows, Expense),
        History(rows, types, categories))
  }
}
