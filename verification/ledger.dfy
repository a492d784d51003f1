/** The records of the transaction log and the fixed tables the dashboard uses:
    the category list offered for each transaction type, and the sample data set. */
module Ledger {

  /** A calendar date; only its order matters to the dashboard. */
  datatype Date = Date(year: int, month: int, day: int)

  /** Chronological order on dates: year, then month, then day. */
  predicate DateLe(a: Date, b: Date) {
    a.year < b.year ||
    (a.year == b.year && (a.month < b.month || (a.month == b.month && a.day <= b.day)))
  }

  lemma DateLeIsTotalOrder(a: Date, b: Date, c: Date)
    ensures DateLe(a, a)
    ensures DateLe(a, b) || DateLe(b, a)
    ensures DateLe(a, b) && DateLe(b, a) ==> a == b
    ensures DateLe(a, b) && DateLe(b, c) ==> DateLe(a, c)
  {
  }

  /** The two values of the "Type" select box. */
  datatype Kind = Income | Expense

  /** Every category label either list can offer. "Other" is one label shared by both lists. */
  datatype Category =
    | Food | Transportation | Entertainment | Shopping | Bills | Healthcare | Other
    | Salary | Freelance | Investment | Gift

  /** One row of the session's transaction list: the five keys Date, Type, Category,
      Amount and Description. */
  datatype Transaction = Transaction(
    date: Date,
    kind: Kind,
    category: Category,
    amount: real,
    description: string)

  /** No value occurs twice. */
  predicate Distinct<K(==)>(ks: seq<K>) {
    forall i, j :: 0 <= i < j < |ks| ==> ks[i] != ks[j]
  }

  /** The categories the sidebar offers once a transaction type has been chosen. */
  function CategoriesFor(kind: Kind): (r: seq<Category>)
    ensures Distinct(r)
    ensures Other in r
    ensures kind == Expense ==> |r| == 7 && r[0] == Food
    ensures kind == Income ==> |r| == 5 && r[0] == Salary
  {
    match kind
    case Expense => [Food, Transportation, Entertainment, Shopping, Bills, Healthcare, Other]
    case Income => [Salary, Freelance, Investment, Gift, Other]
  }

  /** The two lists overlap in "Other" only, and together they cover every category. */
  lemma CategoryListsShareOnlyOther(c: Category)
    ensures c in CategoriesFor(Income) && c in CategoriesFor(Expense) <==> c == Other
    ensures c in CategoriesFor(Income) || c in CategoriesFor(Expense)
  {
  }

  /** Every category, each once, in a fixed order; used to add up per-category figures. */
  function AllCategories(): (r: seq<Category>)
    ensures Distinct(r)
  {
    [Food, Transportation, Entertainment, Shopping, Bills, Healthcare, Other,
     Salary, Freelance, Investment, Gift]
  }

  lemma CategoryListed(c: Category)
    ensures c in AllCategories()
  {
  }

  /** The row invariant the Add guard keeps: every amount is positive. */
  predicate AllPositive(rows: seq<Transaction>) {
    forall i :: 0 <= i < |rows| ==> rows[i].amount > 0.0
  }

  /** Every row carries a category from the list offered for its type. */
  predicate WellCategorised(rows: seq<Transaction>) {
    forall i :: 0 <= i < |rows| ==> rows[i].category in CategoriesFor(rows[i].kind)
  }

  lemma WellCategorisedSnoc(rows: seq<Transaction>, x: Transaction)
    ensures WellCategorised(rows + [x]) <==> WellCategorised(rows) && x.category in CategoriesFor(x.kind)
  {
    var all := rows + [x];
    assert all[|rows|] == x;
    if WellCategorised(all) {
      forall i | 0 <= i < |rows| ensures rows[i].category in CategoriesFor(rows[i].kind) {
        assert all[i] == rows[i];
      }
    }
  }

  /** The eight records that "Load Sample Data" puts into an empty log. */
  function SampleData(): (r: seq<Transaction>)
    ensures |r| == 8
    ensures AllPositive(r) && WellCategorised(r)
  {
    [Transaction(Date(2024, 1, 1), Income, Salary, 5000.0, "Monthly salary"),
     Transaction(Date(2024, 1, 5), Expense, Food, 150.0, "Groceries"),
     Transaction(Date(2024, 1, 7), Expense, Transportation, 80.0, "Gas"),
     Transaction(Date(2024, 1, 10), Expense, Entertainment, 120.0, "Movie and dinner"),
     Transaction(Date(2024, 1, 12), Expense, Bills, 200.0, "Electricity"),
     Transaction(Date(2024, 1, 15), Income, Freelance, 800.0, "Web design project"),
     Transaction(Date(2024, 1, 18), Expense, Shopping, 250.0, "Clothes"),
     Transaction(Date(2024, 1, 20), Expense, Food, 200.0, "Restaurant")]
  }
}
