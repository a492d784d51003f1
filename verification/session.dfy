/** The per-session transaction list and the three sidebar and main-area actions
    that change it: add, clear, and load the sample data. */
module Session {
  import opened Ledger
  import opened Aggregation

  /** What the Add button reports: a success note, or the invalid-amount error. */
  datatype AddOutcome = Added | InvalidAmount

  class TransactionLog {
    var transactions: seq<Transaction>

    /** The guard on Add admits positive amounts only, and the sample rows are positive. */
    ghost predicate Valid()
      reads this
    {
      AllPositive(transactions)
    }

    /** A new session starts with an empty list. */
    constructor ()
      ensures Valid() && transactions == []
    {
      transactions := [];
    }

    /** Appends the record built from the sidebar inputs when the amount is positive;
        otherwise leaves the list as it was and reports the error. Only a category taken
        from the list offered for the type keeps every row well categorised. */
    method Add(date: Date, kind: Kind, category: Category, amount: real, description: string)
      returns (outcome: AddOutcome)
      requires Valid()
      modifies this
      ensures Valid()
      ensures outcome == Added <==> amount > 0.0
      ensures amount > 0.0 ==>
        transactions == old(transactions) + [Transaction(date, kind, category, amount, description)]
      ensures amount <= 0.0 ==> transactions == old(transactions)
      ensures WellCategorised(transactions) <==>
        WellCategorised(old(transactions)) && (amount > 0.0 ==> category in CategoriesFor(kind))
    {
      if amount > 0.0 {
        WellCategorisedSnoc(transactions, Transaction(date, kind, category, amount, description));
        transactions := transactions + [Transaction(date, kind, category, amount, description)];
        outcome := Added;
      } else {
        outcome := InvalidAmount;
      }
    }

    /** "Clear All Data": the list becomes empty whatever it held. */
    method Clear()
      requires Valid()
      modifies this
      ensures Valid() && transactions == []
    {
      transactions := [];
    }

    /** "Load Sample Data" is offered only while the list is empty; it then replaces the
        list with the eight sample records. */
    method LoadSampleData() returns (loaded: bool)
      requires Valid()
      modifies this
      ensures Valid()
      ensures loaded <==> old(transactions) == []
      ensures loaded ==> transactions == SampleData()
      ensures !loaded ==> transactions == old(transactions)
    {
      loaded := |transactions| == 0;
      if loaded {
        transactions := SampleData();
      }
    }
  }

  /** The metrics of the sample data: income 5800, expenses 1000, net savings 4800. */
  lemma SampleDataTotals()
    ensures TotalIncome(SampleData()) == 5800.0
    ensures TotalExpenses(SampleData()) == 1000.0
    ensures NetSavings(SampleData()) == 4800.0
  {
    SampleShapeTotals(SampleData());
  }

  /** The pie chart of the sample data: five expense categories, Food being two rows. */
  lemma SampleDataCategoryTotals()
    ensures CategoryTotals(SampleData())
      == map[Food := 350.0, Transportation := 80.0, Entertainment := 120.0,
             Bills := 200.0, Shopping := 250.0]
  {
    var t := SampleData();
    SampleShapeExpenses(t);
    SampleShapeCategoryTotals(OfKind(t, Expense));
  }

  /** The totals of any eight rows with the sample's types and amounts. */
  lemma SampleShapeTotals(t: seq<Transaction>)
    requires |t| == 8
    requires t[0].kind == Income && t[0].amount == 5000.0
    requires t[1].kind == Expense && t[1].amount == 150.0
    requires t[2].kind == Expense && t[2].amount == 80.0
    requires t[3].kind == Expense && t[3].amount == 120.0
    requires t[4].kind == Expense && t[4].amount == 200.0
    requires t[5].kind == Income && t[5].amount == 800.0
    requires t[6].kind == Expense && t[6].amount == 250.0
    requires t[7].kind == Expense && t[7].amount == 200.0
    ensures TotalIncome(t) == 5800.0 && TotalExpenses(t) == 1000.0
  {
    SampleShapeTotalOf(t, Income);
    SampleShapeTotalOf(t, Expense);
  }

  /** One type's total of such rows, summed one appended row at a time. */
  lemma SampleShapeTotalOf(t: seq<Transaction>, kind: Kind)
    requires |t| == 8
    requires t[0].kind == Income && t[0].amount == 5000.0
    requires t[1].kind == Expense && t[1].amount == 150.0
    requires t[2].kind == Expense && t[2].amount == 80.0
    requires t[3].kind == Expense && t[3].amount == 120.0
    requires t[4].kind == Expense && t[4].amount == 200.0
    requires t[5].kind == Income && t[5].amount == 800.0
    requires t[6].kind == Expense && t[6].amount == 250.0
    requires t[7].kind == Expense && t[7].amount == 200.0
    ensures TotalByType(t, kind) == if kind == Income then 5800.0 else 1000.0
  {
    var p0: seq<Transaction> := [];
    var p1 := p0 + [t[0]];
    var p2 := p1 + [t[1]];
    var p3 := p2 + [t[2]];
    var p4 := p3 + [t[3]];
    var p5 := p4 + [t[4]];
    var p6 := p5 + [t[5]];
    var p7 := p6 + [t[6]];
    var p8 := p7 + [t[7]];
    assert p8 == t;
    if kind == Income {
      TotalAfterAppend(p0, t[0], Income);
      assert TotalByType(p1, Income) == 5000.0;
      TotalAfterAppend(p1, t[1], Income);
      assert TotalByType(p2, Income) == 5000.0;
      TotalAfterAppend(p2, t[2], Income);
      assert TotalByType(p3, Income) == 5000.0;
      TotalAfterAppend(p3, t[3], Income);
      assert TotalByType(p4, Income) == 5000.0;
      TotalAfterAppend(p4, t[4], Income);
      assert TotalByType(p5, Income) == 5000.0;
      TotalAfterAppend(p5, t[5], Income);
      assert TotalByType(p6, Income) == 5800.0;
      TotalAfterAppend(p6, t[6], Income);
      assert TotalByType(p7, Income) == 5800.0;
      TotalAfterAppend(p7, t[7], Income);
      assert TotalByType(p8, Income) == 5800.0;
    } else {
      TotalAfterAppend(p0, t[0], Expense);
      assert TotalByType(p1, Expense) == 0.0;
      TotalAfterAppend(p1, t[1], Expense);
      assert TotalByType(p2, Expense) == 150.0;
      TotalAfterAppend(p2, t[2], Expense);
      assert TotalByType(p3, Expense) == 230.0;
      TotalAfterAppend(p3, t[3], Expense);
      assert TotalByType(p4, Expense) == 350.0;
      TotalAfterAppend(p4, t[4], Expense);
      assert TotalByType(p5, Expense) == 550.0;
      TotalAfterAppend(p5, t[5], Expense);
      assert TotalByType(p6, Expense) == 550.0;
      TotalAfterAppend(p6, t[6], Expense);
      assert TotalByType(p7, Expense) == 800.0;
      TotalAfterAppend(p7, t[7], Expense);
      assert TotalByType(p8, Expense) == 1000.0;
    }
  }

  /** The expense rows of any eight rows with the sample's types. */
  lemma SampleShapeExpenses(t: seq<Transaction>)
    requires |t| == 8
    requires t[0].kind == Income && t[5].kind == Income
    requires t[1].kind == Expense && t[2].kind == Expense && t[3].kind == Expense
    requires t[4].kind == Expense && t[6].kind == Expense && t[7].kind == Expense
    ensures OfKind(t, Expense) == [t[1], t[2], t[3], t[4], t[6], t[7]]
  {
    var p0: seq<Transaction> := [];
    var p1 := p0 + [t[0]];
    var p2 := p1 + [t[1]];
    var p3 := p2 + [t[2]];
    var p4 := p3 + [t[3]];
    var p5 := p4 + [t[4]];
    var p6 := p5 + [t[5]];
    var p7 := p6 + [t[6]];
    var p8 := p7 + [t[7]];
    assert p8 == t;
    OfKindSnoc(p0, t[0], Expense);
    OfKindSnoc(p1, t[1], Expense);
    OfKindSnoc(p2, t[2], Expense);
    OfKindSnoc(p3, t[3], Expense);
    OfKindSnoc(p4, t[4], Expense);
    OfKindSnoc(p5, t[5], Expense);
    OfKindSnoc(p6, t[6], Expense);
    OfKindSnoc(p7, t[7], Expense);
  }

  /** The category totals of any six expense rows with the sample's categories and amounts. */
  lemma SampleShapeCategoryTotals(e: seq<Transaction>)
    requires |e| == 6
    requires e[0].category == Food && e[0].amount == 150.0
    requires e[1].category == Transportation && e[1].amount == 80.0
    requires e[2].category == Entertainment && e[2].amount == 120.0
    requires e[3].category == Bills && e[3].amount == 200.0
    requires e[4].category == Shopping && e[4].amount == 250.0
    requires e[5].category == Food && e[5].amount == 200.0
    ensures GroupTotals(e, CategoryOf)
      == map[Food := 350.0, Transportation := 80.0, Entertainment := 120.0,
             Bills := 200.0, Shopping := 250.0]
  {
    var e0: seq<Transaction> := [];
    var e1 := e0 + [e[0]];
    var e2 := e1 + [e[1]];
    var e3 := e2 + [e[2]];
    var e4 := e3 + [e[3]];
    var e5 := e4 + [e[4]];
    var e6 := e5 + [e[5]];
    assert e6 == e;
    GroupTotalsSnoc(e0, CategoryOf, e[0]);
    GroupTotalsSnoc(e1, CategoryOf, e[1]);
    GroupTotalsSnoc(e2, CategoryOf, e[2]);
    GroupTotalsSnoc(e3, CategoryOf, e[3]);
    GroupTotalsSnoc(e4, CategoryOf, e[4]);
    GroupTotalsSnoc(e5, CategoryOf, e[5]);
  }
}
