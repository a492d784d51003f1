# Personal Finance Dashboard — a Dafny model

This project models the logic of a Streamlit personal-finance dashboard
(`finance_dashboard.py`). The page keeps one transaction list per browser
session. Each record has a Date, a Type (Income or Expense), a Category, an
Amount and a Description. The sidebar appends records, clears the list, and
the empty page offers to load eight sample records. Everything else the page
shows is derived from the list:

- the totals per type, net savings and the savings delta;
- the number of transactions;
- the expenses grouped by category (the pie chart);
- the totals grouped by type (the bar chart);
- one date-ordered trend line per type;
- the history table, filtered by the selected types and categories and
  ordered newest first.

Modules, leaf first:

- `Ledger` (`ledger.dfy`): the record and its fields, the category list
  offered per type, and the sample data.
- `Aggregation` (`aggregation.dfy`): boolean-mask selection, column sums,
  totals per type, net savings, the savings delta and the group-by totals.
- `Ordering` (`ordering.dfy`): ordering rows by date, ascending or
  descending.
- `Views` (`views.dfy`): the trend series, the type/category filter, the
  history table and the page as a whole.
- `Session` (`session.dfy`): the session's transaction list as a class with
  the add, clear and load-sample actions. It also holds the figures of the
  sample data.

Amounts are `real`, so no floating-point rounding is modelled. A date is a
(year, month, day) triple ordered chronologically. Categories are one
enumeration, and "Other" is a single value shared by both types' lists,
exactly as the equal strings are in the script.

The script has no user accounts, no persistent store and no deletion of single
records: the list lives only in the browser session. Only expense rows are
grouped by category. The list keeps insertion order. The trend lines use a
copy sorted oldest first, and the history table is sorted newest first.

## Model

| member | source | states |
|---|---|---|
| `Ledger.CategoriesFor` | finance_dashboard.py:33-37 | The expense list has seven categories and starts with Food. The income list has five and starts with Salary. Neither list repeats a category, and both contain Other. |
| `Ledger.CategoryListsShareOnlyOther` | finance_dashboard.py:33-37 | A category is in both lists exactly when it is Other. Every category is in at least one of the lists. |
| `Ledger.AllCategories` | finance_dashboard.py:34-37 | The enumeration of every category repeats none. |
| `Ledger.CategoryListed` | finance_dashboard.py:34-37 | Every category is in that enumeration. |
| `Ledger.SampleData` | finance_dashboard.py:75-84 | The sample has eight records. Every amount is positive, and every category comes from the list for the record's type. |
| `Ledger.WellCategorisedSnoc` | finance_dashboard.py:39-57 | After one record is appended, every category still comes from its type's list exactly when that held before and the new record's category comes from its type's list. |
| `Ledger.DateLeIsTotalOrder` | finance_dashboard.py:141-142 | The date order the sorts use is reflexive, total, antisymmetric and transitive. |
| `Aggregation.Filter` | finance_dashboard.py:179-182 | A boolean-mask selection is no longer than its input, and the mask holds for every row it keeps. |
| `Aggregation.FilterCount` | finance_dashboard.py:179-182 | A selection keeps each row the mask holds for exactly as often as the row occurs, and drops every other row. |
| `Aggregation.FilterMember` | finance_dashboard.py:179-182 | A row is in the selection exactly when it is in the input and the mask holds for it. |
| `Aggregation.OfKind` | finance_dashboard.py:91-92 | Every row of the per-type selection has that type. |
| `Aggregation.OfKindEmpty` | finance_dashboard.py:120-121 | The rows of a type are empty exactly when no row has that type. This is the test that decides whether the pie chart is drawn. |
| `Aggregation.SumAmounts` | finance_dashboard.py:91-92 | The `['Amount'].sum()` of a list of rows, zero for no rows. It is non-negative when every amount is positive. Its other properties are `SumConcat`, `SumPermutation` and `SumOfPositives`. |
| `Aggregation.TotalByType` | finance_dashboard.py:91-92 | The Amount sum over the rows of one type. It is non-negative when every amount is positive, and zero when no row has that type. `TotalAfterAppend`, `TotalByTypeSign` and `KindsPartitionRows` state the rest. |
| `Aggregation.TotalIncome` | finance_dashboard.py:91 | The "Total Income" metric, the Amount sum over the Income rows. It is non-negative when every amount is positive, and zero when there is no Income row. |
| `Aggregation.TotalExpenses` | finance_dashboard.py:92 | The "Total Expenses" metric, the Amount sum over the Expense rows. It is non-negative when every amount is positive, and zero when there is no Expense row. |
| `Aggregation.NetSavings` | finance_dashboard.py:93 | The "Net Savings" metric, total income minus total expenses. With positive amounts it never exceeds total income. `NetSavingsAfterAppend`, `NetSavingsOfEmpty` and `SavingsDeltaBounds` state the rest. |
| `Aggregation.SumConcat` | finance_dashboard.py:91-92 | The sum over two concatenated lists is the sum of the two sums. |
| `Aggregation.SumPermutation` | finance_dashboard.py:141-146 | Two row lists holding the same multiset of rows have the same Amount sum. |
| `Aggregation.SumOfPositives` | finance_dashboard.py:49-57 | When all amounts are positive the sum is non-negative, and it is zero only for an empty list. |
| `Aggregation.TotalAfterAppend` | finance_dashboard.py:91-92 | Appending a record adds its amount to the total of its own type and to no other. |
| `Aggregation.NetSavingsAfterAppend` | finance_dashboard.py:91-93 | Appending an income record raises net savings by its amount. Appending an expense record lowers them by its amount. |
| `Aggregation.NetSavingsOfEmpty` | finance_dashboard.py:91-93 | For the empty list, total income, total expenses and net savings are all zero. |
| `Aggregation.KindsPartitionRows` | finance_dashboard.py:91-110 | The income rows and the expense rows together make up the transaction count. Total income plus total expenses is the sum of every amount. |
| `Aggregation.TotalByTypeSign` | finance_dashboard.py:91-92 | When all amounts are positive, each type total is non-negative. It is zero exactly when no row has that type. |
| `Aggregation.SavingsDeltaOf` | finance_dashboard.py:107 | The fixed "0%" fallback is chosen exactly when total income is not positive, so nothing is divided by zero. Otherwise the percentage times total income equals net savings times 100. |
| `Aggregation.SavingsDeltaBounds` | finance_dashboard.py:105-107 | When all amounts are positive the percentage is at most 100. It is exactly 100 when there are no expenses, and it is negative exactly when expenses exceed income. |
| `Aggregation.GroupTotals` | finance_dashboard.py:122 | `groupby(key)['Amount'].sum()`: a map from key value to Amount sum. It is empty exactly when there are no rows. `GroupTotalsKeys`, `GroupTotalsValues` and `GroupTotalsAddUp` give its keys, its values and its grand total. |
| `Aggregation.GroupTotalsKeys` | finance_dashboard.py:122 | The group-by has a key exactly for the key values that occur among the rows. |
| `Aggregation.GroupTotalsValues` | finance_dashboard.py:122 | Each group holds the sum of the amounts of the rows with that key. |
| `Aggregation.GroupTotalsAddUp` | finance_dashboard.py:122 | When every row's key is in a repetition-free key list, the group totals over that list add up to the whole Amount sum. |
| `Aggregation.CategoryTotals` | finance_dashboard.py:120-122 | The pie data: the Expense rows grouped by Category. It is empty exactly when no row is an expense. `CategoryTotalsSpec` and `CategoryTotalsAddUp` give its keys, values and total. |
| `Aggregation.TypeTotals` | finance_dashboard.py:132 | The bar data: all rows grouped by Type. It is empty exactly when there are no rows. `TypeTotalsSpec` and `TypeTotalsAddUp` give its bars and their total. |
| `Aggregation.CategoryTotalsSpec` | finance_dashboard.py:120-122 | The pie has a category exactly when some expense row has it. Its value is the sum of that category's expense amounts. |
| `Aggregation.CategoryTotalsAddUp` | finance_dashboard.py:120-122 | The pie's values add up to total expenses. |
| `Aggregation.TypeTotalsSpec` | finance_dashboard.py:132 | The bar chart has a bar exactly for each type that occurs. Each bar equals that type's total, the figure of the metric cards. |
| `Aggregation.TypeTotalsAddUp` | finance_dashboard.py:132 | The two bars add up to total income plus total expenses. |
| `Ordering.InOrderTotal` | finance_dashboard.py:142 | Of any two rows, at least one may come before the other in either direction. |
| `Ordering.InOrderTransitive` | finance_dashboard.py:142 | The date order between rows is transitive in either direction. |
| `Ordering.SortedCons` | finance_dashboard.py:142 | A row that may come before every row of an ordered table keeps the table ordered when put at its front. |
| `Ordering.Insert` | finance_dashboard.py:142 | Inserting into an ordered table keeps it ordered, and adds exactly that one row. |
| `Ordering.SortByDate` | finance_dashboard.py:142 | The result is ordered by date in the requested direction. It is a permutation of the input. |
| `Ordering.FilterKeepsOrder` | finance_dashboard.py:145-146 | A mask selection taken from a date-ordered table is still date-ordered. |
| `Views.TrendRows` | finance_dashboard.py:141-146 | A trend's rows are in ascending date order. They are a permutation of the rows of that type. |
| `Views.TrendSeries` | finance_dashboard.py:150-158 | A trend line has one point per transaction of its type, and its dates never decrease. Each point is the Date and Amount of the matching row of `Views.TrendRows`, in that order. |
| `Views.TrendRowsTotal` | finance_dashboard.py:141-146 | The amounts of a trend line add up to that type's total. |
| `Views.Selected` | finance_dashboard.py:179-182 | The filter mask: a row passes when its Type is among the selected types and its Category among the selected categories. `Views.History` states what the table keeps under it. |
| `Views.FilterRows` | finance_dashboard.py:179-182 | The filtered frame, in list order. It is no longer than the list, and every row it keeps has a selected type and a selected category. `Aggregation.FilterCount` gives that it keeps every such row. |
| `Views.KindsPresent` | finance_dashboard.py:170-172 | The `Type` values present, the type filter's options and default. It holds exactly the types that occur in some row, and it is empty exactly when the list is. |
| `Views.CategoriesPresent` | finance_dashboard.py:174-176 | The `Category` values present, the category filter's options and default. It holds exactly the categories that occur in some row, and it is empty exactly when the list is. |
| `Views.FilterAll` | finance_dashboard.py:179-182 | A mask that holds for every row keeps the whole table in its original order. |
| `Views.DefaultFiltersKeepAll` | finance_dashboard.py:170-182 | With the default selections (every type and category present), the filtered table is the whole list, unchanged. |
| `Views.History` | finance_dashboard.py:179-185 | The history table holds exactly the rows whose type and category are both selected, each as often as in the list. Its dates never increase. |
| `Views.Render` | finance_dashboard.py:70-189 | The page is the welcome prompt exactly when the list is empty. On the dashboard, the income and expense figures are the type totals, net savings is income minus expenses, and the delta is the savings percentage. The count is the number of rows, which is the number of income rows plus the number of expense rows. The pie is shown exactly when some row is an expense, and then holds the category totals. The bar data is the per-type totals, the two trend lines are the trend series of each type, and the table is the filtered history. |
| `Session.TransactionLog.constructor` | finance_dashboard.py:15-16 | A new session starts with an empty list. |
| `Session.TransactionLog.Add` | finance_dashboard.py:48-61 | A positive amount appends exactly one record carrying the five inputs, at the end, and leaves earlier records unchanged. A non-positive amount leaves the list unchanged and reports the error. For a positive amount, the rows stay well categorised exactly when they were before and the chosen category belongs to the type's list. Amounts stay positive. |
| `Session.TransactionLog.Clear` | finance_dashboard.py:65-67 | The list is empty afterwards, whatever it held. |
| `Session.TransactionLog.LoadSampleData` | finance_dashboard.py:70-85 | The action takes effect exactly when the list is empty. It then replaces the list with the eight sample records. Otherwise nothing changes. |
| `Session.SampleDataTotals` | finance_dashboard.py:75-93 | The sample data has total income 5800, total expenses 1000 and net savings 4800. |
| `Session.SampleDataCategoryTotals` | finance_dashboard.py:75-122 | The sample data's pie shows Food 350, Transportation 80, Entertainment 120, Bills 200 and Shopping 250. |
| `Session.SampleShapeTotals` | finance_dashboard.py:76-84 | Proof helper for `SampleDataTotals`: any eight records with the sample's types and amounts total 5800 income and 1000 expenses. |
| `Session.SampleShapeTotalOf` | finance_dashboard.py:76-92 | Proof helper for `SampleShapeTotals`: such records total 5800 for Income and 1000 for Expense, one type at a time. |
| `Session.SampleShapeExpenses` | finance_dashboard.py:76-84 | Proof helper for `SampleDataCategoryTotals`: the expense rows of eight records with the sample's types are the six sample expenses, in order. |
| `Session.SampleShapeCategoryTotals` | finance_dashboard.py:77-83 | Proof helper for `SampleDataCategoryTotals`: six expenses with the sample's categories and amounts group into the five category totals above. |

## Left out

- Streamlit widgets, page layout, `st.rerun`, the success and error messages and the metric cards are not modelled. The model keeps only the state changes and the values displayed. The Add outcome stands for the two messages.
- Plotly figure construction is not modelled. The model produces only the data handed to the charts.
- Display formatting is not modelled: currency strings, one-decimal percentages and `strftime` dates. Values are kept as numbers and dates. The "0%" fallback is its own constructor, `NoIncome`.
- The CSV download (`to_csv`) is not modelled. It is a library serialiser, and the script has no parser to round-trip with.
- Floating-point amounts and pandas float sums are modelled as exact `real` arithmetic.
- `Ordering.SortByDate`: equal-date rows are not claimed to keep their order, because `sort_values` is not stable. Only date order and permutation are stated.
- `Session.TransactionLog.Add`: the widget's own lower bound (`min_value=0.01`) is not modelled. The guard `amount > 0` is what the model checks.
- `Views.Render`: the two filter selections are parameters. Which values a user picks in the multiselects is interaction and is not modelled. Their defaults are `Views.KindsPresent` and `Views.CategoriesPresent`.
- The unused `savings_delta` label is not modelled. It is computed but never displayed.
- User accounts, password hashing, a relational store, per-user scoping and delete-by-id are not modelled. The script has none of them.
