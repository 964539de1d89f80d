# AI-FIN personal finance tracker: verified model of its core logic

AI-FIN is a personal finance web app. A React frontend shows a dashboard and a
notification page. An Express/Postgres backend stores users and their
transactions, where each transaction is an income or an expense. This project
models the three parts of the app that hold logic, rather than I/O:

- **Dashboard aggregation** (`Dashboard`): the totals, the financial health
  score, the month buckets, the savings and cumulative-wealth series, the
  per-category expense pie, and the savings forecast with its "Next" point.
- **Notification rules** (`Notifications`): the budget-status notice, the
  large-expense warnings, and the severity filter.
- **Backend request logic** (`Backend`): the dynamic `UPDATE users` statement
  of the profile-update route, and the required-field check of the
  transaction-creation route.

`Ledger` holds the shared pieces:

- the transaction record;
- the sums and groupings over a sequence of transactions, all defined from the
  back, in the order a `forEach` accumulates;
- the lemma that grouping partitions a total;
- JavaScript's first-insertion key order (`FirstSeen`);
- the lexicographic order used for sorting months.

`Wrappers` holds `Option`.

The pages disagree about what counts as an expense. The model keeps that
difference through `Ledger.Selection`:

- the totals and the month buckets count every type other than "income";
- the category pie and the notifications count only the type "expense".

`Ledger.ExpenseSplit` proves that the two notions differ exactly by the
transactions of other types.

Two behaviours of the code are worth stating outright:

- **80% of the budget.** The warning test is `spentPercent >= 80`, so 800
  spent of a 1000 budget gives a warning, not an info notice
  (`Notifications.EightyPercentIsWarning`).
- **A single month.** The forecast marks its last entry as predicted. With
  fewer than two bars no "Next" point is added, so the last actual bar is the
  one marked (`Dashboard.ForecastSingleMonth`).

Each loop of the source is a method loop with invariants, and each such
method is proved against a specification function or predicate:

- `IsMonthlyBreakdown` for the month buckets;
- `IsCategoryBreakdown` for the category pie;
- `Generated` for the notifications;
- `Aligned` for the lockstep pushes of the profile update (a method without a loop, as in the source), whose fields are `Qualifying`.

Separate lemmas then prove the properties of those specifications.

In the profile-update route, the paired `values.push` / `updates.push` that the handler repeats for each optional field is written once, as the step `Backend.PushIfPresent`.
In the same way, the bodies of the two dictionary loops of `prepareCharts` are the step methods `Dashboard.AddToMonth` and `Dashboard.AddExpense`, and the budget if-chain of `generateNotifications` is `Notifications.PushBudgetStatus`.

## Model

| member | source | states |
|---|---|---|
| Dashboard.CalculateTotals | frontend/src/pages/DashboardPage.jsx:63-75 | The loop's income is the sum of the "income" amounts and its expense the sum of all other amounts. The balance is their difference, unclamped. The score is the clamped health score. |
| Dashboard.HealthScore | frontend/src/pages/DashboardPage.jsx:73-74 | The score always lies in [0, 100]. It is 0 whenever income is not positive. |
| Dashboard.HealthScoreOverspent | frontend/src/pages/DashboardPage.jsx:73-74 | Spending at least the income gives a score of 0. |
| Dashboard.HealthScoreUnclamped | frontend/src/pages/DashboardPage.jsx:73-74 | With positive income and an expense between 0 and the income, the score is exactly the savings ratio times 100. |
| Dashboard.SortByMonth | frontend/src/pages/DashboardPage.jsx:88 | Sorting buckets with distinct months gives a strictly ascending sequence with the same length and the same buckets. |
| Dashboard.MonthlyBuckets | frontend/src/pages/DashboardPage.jsx:79-88 | The dictionary loop plus the sort yields a strictly ascending bucket list. It has one bucket per month prefix present in the data. Each bucket's income and expense are that month's totals. |
| Dashboard.AddToMonth | frontend/src/pages/DashboardPage.jsx:80-86 | One iteration of the month loop keeps the dictionary complete. Its key order still lists each month of the longer prefix once, in order of first appearance. Each bucket holds that month's income and non-income totals over the longer prefix. |
| Dashboard.SortedValues | frontend/src/pages/DashboardPage.jsx:88 | Sorting the values of a month dictionary that is complete for the data gives the monthly breakdown: strictly ascending months, exactly the months present, each with its sums. |
| Dashboard.BucketsPartitionTotals | frontend/src/pages/DashboardPage.jsx:64-69 | Summing bucket incomes over all buckets gives the total income. Summing bucket expenses gives the total expense. |
| Dashboard.NoGapMonths | frontend/src/pages/DashboardPage.jsx:79-88 | A month has a bucket exactly when some transaction's date starts with it. No gap months are synthesised. |
| Dashboard.MonthlyBreakdownUnique | frontend/src/pages/DashboardPage.jsx:79-88 | Any two bucket lists meeting the breakdown specification are equal, so the specification fixes the output. |
| Dashboard.AscendingDistinct | frontend/src/pages/DashboardPage.jsx:88 | An ascending bucket list has no repeated month. |
| Dashboard.Savings | frontend/src/pages/DashboardPage.jsx:92 | The savings series has one point per bucket, in the same month order. Each point holds its bucket's income minus its expense. |
| Dashboard.SavingsTotalIsNet | frontend/src/pages/DashboardPage.jsx:92 | The per-month savings add up to total bucket income minus total bucket expense. |
| Dashboard.Wealth | frontend/src/pages/DashboardPage.jsx:96-100 | The running-sum loop gives one point per bucket, in the same month order. Point i holds the sum of the savings of months 0 through i. |
| Dashboard.CategoryTotals | frontend/src/pages/DashboardPage.jsx:104-110 | The dictionary loop gives one slice per distinct "expense" category, in order of first appearance. Each slice's value is that category's expense total. |
| Dashboard.AddExpense | frontend/src/pages/DashboardPage.jsx:105-109 | One iteration of the pie loop keeps the dictionary complete. Its key order is the first-appearance order of the longer prefix's "expense" categories. Each entry is that category's "expense" total over the longer prefix. |
| Dashboard.PieSumIsExpenseTotal | frontend/src/pages/DashboardPage.jsx:104-110 | The slice values add up to the total of the "expense" amounts. |
| Dashboard.PieOnlyExpenseCategories | frontend/src/pages/DashboardPage.jsx:105-106 | Every slice names the category of some "expense" transaction. |
| Dashboard.Forecast | frontend/src/pages/DashboardPage.jsx:113-121 | The forecast has the bars, followed by a "Next" point at last + (last - prev) * 0.5 when there are at least two bars. Only the final entry carries a prediction, equal to its own savings. |
| Dashboard.ForecastThreeMonths | frontend/src/pages/DashboardPage.jsx:114-120 | Savings of 100, 150 and 200 project 225 for "Next". |
| Dashboard.ForecastSingleMonth | frontend/src/pages/DashboardPage.jsx:114-121 | A single bar is returned unchanged, other than being marked as predicted. |
| Dashboard.ProcessTransactions | frontend/src/pages/DashboardPage.jsx:58-122 | The whole dashboard view. Its totals and score are as above, and the bucket sums equal the totals. The savings series follows the buckets. The last wealth point equals the balance. The pie is the expense breakdown and sums to the expense total. The forecast is built from the savings series. |
| Ledger.GroupingPartitionsTotal | frontend/src/pages/DashboardPage.jsx:80-88 | Per-key totals over a duplicate-free key list that covers every selected transaction add up to the overall total. |
| Ledger.ExpenseSplit | frontend/src/pages/DashboardPage.jsx:67-68 | The non-"income" total equals the "expense" total plus the total of all other types. |
| Ledger.MonthKey | frontend/src/pages/DashboardPage.jsx:81 | A month key is a prefix of the date: its first seven characters, or the whole date when it is shorter. |
| Ledger.FirstSeen | frontend/src/pages/DashboardPage.jsx:110 | The key order of an object holds each inserted key exactly once. |
| Ledger.LexTransitive | frontend/src/pages/DashboardPage.jsx:88 | The month comparison is transitive. |
| Ledger.LexTotal | frontend/src/pages/DashboardPage.jsx:88 | The month comparison orders any two distinct months. |
| Notifications.TotalSpent | frontend/src/pages/NotificationPage.jsx:92-94 | Filtering to "expense" and then summing gives the "expense" total. Other non-income types are not counted. |
| Notifications.BudgetThresholds | frontend/src/pages/NotificationPage.jsx:96-119 | Danger exactly when spent is at least the budget. Warning exactly when spent is at least 80% of the budget and below it. Info otherwise. The notice has a numeric id and no date. |
| Notifications.BudgetStatus | frontend/src/pages/NotificationPage.jsx:96 | There is no budget notice when the budget is not positive, and exactly one when it is. |
| Notifications.PushBudgetStatus | frontend/src/pages/NotificationPage.jsx:96-120 | The if-chain appends exactly the budget notice that BudgetStatus describes, and nothing else, to the list built so far. |
| Notifications.GenerateNotifications | frontend/src/pages/NotificationPage.jsx:90-137 | The if-chain and the loop produce the budget status followed by the large-expense warnings. |
| Notifications.GeneratedCount | frontend/src/pages/NotificationPage.jsx:96-134 | The count is (budget > 0 ? 1 : 0) plus the number of large expenses. |
| Notifications.GeneratedShape | frontend/src/pages/NotificationPage.jsx:96-133 | The budget notice comes first. It is followed by one warning per large expense in input order. Each warning carries the id t.id + "-large", the transaction's date and its category. |
| Notifications.LargeExpensesInOrder | frontend/src/pages/NotificationPage.jsx:123-124 | The large expenses are exactly the "expense" transactions strictly above 1000, kept in input order. |
| Notifications.LargeExpensesCounts | frontend/src/pages/NotificationPage.jsx:123-124 | Each large expense occurs as often as in the input. No other transaction occurs. |
| Notifications.TwoOfThreeAreLarge | frontend/src/pages/NotificationPage.jsx:124 | Expenses of 1500, 500 and 2000 give two warnings, because the limit is strict. |
| Notifications.EightyPercentIsWarning | frontend/src/pages/NotificationPage.jsx:105 | 800 spent of 1000 gives a warning. |
| Notifications.FullBudgetIsDanger | frontend/src/pages/NotificationPage.jsx:98 | 1000 spent of 1000 gives a danger notice. |
| Notifications.FilterKeepsExactlyMatching | frontend/src/pages/NotificationPage.jsx:151-154 | "All" returns the list unchanged. Any other choice keeps exactly the entries of that type, in their original order. |
| Notifications.FilterNotifications | frontend/src/pages/NotificationPage.jsx:151-154 | "All" returns the list unchanged. In every case an entry occurs in the result as often as in the input when it passes the filter, and not at all otherwise. |
| Notifications.OfTypeCounts | frontend/src/pages/NotificationPage.jsx:154 | Filtering keeps every matching entry as often as it occurs and drops every other entry. |
| Notifications.FilterIdempotent | frontend/src/pages/NotificationPage.jsx:151-154 | Filtering twice by the same choice is the same as filtering once. |
| Notifications.SeverityFiltersPartition | frontend/src/pages/NotificationPage.jsx:154 | The info, warning and danger filters together account for every notification exactly once. |
| Backend.Trim | backend/index.js:113-124 | `trim` gives the empty string exactly when the text is all whitespace. Otherwise the result starts and ends with non-whitespace. |
| Backend.TrimRemovesOnlyOuterSpace | backend/index.js:113-124 | `trim` removes whitespace only, and only at the two ends. |
| Backend.TrimIdempotent | backend/index.js:113-124 | Trimming twice is the same as trimming once. |
| Backend.FilledWhenNotBlank | backend/index.js:113-124 | A text field counts exactly when it is sent and holds a non-whitespace character. Its value is then the trimmed, non-empty text. |
| Backend.DecimalRoundTrip | backend/index.js:115 | Reading back the decimal rendering of a placeholder number gives the number. |
| Backend.AssignmentRoundTrip | backend/index.js:115 | The text `column=$k` reads back as exactly that column and that k. |
| Backend.QualifyingInOrder | backend/index.js:113-129 | Qualifying fields keep the fixed order username, email, password, picture. No field repeats, and there are at most four. |
| Backend.QualifyingValues | backend/index.js:113-129 | Each field qualifies exactly when it is present and non-blank, with its trimmed value. The password value is its hash. The picture qualifies when a file was uploaded. |
| Backend.BuildProfileUpdate | backend/index.js:110-137 | With no qualifying field the reply is 400 "No valid fields to update". Otherwise the assignments and values are aligned field by field. `updated_at=NOW()` comes last and binds nothing. `userId` is the last value, named by `WHERE id=$n` with n = number of fields + 1. |
| Backend.AlignedPlaceholdersResolve | backend/index.js:113-129 | In aligned lists, the i-th assignment reads back as the i-th field's column and the placeholder i + 1. The value at that position is the i-th field's value. |
| Backend.PushIfPresent | backend/index.js:113-129 | A present value is appended to the values, with its assignment `column=$n` where n is the new number of values. The lists stay aligned with the fields extended by that field. An absent value leaves both lists as they were. |
| Backend.UpdateQueryWhere | backend/index.js:137 | The statement is the SET clause followed by the condition `id=$k` and the fixed RETURNING columns. That condition reads back as the column `id` and the placeholder k. |
| Backend.UpdatePlaceholdersBindValues | backend/index.js:113-137 | In a built update, the i-th field assignment reads back as that field's column and the placeholder `$(i+1)`, and value i+1 is that field's value. The final value is `userId`. |
| Backend.CreateTransaction | backend/index.js:152-153 | The request is refused with 400 "All fields are required" exactly when some required field is falsy. Otherwise the INSERT parameters are the user id followed by the four fields as sent. |
| Backend.ZeroAmountIsRefused | backend/index.js:152-153 | The number 0 counts as a missing amount. The text "0" does not. |

## Left out

- **Fetching and display.** Fetching, `localStorage`, routing, state hooks and all rendering are not modelled. State setters become the values the methods return. Because those values are immutable, filtering cannot change the generated notification list and needs no separate proof.
- **Amounts.** Amounts are `real`, the value `parseFloat` yields. NaN, IEEE rounding, `toFixed` and locale formatting are not modelled. Message texts are tags holding the values they show.
- **Transaction ids.** A transaction id is modelled as the string `t.id + "-large"` concatenates. The number-to-string conversion happens there.
- **Sorting.** `localeCompare` is modelled as plain lexicographic order on the month keys. The library sort is modelled as an insertion sort with the same result: months are distinct, so a strict order determines the output.
- **Object key order.** JavaScript object key order is modelled as first-insertion order. JavaScript lists integer-like keys first, which cannot happen for "YYYY-MM" keys. It could happen for purely numeric category names, and that case is not modelled.
- **Password hashing.** `bcrypt.hash` is the function parameter `hash`. Its random salt and its asynchrony are not modelled.
- **Backend plumbing.** The Express routing, multer, the Postgres pool and the 404/500 replies that follow the query are not modelled.
- **Request bodies.** Profile form fields are modelled as optional strings, as multipart parsing delivers them. A transaction body field is a JSON value (`BodyValue`); objects and arrays are the single always-truthy case `Composite`, whose contents are not modelled.
- Dashboard.CategoryTotals: category names that are inherited `Object.prototype` members are not modelled. The map starts out with no keys, while `{}` inherits members such as `constructor`, `toString`, `valueOf` and `hasOwnProperty`. For those names `(categoryTotals[cat] || 0)` reads a function, and `+` then concatenates strings, so that slice's value becomes a string. An assignment to `__proto__` is ignored and its slice vanishes. On such inputs `IsCategoryBreakdown` and `PieSumIsExpenseTotal` do not describe the program. Categories are free text, but the model treats every name as an ordinary key.
