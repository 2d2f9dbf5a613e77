# SpendWise budget logic in Dafny

SpendWise is a personal-finance web app. Users log transactions, set monthly budgets
per category, and get alerts when spending nears or passes a limit. This project models
the part of the React front end that computes over that data, and proves properties of
the model:

- **Dashboard** (`dashboard.dfy`): the budget threshold evaluator `checkBudgetThresholds`.
  - For each budget it resolves the category name (a string, an object's name, or `"Unknown"`).
  - It sums the amounts of the transactions filed under that name.
  - It skips a zero limit.
  - It emits a warning from 90% of the limit and a critical alert from 100%.
  - The alert list is replaced in full, and a notification flag is raised when it grows.
  - Its handler for an added transaction prepends it and re-evaluates. As the app is
    wired, no child component calls this handler or the two loading handlers (see
    "## Left out").
- **BudgetsTable** (`budgets_table.dfy`): the table's helpers. These are:
  - category-name lookup, falling back to the categories list and then to `"Unknown Category"`;
  - per-category spend, which excludes Income;
  - the usage percentage, capped at 100;
  - the four-band status colour;
  - the alert-membership test;
  - the local append of a new budget from the form.
- **SpendingOverview** (`spending_overview.dfy`): the pie chart.
  - Six pre-seeded buckets are filled in place by a loop over the transactions.
  - Income is skipped, and unknown categories fall into `Other`.
  - The chart keeps the non-empty buckets in declaration order.
  - The figures are the total of the chart and the count of non-Income transactions.
- **Chatbot** (`chatbot.dfy`): the assistant panel.
  - Its log starts with a welcome message.
  - While it is mounted, it announces each budget id's alert at most once, using the
    `alertsProcessed` set. The panel is mounted only while open, so reopening it starts
    a fresh log and set, and the current alerts are announced again.
  - It ignores blank input.
  - For other input it appends the question and a reply. The reply is chosen by a
    keyword priority chain on the lowered query and computed from the budgets,
    transactions and alerts.
- **CategoryMap** (`category_map.dfy`): the static name-to-id table and its two lookups.
- **Converters** (`converters.dfy`): `dbToUI`, which copies a database row and replaces
  falsy fields with defaults.
- **Types** (`types.dfy`): the records of `frontend/src/types/database.ts`.
- **Consistency** (`consistency.dfy`): relates the components.
  - It states where their separate category resolutions and filters agree.
  - It gives concrete inputs where they differ.

Amounts, limits and percentages are exact reals. A category reference is one of
three cases:

- `Str(s)`, a plain string;
- `Obj(c)`, a category object;
- `Absent`, for `undefined` or `null`.

Each component resolves a reference exactly as its own code does, and these resolutions
differ:

- For a missing category, the dashboard's sentinel is `"Unknown"`. The table and the
  overview's count use `String(undefined)`, which is `"undefined"`. The overview's
  buckets use `Other`.
- The chat compares the raw value with the string `'Income'`, so an Income category
  held as an object counts as spend there.
- The dashboard does not exclude Income from a category's spend. The table
  (BudgetsTable.tsx:96) and the overview (SpendingOverview.tsx:30) skip Income, but
  the dashboard's filter (Dashboard.tsx:43-48) compares names only, so an Income
  budget is charged with Income transactions (`Dashboard.IncomeIsCounted`,
  `Consistency.IncomeSpendDiverges`).

The dashboard renders the table with its own budget list and `setBudgets`
(Dashboard.tsx:127-134), so in the program the two budget lists are one. The model keeps
a list in each class and relates them in `Consistency.AddBudgetFromTable`: adding a
budget in the table replaces the dashboard's list through `SetBudgets` and leaves the
alerts as they were.

Stateful parts are classes whose methods update their fields:

- `Dashboard.DashboardState`;
- `BudgetsTable.BudgetsTableState`;
- `Chatbot.ChatbotState`.

Loops are methods. Each is proved equal to a recursive specification function, whose
properties are proved as lemmas.

## Model

| member | source | states |
|---|---|---|
| CategoryMap.TableMatchesNames | frontend/src/lib/categoryMap.ts:1-8 | The table has exactly the six names as keys, the n-th declared name mapped to n. |
| CategoryMap.GetCategoryId | frontend/src/lib/categoryMap.ts:10-12 | The id is the table's entry for a known name and 6 for any other name, so it is always in 1..6. |
| CategoryMap.FindKey | frontend/src/lib/categoryMap.ts:16 | The key found is one of the searched keys with the requested id; when none is found, no searched key has that id. |
| CategoryMap.GetCategoryName | frontend/src/lib/categoryMap.ts:15-17 | An id in 1..6 gives the name declared at that place; any other id gives "Other". |
| CategoryMap.TableInjective | frontend/src/lib/categoryMap.ts:1-8 | No two names share an id, so the reverse lookup is unambiguous. |
| CategoryMap.NameIdRoundTrip | frontend/src/lib/categoryMap.ts:10-17 | For a known name, looking up its id and then that id's name gives the name back. |
| CategoryMap.IdNameRoundTrip | frontend/src/lib/categoryMap.ts:10-17 | For an id in 1..6, looking up its name and then that name's id gives the id back. |
| CategoryMap.UnknownNameLost | frontend/src/lib/categoryMap.ts:10-17 | An unknown name comes back as "Other", not as itself. |
| Converters.OrEmpty | frontend/src/lib/converters.ts:23 | `value`, or `''` when it is falsy: a non-empty string is kept; null or the empty string gives the empty string. |
| Converters.DbToUi | frontend/src/lib/converters.ts:4-30 | Ids and amount are copied. A truthy category is kept and a falsy one becomes "Uncategorized", so the result's category is always truthy. Merchant and raw text default to the empty string. |
| Converters.DbToUiIdempotent | frontend/src/lib/converters.ts:4-30 | Converting a converted record again changes nothing. |
| Converters.TruthyRowUnchanged | frontend/src/lib/converters.ts:4-30 | A row whose category, merchant and raw text are all truthy passes through unchanged. |
| Dashboard.ResolvedName | frontend/src/components/Dashboard.tsx:41 | A string is kept and an object with a name gives that name; a missing category or an object with an empty name gives "Unknown". |
| Dashboard.CategorySpent | frontend/src/components/Dashboard.tsx:43-48 | The sum of the amounts of the transactions whose resolved name is the budget's name; its properties are `SpentPartition` and `CategorySpentAppend`. |
| Dashboard.SpentPartition | frontend/src/components/Dashboard.tsx:43-48 | A category's spend plus every other transaction's amount is the total: nothing is dropped or counted twice, and Income is no exception. |
| Dashboard.CategorySpentAppend | frontend/src/components/Dashboard.tsx:43-48 | The spend over a concatenation is the sum of the spends of its parts. |
| Dashboard.AlertFor | frontend/src/components/Dashboard.tsx:40-63 | One budget's alert, if any; `EvaluateSingle` states when it exists and what it carries. |
| Dashboard.Evaluate | frontend/src/components/Dashboard.tsx:37-64 | The alert list for all budgets, in budget order; `EvaluateSound` and `EvaluateComplete` state what it holds. |
| Dashboard.EvaluateAppend | frontend/src/components/Dashboard.tsx:40-64 | Alerts come out in budget order, each budget contributing on its own. |
| Dashboard.EvaluateSingle | frontend/src/components/Dashboard.tsx:40-63 | One budget yields at most one alert, and yields one exactly when its limit is non-zero and its spend reaches 90%. The alert carries the budget's id, resolved name, spend and limit, and is well formed. |
| Dashboard.EvaluateSound | frontend/src/components/Dashboard.tsx:37-68 | There are no more alerts than budgets. Every alert is well formed: non-zero limit, percentage equal to spent/limit*100 and at least 90, critical exactly from 100. Every alert comes from some input budget. |
| Dashboard.EvaluateComplete | frontend/src/components/Dashboard.tsx:54-63 | Every budget whose spend reaches the threshold gets its alert in the list. |
| Dashboard.ZeroLimitNeverAlerts | frontend/src/components/Dashboard.tsx:50 | A budget id whose budgets all have a zero limit never appears in the alerts, whatever the spend. |
| Dashboard.NoBudgetsNoAlerts | frontend/src/components/Dashboard.tsx:38-40 | An empty budget list gives an empty alert list. |
| Dashboard.NoTransactionsNoAlerts | frontend/src/components/Dashboard.tsx:43-54 | Without transactions no budget alerts. |
| Dashboard.ThresholdCrossMultiplied | frontend/src/components/Dashboard.tsx:52-54 | For a positive limit, `percentage >= t` holds exactly when `spent * 100 >= t * limit`. |
| Dashboard.AlertIffThreshold | frontend/src/components/Dashboard.tsx:52-61 | A budget with a positive limit alerts exactly when its spend reaches 90% of the limit, and the alert is critical exactly when the spend reaches the limit. |
| Dashboard.ThresholdBoundaries | frontend/src/components/Dashboard.tsx:54-61 | Against a limit of 100: 90 gives a warning at 90%, 100 gives a critical alert, and 89.99 gives nothing. |
| Dashboard.FoodWarningScenario | frontend/src/components/Dashboard.tsx:37-68 | A 500 Food & Dining budget with 450 of food and 50 of Income gives a single warning: 450 spent, 90%. |
| Dashboard.IncomeIsCounted | frontend/src/components/Dashboard.tsx:43-48 | Income transactions count towards an Income budget: 95 against 100 warns. |
| Dashboard.ComputeAlerts | frontend/src/components/Dashboard.tsx:38-64 | The `forEach`/`push` loop returns exactly the evaluator's alert list. |
| Dashboard.DashboardState.constructor | frontend/src/components/Dashboard.tsx:15-22 | Empty transactions, budgets and categories, the given alerts, the flag down and the chat closed. |
| Dashboard.DashboardState.CheckBudgetThresholds | frontend/src/components/Dashboard.tsx:37-68 | The alert list is replaced by the evaluation of the inputs. The flag is raised when the new list is longer than the old one; otherwise it keeps its value. |
| Dashboard.DashboardState.OnTransactionAdded | frontend/src/components/Dashboard.tsx:117-121 | The transaction is prepended and the alerts re-evaluated. Every category's spend grows by the new amount exactly when the new transaction is filed under it. |
| Dashboard.DashboardState.OnTransactionsLoaded | frontend/src/components/Dashboard.tsx:24-27 | The loaded transactions and categories replace the held ones, and nothing else changes. |
| Dashboard.DashboardState.OnBudgetsLoaded | frontend/src/components/Dashboard.tsx:29-34 | The loaded budgets replace the held ones. The alerts become the evaluation of those budgets against the held transactions, and the flag is raised when the list grows. |
| Dashboard.DashboardState.SetBudgets | frontend/src/components/Dashboard.tsx:21 | The budget list is replaced, and the alerts are left as they were. |
| Dashboard.DashboardState.ToggleChatbot | frontend/src/components/Dashboard.tsx:141-143 | The chat panel flips and the notification flag is cleared. |
| BudgetsTable.FindCategory | frontend/src/components/BudgetsTable.tsx:79 | `find` returns the first category with the id, and nothing exactly when no category has it. |
| BudgetsTable.CategoryName | frontend/src/components/BudgetsTable.tsx:69-81 | An object gives its name and a string itself. Otherwise the id is looked up in the categories, giving "Unknown Category" when it is not found. |
| BudgetsTable.TransactionCategoryName | frontend/src/components/BudgetsTable.tsx:88-94 | An object gives its name, a string itself, and a missing category "undefined". |
| BudgetsTable.CategorySpent | frontend/src/components/BudgetsTable.tsx:84-98 | The sum of the amounts filed under the name, Income excluded; its properties are `IncomeNeverSpent`, `NoMatchNoSpend` and `SpentNonNegative`. |
| BudgetsTable.IncomeNeverSpent | frontend/src/components/BudgetsTable.tsx:96 | The spend of "Income" is 0 whatever the transactions. |
| BudgetsTable.NoMatchNoSpend | frontend/src/components/BudgetsTable.tsx:84-98 | When no transaction is filed under the name, its spend is 0. |
| BudgetsTable.SpentNonNegative | frontend/src/components/BudgetsTable.tsx:84-98 | With non-negative amounts every category's spend is non-negative. |
| BudgetsTable.Percentage | frontend/src/components/BudgetsTable.tsx:101-104 | A zero allocation gives 0 and the result never exceeds 100. For a positive allocation the result is non-negative when the spend is, and is 100 exactly when the spend reaches the allocation. |
| BudgetsTable.StatusColorOf | frontend/src/components/BudgetsTable.tsx:106-111 | The colour is red from 100, orange in [90, 100), yellow in [80, 90) and green below 80, each band in both directions. |
| BudgetsTable.StatusColorMonotone | frontend/src/components/BudgetsTable.tsx:106-111 | A higher percentage never gives a less alarming colour. |
| BudgetsTable.RedIffOverspent | frontend/src/components/BudgetsTable.tsx:189-190 | With a positive limit, a row is red exactly when its spend has reached the limit. |
| BudgetsTable.HasAlert | frontend/src/components/BudgetsTable.tsx:120-122 | True exactly when some alert carries the budget id. |
| BudgetsTable.SelectedCategory | frontend/src/components/BudgetsTable.tsx:41 | It is the category object exactly when one with that id exists, and that object has the id and is one of the categories. |
| BudgetsTable.BudgetsTableState.constructor | frontend/src/components/BudgetsTable.tsx:14-21 | The budgets as given, the form closed and empty, not loading. |
| BudgetsTable.BudgetsTableState.HandleAddBudget | frontend/src/components/BudgetsTable.tsx:23-66 | Exactly one budget is appended and the existing ones are untouched. The new budget has the parsed id and limit, user 1, "Monthly" and the selected category. The form is reset and closed, and loading ends. |
| SpendingOverview.BucketName | frontend/src/components/SpendingOverview.tsx:22-27 | A string is kept and an object gives its name; anything else is "Other". |
| SpendingOverview.Lookup | frontend/src/components/SpendingOverview.tsx:31 | It finds the bucket whose key is the name, and nothing exactly when no key is. |
| SpendingOverview.Target | frontend/src/components/SpendingOverview.tsx:31-37 | A name lands in the bucket with that key, or in Other when it is not a key. |
| SpendingOverview.LabelInjective | frontend/src/components/SpendingOverview.tsx:11-18 | The six keys are distinct strings. |
| SpendingOverview.BucketListed | frontend/src/components/SpendingOverview.tsx:11-18 | Every bucket is one of the six seeded keys. |
| SpendingOverview.InitialBuckets | frontend/src/components/SpendingOverview.tsx:11-18 | All six buckets are present, each at 0. |
| SpendingOverview.Accumulate | frontend/src/components/SpendingOverview.tsx:29-38 | One step keeps all six buckets present. |
| SpendingOverview.AccumulateAdds | frontend/src/components/SpendingOverview.tsx:29-38 | An Income transaction leaves the buckets unchanged. Any other adds its amount to the bucket its name lands in, and to no other bucket. |
| SpendingOverview.BucketsAfter | frontend/src/components/SpendingOverview.tsx:20-39 | The buckets after the loop, with all six kept present; `BucketsAfterAreTotals` gives each bucket's value. |
| SpendingOverview.BucketsAfterStep | frontend/src/components/SpendingOverview.tsx:20-39 | Folding one more transaction applies one more step to the buckets so far. |
| SpendingOverview.AccumulateCategoryData | frontend/src/components/SpendingOverview.tsx:20-39 | The in-place `forEach` produces exactly the table specified by folding the steps over the transactions. |
| SpendingOverview.BucketsAfterAreTotals | frontend/src/components/SpendingOverview.tsx:29-38 | Each bucket ends holding the sum of the non-Income amounts whose name lands in it. |
| SpendingOverview.ChartFrom | frontend/src/components/SpendingOverview.tsx:41-47 | The chart has no more slices than keys. |
| SpendingOverview.ChartSound | frontend/src/components/SpendingOverview.tsx:41-47 | Every slice is a bucket of the keys with a positive value, under its key and seeded colour. |
| SpendingOverview.ChartComplete | frontend/src/components/SpendingOverview.tsx:41-47 | Every bucket of the keys with a positive value is in the chart. |
| SpendingOverview.ChartIsPositiveKeys | frontend/src/components/SpendingOverview.tsx:41-47 | The chart is the keys with a positive value, in key order, each as a slice of its label, value and colour. |
| SpendingOverview.ChartData | frontend/src/components/SpendingOverview.tsx:41-47 | The slices of the non-empty buckets; `ChartDataSpec` states exactly which, in which order. |
| SpendingOverview.ChartDataSpec | frontend/src/components/SpendingOverview.tsx:41-47 | The chart data holds exactly the buckets with a positive value, each with its value and colour, in declaration order. |
| SpendingOverview.TotalSpent | frontend/src/components/SpendingOverview.tsx:49 | The sum of the slices' values; `ChartSum` and `TotalSpentIsNonIncomeSum` say what it equals. |
| SpendingOverview.ChartSum | frontend/src/components/SpendingOverview.tsx:49 | With no negative bucket, the chart's total equals the sum over all buckets: dropping the zero buckets changes nothing. |
| SpendingOverview.BucketsSumToNonIncome | frontend/src/components/SpendingOverview.tsx:20-39 | The buckets together hold every non-Income amount exactly once. |
| SpendingOverview.SumStep | frontend/src/components/SpendingOverview.tsx:29-38 | One step raises the sum over all buckets by the transaction's amount, or by nothing for Income. |
| SpendingOverview.BucketsNonNegative | frontend/src/components/SpendingOverview.tsx:32-36 | With non-negative amounts no bucket goes negative. |
| SpendingOverview.TotalSpentIsNonIncomeSum | frontend/src/components/SpendingOverview.tsx:49 | With non-negative amounts, `totalSpent` is the sum of all non-Income amounts. |
| SpendingOverview.CountName | frontend/src/components/SpendingOverview.tsx:53 | An object gives its name; anything else gives `String(category)`, which is "undefined" when missing. The expression coincides with the table's, so it is defined as `BudgetsTable.TransactionCategoryName`. |
| SpendingOverview.TransactionCount | frontend/src/components/SpendingOverview.tsx:52-55 | The count never exceeds the number of transactions. |
| SpendingOverview.CountMatchesBuckets | frontend/src/components/SpendingOverview.tsx:52-55 | The count equals the number of transactions the bucket loop does not skip as Income, despite the two resolving a missing category differently. |
| Chatbot.SenderOf | frontend/src/components/Chatbot.tsx:5-11 | A message is from the user exactly when it is the user's question. |
| Chatbot.NoticeOf | frontend/src/components/Chatbot.tsx:65-70 | A critical alert gives the exceeded text and any other the warning text. Both carry the alert's category, spend, limit and percentage. The warning also carries `limit - spent` as the amount remaining. |
| Chatbot.IdSetMembers | frontend/src/components/Chatbot.tsx:60-63 | The set holds exactly the budget ids of the alerts. |
| Chatbot.Notify | frontend/src/components/Chatbot.tsx:59-83 | The alert messages the effect appends, one per new id; `NotifyFacts` states which. |
| Chatbot.ValidLog | frontend/src/components/Chatbot.tsx:47-83 | The log invariant: welcome first and only there, the processed ids exactly the announced ones, none announced twice. |
| Chatbot.NotifyFacts | frontend/src/components/Chatbot.tsx:59-83 | The effect appends only alert messages, for exactly the ids of the alerts not yet processed, each id at most once. |
| Chatbot.NotifyAgainSilent | frontend/src/components/Chatbot.tsx:62 | Alerts whose ids are all processed announce nothing. |
| Chatbot.NotifyKeepsValid | frontend/src/components/Chatbot.tsx:59-83 | Appending the notifications and recording the ids preserves the log invariant: welcome first and only there, processed ids equal to announced ids, no id announced twice. |
| Chatbot.ExchangeKeepsValid | frontend/src/components/Chatbot.tsx:122-185 | Appending a question and its reply preserves the log invariant. |
| Chatbot.Trim | frontend/src/components/Chatbot.tsx:120 | `trim()`: white space and line terminators removed from both ends; `TrimEmptyIffBlank` says when the result is empty. |
| Chatbot.TrimEmptyIffBlank | frontend/src/components/Chatbot.tsx:120 | `trim()` of the input is empty exactly when every character is white space or a line terminator. |
| Chatbot.ToLower | frontend/src/components/Chatbot.tsx:131 | The lowered query has the same length, and each character is lowered. |
| Chatbot.ToLowerIdempotent | frontend/src/components/Chatbot.tsx:131 | Lowering twice is lowering once. |
| Chatbot.Contains | frontend/src/components/Chatbot.tsx:139 | `includes` holds exactly when the pattern occurs at some position. |
| Chatbot.Route | frontend/src/components/Chatbot.tsx:139-176 | The keyword chain on the lowered query; `RouteSpec` states its priorities. |
| Chatbot.RouteSpec | frontend/src/components/Chatbot.tsx:139-176 | Fixed keyword priority: "food"/"dining" gives the food reply, then "budget"/"over" the status reply, then savings, then total. The canned reply is given exactly when none of the eight keywords occurs. |
| Chatbot.CapitalFoodIsFood | frontend/src/components/Chatbot.tsx:131-139 | A query containing "FOOD" routes to the food reply, since the query is lowered first. |
| Chatbot.SpentOverIsBudgetStatus | frontend/src/components/Chatbot.tsx:149-172 | "spent over" gets the budget status: "over" outranks "spent". |
| Chatbot.TotalOnFoodIsFood | frontend/src/components/Chatbot.tsx:139-172 | "total food" gets the food reply: "food" outranks "total". |
| Chatbot.FoodBudget | frontend/src/components/Chatbot.tsx:140 | The first budget whose category is the string "Food & Dining", and nothing exactly when no budget has it. A category object never matches. |
| Chatbot.FoodSpent | frontend/src/components/Chatbot.tsx:141-143 | The sum of the amounts whose raw category is the string "Food & Dining"; bounded by `FoodWithinSpend`. |
| Chatbot.RawNonIncomeSum | frontend/src/components/Chatbot.tsx:164-166 | The sum of the amounts whose raw category is not the string "Income"; related to the overview by `Consistency.ChatTotalMatchesOverview`. |
| Chatbot.TotalLimits | frontend/src/components/Chatbot.tsx:163 | The sum of the budget limits. |
| Chatbot.RawNonIncomeCount | frontend/src/components/Chatbot.tsx:172 | The count never exceeds the number of transactions. |
| Chatbot.FoodWithinSpend | frontend/src/components/Chatbot.tsx:141-171 | With non-negative amounts, food spend lies between 0 and the non-Income spend. |
| Chatbot.NamesOf | frontend/src/components/Chatbot.tsx:150-151 | The filter keeps no more names than alerts. |
| Chatbot.StatusPartition | frontend/src/components/Chatbot.tsx:150-161 | Critical and warning alerts together are all the alerts, and both lists are empty exactly when there are no alerts. |
| Chatbot.Respond | frontend/src/components/Chatbot.tsx:135-176 | The reply to the lowered query; `RespondSpec` states every reply kind and its values. |
| Chatbot.RespondSpec | frontend/src/components/Chatbot.tsx:135-176 | The reply kind follows the route. The food reply carries the first string Food & Dining budget's limit, the raw food spend and `limit - spent`; without such a budget the reply is empty. The status reply lists the critical and warning categories. The savings value is all limits minus non-Income spend. The total gives non-Income spend and count. The canned reply is one of the five texts. |
| Chatbot.RawFiguresPrepend | frontend/src/components/Chatbot.tsx:164-172 | A prepended transaction adds its amount to the raw spend, and one to the count, unless its category is the string "Income". |
| Chatbot.NewTransactionMovesFigures | frontend/src/components/Chatbot.tsx:162-172 | After a new transaction the savings figure falls, and the total rises, by its amount, and the count by one, unless it is Income. |
| Chatbot.StatusText | frontend/src/components/Chatbot.tsx:153-161 | The budget-status text built from the critical and warning names; `StatusTextHealthyIff` says when it is the healthy text. |
| Chatbot.StatusTextHealthyIff | frontend/src/components/Chatbot.tsx:153-161 | The status text is the healthy text exactly when there is no critical and no warning alert. |
| Chatbot.ChatbotState.constructor | frontend/src/components/Chatbot.tsx:47-56 | After mounting, the log is the welcome message followed by the notifications for the current alerts. Their ids are processed, the input is empty, and the log invariant holds. |
| Chatbot.ChatbotState.OnBudgetAlerts | frontend/src/components/Chatbot.tsx:59-83 | The loop appends exactly the notifications for the new ids and adds the alerts' ids to the processed set. The set only grows, and the log invariant (at most one announcement per budget id) is kept. |
| Chatbot.ChatbotState.SetInput | frontend/src/components/Chatbot.tsx:314 | The input holds the typed text. |
| Chatbot.ChatbotState.HandleSend | frontend/src/components/Chatbot.tsx:118-187 | Blank input changes nothing; the guard is `IsBlank`, which `Chatbot.TrimEmptyIffBlank` shows equal to an empty `trim()`. Otherwise the question and the reply to its lowered text are appended, the input is cleared, and the invariant is kept. |
| Consistency.ChatTotalMatchesOverview | frontend/src/components/Chatbot.tsx:168-172 | When every category is a string, the chat's total spend and count equal the overview's non-Income sum and `transactionCount`. |
| Consistency.ChatCountMatchesBuckets | frontend/src/components/Chatbot.tsx:172 | When every category is a string, the chat's count equals the number of transactions the bucket loop keeps. |
| Consistency.SavingsMatchesOverview | frontend/src/components/Chatbot.tsx:162-167 | With string categories and non-negative amounts, the savings figure is the total limit minus the overview's `totalSpent`. |
| Consistency.AddBudgetFromTable | frontend/src/components/Dashboard.tsx:127-134 | Adding a budget in the table appends it to the dashboard's list too. Of the dashboard, only the budget list may change, so its alerts, transactions, categories and flags stay as they were. |
| Consistency.ObjectIncomeDiverges | frontend/src/components/Chatbot.tsx:165 | An Income transaction held as an object is spend to the chat (50) but not to the overview (0). |
| Consistency.SpendAgreesOffIncome | frontend/src/components/BudgetsTable.tsx:84-98 | For every name other than Income, "Unknown", "undefined" and "", the dashboard's and the table's spend agree. |
| Consistency.IncomeSpendDiverges | frontend/src/components/BudgetsTable.tsx:96 | For Income they differ: 80 on the dashboard, 0 in the table. |
| Consistency.ConvertedNamesAgree | frontend/src/lib/converters.ts:10-12 | A converted record always has a category, so the table, the bucket loop and the count all file it under the same name. |

## Left out

- Floating point: amounts and percentages are exact reals. Rounding of `+`, `/` and `* 100` is not modelled, nor are NaN and infinite values.
- A `limit_amount` of `undefined` or NaN: Dashboard's `!budget.limit_amount` guard is modelled as `limit == 0` only.
- `Number(t.amount)` conversions and `parseInt`/`parseFloat` in `handleAddBudget`: values arrive already numeric. The form fields are `required`, so `HandleAddBudget` takes the parsed id and limit as parameters.
- `null` and `undefined` categories are both `Absent`. `String(null)` would give "null" where the model gives "undefined".
- Object-prototype keys: `categoryData["constructor"]` and `categoryMap["toString"]` find inherited properties in JavaScript. The model treats such names as unknown.
- Chatbot.ToLower: `toLowerCase` is modelled for ASCII letters only. Routing is unaffected: of the non-ASCII characters, only U+0130 and U+212A lower into ASCII (to `i` plus a combining dot, and to `k`), and neither completes one of the eight keywords.
- Chatbot.RespondSpec: the numbers are kept as values. `toFixed` formatting is not modelled and neither is the food percentage text, which is `Infinity` or `NaN` for a zero limit. Only the budget-status text (`Chatbot.StatusText`) is rendered as a string.
- The alert notification texts (emoji, `toFixed`) are represented by the `Notice` values they are built from.
- `Date.now()` ids, `new Date()` timestamps and `date_time`: dropped. A new budget's temporary id is a parameter.
- `setTimeout`: the reply is appended at once, so alerts arriving during the 1-second delay are not interleaved.
- `Math.random`: the canned reply's index is a parameter.
- The try/catch of `handleAddBudget`: nothing in the modelled body throws, so the error path is not modelled. `finally` resetting `isLoading` is modelled.
- React rendering, scrolling, dragging, the suggestion buttons, and the database and server calls are not part of this model.
- Dashboard.DashboardState.OnTransactionsLoaded, OnBudgetsLoaded and OnTransactionAdded model the handlers at Dashboard.tsx:24-34 and 117-121 as written. No child component calls them. TransactionLogger takes only `transactions` and `setTransactions` (TransactionLogger.tsx:8-11), and the dashboard does not pass `setTransactions` (Dashboard.tsx:113-122). BudgetsTable declares no `onBudgetsLoaded` prop and fetches nothing (BudgetsTable.tsx:5-13). So `checkBudgetThresholds` is not reached in the running app, and the model does not capture that.
- Mounting and unmounting the chat panel (Dashboard.tsx:164-171): each `Chatbot.ChatbotState` is one mount, and the guarantee that each id is announced once holds per mount only.
- Effect scheduling: the constructor models the state after both mount effects have run. React's batching of `setMessages` is taken as sequential application.
