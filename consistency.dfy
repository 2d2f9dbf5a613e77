/** How the components' separate computations over the same transactions relate:
    each component resolves a transaction's category its own way, so they agree only
    where those resolutions coincide. */
module Consistency {
  import opened Types
  import Converters
  import Dashboard
  import BudgetsTable
  import SpendingOverview
  import Chatbot

  predicate AllStrings(ts: seq<Transaction>)
  {
    forall k :: 0 <= k < |ts| ==> ts[k].category.Str?
  }

  /** When every category is a plain string, the chat's total and count equal the overview's. */
  lemma {:induction false} ChatTotalMatchesOverview(ts: seq<Transaction>)
    requires AllStrings(ts)
    ensures Chatbot.RawNonIncomeSum(ts) == SpendingOverview.NonIncomeSum(ts)
    ensures Chatbot.RawNonIncomeCount(ts) == SpendingOverview.TransactionCount(ts)
  {
    SpendingOverview.CountMatchesBuckets(ts);
    ChatCountMatchesBuckets(ts);
    if ts != [] {
      var pre := ts[..|ts| - 1];
      assert AllStrings(pre) by {
        assert forall k :: 0 <= k < |pre| ==> pre[k] == ts[k];
      }
      ChatTotalMatchesOverview(pre);
    }
  }

  lemma {:induction false} ChatCountMatchesBuckets(ts: seq<Transaction>)
    requires AllStrings(ts)
    ensures Chatbot.RawNonIncomeCount(ts) == SpendingOverview.NonIncomeCount(ts)
  {
    if ts != [] {
      var pre := ts[..|ts| - 1];
      assert AllStrings(pre) by {
        assert forall k :: 0 <= k < |pre| ==> pre[k] == ts[k];
      }
      ChatCountMatchesBuckets(pre);
    }
  }

  /** With string categories and non-negative amounts, the chat's savings figure is the
      budgets' total limit minus the overview's `totalSpent`. */
  lemma SavingsMatchesOverview(q: string, budgets: seq<Budget>, ts: seq<Transaction>,
                               alerts: seq<BudgetAlert>, choice: nat)
    requires choice < |Chatbot.BotResponses|
    requires Chatbot.Route(q) == Chatbot.Savings
    requires AllStrings(ts) && forall k :: 0 <= k < |ts| ==> ts[k].amount >= 0.0
    ensures Chatbot.Respond(q, budgets, ts, alerts, choice).saved ==
      Chatbot.TotalLimits(budgets) - SpendingOverview.TotalSpent(SpendingOverview.ChartData(SpendingOverview.BucketsAfter(ts)))
  {
    ChatTotalMatchesOverview(ts);
    SpendingOverview.TotalSpentIsNonIncomeSum(ts);
  }

  /** An Income transaction carrying its category as an object is spend to the chat,
      which compares the raw value with the string, but not to the overview. */
  lemma ObjectIncomeDiverges()
    ensures var ts := [Transaction(1, 1, 50.0, Obj(Category(5, 1, "Income")), None, None)];
      Chatbot.RawNonIncomeSum(ts) == 50.0 && SpendingOverview.NonIncomeSum(ts) == 0.0
  {
    var ts := [Transaction(1, 1, 50.0, Obj(Category(5, 1, "Income")), None, None)];
    assert ts[..0] == [];
  }

  /** For a name neither component uses as a sentinel and other than Income, the
      dashboard's and the table's per-category spend agree. */
  lemma {:induction false} SpendAgreesOffIncome(name: string, ts: seq<Transaction>)
    requires name != "Income" && name != Dashboard.Unknown && name != "undefined" && name != ""
    ensures Dashboard.CategorySpent(name, ts) == BudgetsTable.CategorySpent(name, ts)
  {
    if ts != [] {
      SpendAgreesOffIncome(name, ts[1..]);
    }
  }

  /** For Income they do not: the dashboard counts an Income transaction, the table never does. */
  lemma IncomeSpendDiverges()
    ensures var ts := [Transaction(1, 1, 80.0, Str("Income"), None, None)];
      Dashboard.CategorySpent("Income", ts) == 80.0 && BudgetsTable.CategorySpent("Income", ts) == 0.0
  {
    var ts := [Transaction(1, 1, 80.0, Str("Income"), None, None)];
    assert ts[1..] == [];
  }

  /** The dashboard renders the table with its own budget list and `setBudgets`, so adding
      a budget in the table appends it to the dashboard's list. The dashboard's alerts
      are left as they were: nothing re-evaluates them on this path. */
  method AddBudgetFromTable(d: Dashboard.DashboardState, table: BudgetsTable.BudgetsTableState,
                            categories: seq<Category>, categoryId: int, limitAmount: real, now: int)
    requires table.budgets == d.budgets
    modifies d`budgets, table
    ensures table.budgets == d.budgets
    ensures d.budgets == old(d.budgets) +
      [Budget(now, 1, categoryId, limitAmount, "Monthly", BudgetsTable.SelectedCategory(categories, categoryId))]
    ensures d.budgetAlerts == old(d.budgetAlerts) && d.transactions == old(d.transactions)
    ensures d.hasNewAlert == old(d.hasNewAlert)
  {
    table.HandleAddBudget(categories, categoryId, limitAmount, now);
    d.SetBudgets(table.budgets);
  }

  /** A converted record never lacks a category, so the table, the bucket loop and the
      count all file it under the same name. */
  lemma ConvertedNamesAgree(record: Converters.DbRecord)
    ensures var c := Converters.DbToUi(record).category;
      && BudgetsTable.TransactionCategoryName(c) == SpendingOverview.BucketName(c)
      && SpendingOverview.CountName(c) == SpendingOverview.BucketName(c)
  {
  }
}
