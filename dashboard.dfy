/** The budget threshold evaluator of the dashboard (frontend/src/components/Dashboard.tsx).
    For every budget it resolves the category name, sums the matching transaction
    amounts (Income is NOT excluded here), skips zero limits and emits a warning
    alert at 90% of the limit and a critical one at 100%. The alert list is
    replaced wholesale and a "new alert" flag is raised when the count grows. */
module Dashboard {
  import opened Types

  /** The sentinel name of a missing or unnamed category. */
  const Unknown: string := "Unknown"

  /** `typeof c === 'string' ? c : (c?.name || 'Unknown')`. */
  function ResolvedName(c: CategoryRef): (r: string)
    ensures c.Str? ==> r == c.s
    ensures c.Obj? && c.c.name != "" ==> r == c.c.name
    ensures c.Absent? || (c.Obj? && c.c.name == "") ==> r == Unknown
  {
    match c
    case Str(s) => s
    case Obj(cat) => if cat.name != "" then cat.name else Unknown
    case Absent => Unknown
  }

  /** The `filter`/`reduce` spend of one category: every transaction whose resolved name is `name`. */
  function CategorySpent(name: string, ts: seq<Transaction>): real
  {
    if ts == [] then 0.0
    else (if ResolvedName(ts[0].category) == name then ts[0].amount else 0.0) + CategorySpent(name, ts[1..])
  }

  /** The sum of every amount, matching or not. */
  function TotalAmount(ts: seq<Transaction>): real
  {
    if ts == [] then 0.0 else ts[0].amount + TotalAmount(ts[1..])
  }

  /** The spend of every transaction whose resolved name is not `name`. */
  function SpentElsewhere(name: string, ts: seq<Transaction>): real
  {
    if ts == [] then 0.0
    else (if ResolvedName(ts[0].category) != name then ts[0].amount else 0.0) + SpentElsewhere(name, ts[1..])
  }

  /** A category's spend and the rest of the spend add up to the total: no
      transaction is dropped or counted twice, and Income is no exception. */
  lemma {:induction false} SpentPartition(name: string, ts: seq<Transaction>)
    ensures CategorySpent(name, ts) + SpentElsewhere(name, ts) == TotalAmount(ts)
  {
    if ts != [] {
      SpentPartition(name, ts[1..]);
    }
  }

  /** The spend of a concatenation is the sum of the spends: the order of the
      transactions does not matter, prepending or appending alike. */
  lemma {:induction false} CategorySpentAppend(name: string, a: seq<Transaction>, b: seq<Transaction>)
    ensures CategorySpent(name, a + b) == CategorySpent(name, a) + CategorySpent(name, b)
  {
    if a == [] {
      assert a + b == b;
    } else {
      assert (a + b)[1..] == a[1..] + b;
      CategorySpentAppend(name, a[1..], b);
    }
  }

  /** `(spent / limit) * 100`. */
  function Percentage(spent: real, limit: real): real
    requires limit != 0.0
  {
    spent / limit * 100.0
  }

  /** The alert the loop pushes for one budget, if any. */
  function AlertFor(b: Budget, ts: seq<Transaction>): (r: Option<BudgetAlert>)
  {
    var name := ResolvedName(b.category);
    var spent := CategorySpent(name, ts);
    if b.limitAmount == 0.0 then None
    else
      var percentage := Percentage(spent, b.limitAmount);
      if percentage >= 90.0 then
        Some(BudgetAlert(b.budgetId, name, percentage, spent, b.limitAmount,
                         if percentage >= 100.0 then Critical else Warning))
      else None
  }

  /** `checkBudgetThresholds`' `newAlerts`, as a function of its two inputs. */
  function Evaluate(bs: seq<Budget>, ts: seq<Transaction>): seq<BudgetAlert>
  {
    if bs == [] then []
    else
      var rest := Evaluate(bs[1..], ts);
      match AlertFor(bs[0], ts)
      case Some(a) => [a] + rest
      case None => rest
  }

  /** The well-formedness of an alert as the loop builds it: a non-zero limit, the
      percentage it was derived from, at least 90%, and critical exactly from 100%. */
  predicate WellFormed(a: BudgetAlert)
  {
    && a.limit != 0.0
    && a.percentage == Percentage(a.spent, a.limit)
    && a.percentage >= 90.0
    && (a.severity == Critical <==> a.percentage >= 100.0)
  }

  /** Evaluating a concatenation of budget lists concatenates the alerts: alerts come
      out in input-budget order, each budget contributing on its own. */
  lemma {:induction false} EvaluateAppend(a: seq<Budget>, b: seq<Budget>, ts: seq<Transaction>)
    ensures Evaluate(a + b, ts) == Evaluate(a, ts) + Evaluate(b, ts)
  {
    if a == [] {
      assert a + b == b;
    } else {
      assert (a + b)[1..] == a[1..] + b;
      EvaluateAppend(a[1..], b, ts);
    }
  }

  /** A single budget contributes at most one alert, carrying that budget's id, its
      resolved name, its spend and limit; it contributes one exactly when its limit is
      non-zero and the spend reaches 90% of it. */
  lemma EvaluateSingle(b: Budget, ts: seq<Transaction>)
    ensures var r := Evaluate([b], ts);
      && |r| <= 1
      && (|r| == 1 <==> b.limitAmount != 0.0 && Percentage(CategorySpent(ResolvedName(b.category), ts), b.limitAmount) >= 90.0)
      && (|r| == 1 ==> r[0].budgetId == b.budgetId && r[0].limit == b.limitAmount
                       && r[0].category == ResolvedName(b.category)
                       && r[0].spent == CategorySpent(ResolvedName(b.category), ts)
                       && WellFormed(r[0]))
  {
    assert [b][1..] == [];
  }

  /** Every alert is well formed and comes from some input budget; there are at most as many alerts as budgets. */
  lemma {:induction false} EvaluateSound(bs: seq<Budget>, ts: seq<Transaction>)
    ensures |Evaluate(bs, ts)| <= |bs|
    ensures forall k :: 0 <= k < |Evaluate(bs, ts)| ==>
      WellFormed(Evaluate(bs, ts)[k]) &&
      exists i :: 0 <= i < |bs| && AlertFor(bs[i], ts) == Some(Evaluate(bs, ts)[k])
  {
    if bs != [] {
      EvaluateSound(bs[1..], ts);
      var rest := Evaluate(bs[1..], ts);
      forall k | 0 <= k < |rest|
        ensures exists i :: 0 <= i < |bs| && AlertFor(bs[i], ts) == Some(rest[k])
      {
        var i :| 0 <= i < |bs[1..]| && AlertFor(bs[1..][i], ts) == Some(rest[k]);
        assert bs[i + 1] == bs[1..][i];
      }
    }
  }

  /** Every budget whose spend reaches the threshold does get its alert. */
  lemma {:induction false} EvaluateComplete(bs: seq<Budget>, ts: seq<Transaction>, i: int)
    requires 0 <= i < |bs| && AlertFor(bs[i], ts).Some?
    ensures AlertFor(bs[i], ts).value in Evaluate(bs, ts)
  {
    if i > 0 {
      assert bs[1..][i - 1] == bs[i];
      EvaluateComplete(bs[1..], ts, i - 1);
    }
  }

  /** A budget id all of whose budgets have a zero limit never appears in the alert list, whatever the spend. */
  lemma {:induction false} ZeroLimitNeverAlerts(bs: seq<Budget>, ts: seq<Transaction>, id: int)
    requires forall i :: 0 <= i < |bs| && bs[i].budgetId == id ==> bs[i].limitAmount == 0.0
    ensures forall k :: 0 <= k < |Evaluate(bs, ts)| ==> Evaluate(bs, ts)[k].budgetId != id
  {
    if bs != [] {
      assert forall i :: 0 <= i < |bs[1..]| ==> bs[1..][i] == bs[i + 1];
      ZeroLimitNeverAlerts(bs[1..], ts, id);
    }
  }

  /** No budgets give no alerts. */
  lemma NoBudgetsNoAlerts(ts: seq<Transaction>)
    ensures Evaluate([], ts) == []
  {
  }

  /** No transactions give no alerts: every spend is 0, below 90% of any non-zero limit. */
  lemma {:induction false} NoTransactionsNoAlerts(bs: seq<Budget>)
    ensures Evaluate(bs, []) == []
  {
    if bs != [] {
      NoTransactionsNoAlerts(bs[1..]);
    }
  }

  /** For a positive limit, the percentage test is the cross-multiplied comparison, with no division. */
  lemma ThresholdCrossMultiplied(spent: real, limit: real, threshold: real)
    requires limit > 0.0
    ensures Percentage(spent, limit) >= threshold <==> spent * 100.0 >= threshold * limit
  {
    var q := spent / limit;
    assert spent == q * limit;
    assert Percentage(spent, limit) * limit == spent * 100.0;
    if Percentage(spent, limit) >= threshold {
      assert Percentage(spent, limit) * limit >= threshold * limit;
    } else {
      assert Percentage(spent, limit) * limit < threshold * limit;
    }
  }

  /** A budget with a positive limit alerts exactly when `spent * 100 >= 90 * limit`,
      and the alert is critical exactly when `spent >= limit`. */
  lemma AlertIffThreshold(b: Budget, ts: seq<Transaction>)
    requires b.limitAmount > 0.0
    ensures var spent := CategorySpent(ResolvedName(b.category), ts);
      && (AlertFor(b, ts).Some? <==> spent * 100.0 >= 90.0 * b.limitAmount)
      && (AlertFor(b, ts).Some? ==> (AlertFor(b, ts).value.severity == Critical <==> spent >= b.limitAmount))
  {
    var spent := CategorySpent(ResolvedName(b.category), ts);
    ThresholdCrossMultiplied(spent, b.limitAmount, 90.0);
    ThresholdCrossMultiplied(spent, b.limitAmount, 100.0);
  }

  /** Against a limit of 100: a spend of 90 warns, 100 is critical, 89.99 gives no alert. */
  lemma ThresholdBoundaries(b: Budget)
    requires b.limitAmount == 100.0 && b.category == Str("Food & Dining")
    ensures var t := Transaction(1, 1, 90.0, Str("Food & Dining"), None, None);
      Evaluate([b], [t]) == [BudgetAlert(b.budgetId, "Food & Dining", 90.0, 90.0, 100.0, Warning)]
    ensures var t := Transaction(1, 1, 100.0, Str("Food & Dining"), None, None);
      Evaluate([b], [t]) == [BudgetAlert(b.budgetId, "Food & Dining", 100.0, 100.0, 100.0, Critical)]
    ensures var t := Transaction(1, 1, 89.99, Str("Food & Dining"), None, None);
      Evaluate([b], [t]) == []
  {
    var t0 := Transaction(1, 1, 90.0, Str("Food & Dining"), None, None);
    assert CategorySpent("Food & Dining", [t0]) == 90.0;
    var t1 := Transaction(1, 1, 100.0, Str("Food & Dining"), None, None);
    assert CategorySpent("Food & Dining", [t1]) == 100.0;
    var t2 := Transaction(1, 1, 89.99, Str("Food & Dining"), None, None);
    assert CategorySpent("Food & Dining", [t2]) == 89.99;
  }

  /** A Food & Dining budget of 500 against 450 of food and 50 of Income: one warning at
      exactly 90%, the Income transaction matching no other category. */
  lemma FoodWarningScenario()
    ensures var b := Budget(1, 1, 1, 500.0, "Monthly", Str("Food & Dining"));
      var ts := [Transaction(1, 1, 450.0, Str("Food & Dining"), None, None),
                 Transaction(2, 1, 50.0, Str("Income"), None, None)];
      Evaluate([b], ts) == [BudgetAlert(1, "Food & Dining", 90.0, 450.0, 500.0, Warning)]
  {
    var ts := [Transaction(1, 1, 450.0, Str("Food & Dining"), None, None),
               Transaction(2, 1, 50.0, Str("Income"), None, None)];
    assert ts[1..][1..] == [];
    assert CategorySpent("Food & Dining", ts) == 450.0;
  }

  /** The dashboard does not exclude Income: an Income budget of 100 with 95 of
      Income transactions raises a warning. */
  lemma IncomeIsCounted(b: Budget)
    requires b.limitAmount == 100.0 && b.category == Str("Income")
    ensures var t := Transaction(1, 1, 95.0, Str("Income"), None, None);
      Evaluate([b], [t]) == [BudgetAlert(b.budgetId, "Income", 95.0, 95.0, 100.0, Warning)]
  {
    var t := Transaction(1, 1, 95.0, Str("Income"), None, None);
    assert CategorySpent("Income", [t]) == 95.0;
  }

  /** The loop of `checkBudgetThresholds`: a `forEach` over the budgets that pushes one alert per budget over the threshold. */
  method ComputeAlerts(currentBudgets: seq<Budget>, currentTransactions: seq<Transaction>) returns (newAlerts: seq<BudgetAlert>)
    ensures newAlerts == Evaluate(currentBudgets, currentTransactions)
  {
    newAlerts := [];
    var i := 0;
    while i < |currentBudgets|
      invariant 0 <= i <= |currentBudgets|
      invariant newAlerts == Evaluate(currentBudgets[..i], currentTransactions)
    {
      var budget := currentBudgets[i];
      var budgetCatName := ResolvedName(budget.category);
      var categorySpent := CategorySpent(budgetCatName, currentTransactions);
      assert currentBudgets[..i + 1] == currentBudgets[..i] + [budget];
      EvaluateAppend(currentBudgets[..i], [budget], currentTransactions);
      assert [budget][1..] == [];
      if budget.limitAmount != 0.0 {
        var percentage := Percentage(categorySpent, budget.limitAmount);
        if percentage >= 90.0 {
          newAlerts := newAlerts + [BudgetAlert(budget.budgetId, budgetCatName, percentage, categorySpent,
                                                budget.limitAmount, if percentage >= 100.0 then Critical else Warning)];
        }
      }
      i := i + 1;
    }
    assert currentBudgets[..i] == currentBudgets;
  }

  /** The dashboard's state: the data it holds, the alert list it is handed, the
      notification dot and whether the chat panel is open. */
  class DashboardState {
    var transactions: seq<Transaction>
    var budgets: seq<Budget>
    var categories: seq<Category>
    var budgetAlerts: seq<BudgetAlert>
    var hasNewAlert: bool
    var isChatbotOpen: bool

    constructor (alerts: seq<BudgetAlert>)
      ensures transactions == [] && budgets == [] && categories == [] && budgetAlerts == alerts
      ensures !hasNewAlert && !isChatbotOpen
    {
      transactions, budgets, categories, budgetAlerts := [], [], [], alerts;
      hasNewAlert, isChatbotOpen := false, false;
    }

    /** `checkBudgetThresholds`: the alert list is replaced in full, and the flag is
        raised when the new list is longer than the previous one (it is never lowered here). */
    method CheckBudgetThresholds(currentBudgets: seq<Budget>, currentTransactions: seq<Transaction>)
      modifies this`budgetAlerts, this`hasNewAlert
      ensures budgetAlerts == Evaluate(currentBudgets, currentTransactions)
      ensures hasNewAlert == (old(hasNewAlert) || |budgetAlerts| > |old(budgetAlerts)|)
    {
      var newAlerts := ComputeAlerts(currentBudgets, currentTransactions);
      if |newAlerts| > |budgetAlerts| {
        hasNewAlert := true;
      }
      budgetAlerts := newAlerts;
    }

    /** `onTransactionAdded`: the new transaction is prepended and the alerts are re-evaluated. */
    method OnTransactionAdded(newTx: Transaction)
      modifies this`transactions, this`budgetAlerts, this`hasNewAlert
      ensures transactions == [newTx] + old(transactions)
      ensures budgetAlerts == Evaluate(budgets, transactions)
      ensures hasNewAlert == (old(hasNewAlert) || |budgetAlerts| > |old(budgetAlerts)|)
      ensures forall name :: (CategorySpent(name, transactions) ==
        CategorySpent(name, old(transactions)) + (if ResolvedName(newTx.category) == name then newTx.amount else 0.0))
    {
      var updated := [newTx] + transactions;
      assert updated[1..] == transactions;
      transactions := updated;
      CheckBudgetThresholds(budgets, updated);
    }

    /** `handleTransactionsLoaded`: the loaded transactions and categories replace the
        held ones; the alerts are not re-evaluated. */
    method OnTransactionsLoaded(data: seq<Transaction>, cats: seq<Category>)
      modifies this`transactions, this`categories
      ensures transactions == data && categories == cats
    {
      transactions := data;
      categories := cats;
    }

    /** `handleBudgetsLoaded`: the loaded budgets replace the held ones and the alerts
        are re-evaluated against them and the held transactions. */
    method OnBudgetsLoaded(data: seq<Budget>)
      modifies this`budgets, this`budgetAlerts, this`hasNewAlert
      ensures budgets == data
      ensures budgetAlerts == Evaluate(data, transactions)
      ensures hasNewAlert == (old(hasNewAlert) || |budgetAlerts| > |old(budgetAlerts)|)
    {
      budgets := data;
      CheckBudgetThresholds(data, transactions);
    }

    /** `setBudgets`, which the dashboard hands to the budget table: the table's
        `handleAddBudget` replaces this very list through it. The alerts are not
        re-evaluated, so they stay those of the previous list until the next transaction. */
    method SetBudgets(bs: seq<Budget>)
      modifies this`budgets
      ensures budgets == bs
    {
      budgets := bs;
    }

    /** The chat button: toggles the panel and clears the notification dot. */
    method ToggleChatbot()
      modifies this`isChatbotOpen, this`hasNewAlert
      ensures isChatbotOpen == !old(isChatbotOpen) && !hasNewAlert
    {
      isChatbotOpen := !isChatbotOpen;
      hasNewAlert := false;
    }
  }
}
