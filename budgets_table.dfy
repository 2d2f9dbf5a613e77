/** The budget table's helpers (frontend/src/components/BudgetsTable.tsx): resolving
    a budget's category name, the per-category spend (Income excluded), the usage
    percentage capped at 100, the four-level status colour, the alert membership
    test, and the local append of a new budget. */
module BudgetsTable {
  import opened Types

  /** The sentinel name of a budget whose category cannot be resolved. */
  const UnknownCategory: string := "Unknown Category"

  /** `categories.find(c => c.category_id === id)`: the first category with that id. */
  function FindCategory(categories: seq<Category>, id: int): (r: Option<Category>)
    ensures r.None? <==> forall j :: 0 <= j < |categories| ==> categories[j].categoryId != id
    ensures r.Some? ==> exists j :: 0 <= j < |categories| && categories[j] == r.value && r.value.categoryId == id
                          && forall j' :: 0 <= j' < j ==> categories[j'].categoryId != id
  {
    if categories == [] then None
    else if categories[0].categoryId == id then Some(categories[0])
    else
      var r := FindCategory(categories[1..], id);
      assert forall j :: 0 <= j < |categories[1..]| ==> categories[1..][j] == categories[j + 1];
      if r.Some? then
        var j :| 0 <= j < |categories[1..]| && categories[1..][j] == r.value && r.value.categoryId == id
                 && forall j' :: 0 <= j' < j ==> categories[1..][j'].categoryId != id;
        assert categories[j + 1] == r.value;
        r
      else r
  }

  /** `getCategoryName`: an object gives its name, a string gives itself, and
      otherwise the budget's `category_id` is looked up among the categories. */
  function CategoryName(budget: Budget, categories: seq<Category>): (r: string)
    ensures budget.category.Obj? ==> r == budget.category.c.name
    ensures budget.category.Str? ==> r == budget.category.s
    ensures budget.category.Absent? && FindCategory(categories, budget.categoryId).Some? ==>
      r == FindCategory(categories, budget.categoryId).value.name
    ensures budget.category.Absent? && (forall j :: 0 <= j < |categories| ==> categories[j].categoryId != budget.categoryId) ==>
      r == UnknownCategory
  {
    match budget.category
    case Obj(c) => c.name
    case Str(s) => s
    case Absent =>
      match FindCategory(categories, budget.categoryId)
      case Some(c) => c.name
      case None => UnknownCategory
  }

  /** The name a transaction is filed under here: an object's name, otherwise
      `String(t.category)`, which for a missing category is "undefined". */
  function TransactionCategoryName(c: CategoryRef): (r: string)
    ensures c.Obj? ==> r == c.c.name
    ensures c.Str? ==> r == c.s
    ensures c.Absent? ==> r == "undefined"
  {
    match c
    case Obj(cat) => cat.name
    case Str(s) => s
    case Absent => "undefined"
  }

  /** Whether the filter of `getCategorySpent` keeps a transaction for `catName`. */
  predicate Counts(t: Transaction, catName: string)
  {
    var n := TransactionCategoryName(t.category);
    n == catName && n != "Income"
  }

  /** `getCategorySpent`. */
  function CategorySpent(catName: string, ts: seq<Transaction>): real
  {
    if ts == [] then 0.0
    else (if Counts(ts[0], catName) then ts[0].amount else 0.0) + CategorySpent(catName, ts[1..])
  }

  /** Income is never spend: its "spend" is 0 whatever the transactions. */
  lemma {:induction false} IncomeNeverSpent(ts: seq<Transaction>)
    ensures CategorySpent("Income", ts) == 0.0
  {
    if ts != [] {
      IncomeNeverSpent(ts[1..]);
    }
  }

  /** When no transaction is filed under the name, the spend is 0. */
  lemma {:induction false} NoMatchNoSpend(catName: string, ts: seq<Transaction>)
    requires forall i :: 0 <= i < |ts| ==> TransactionCategoryName(ts[i].category) != catName
    ensures CategorySpent(catName, ts) == 0.0
  {
    if ts != [] {
      assert forall i :: 0 <= i < |ts[1..]| ==> ts[1..][i] == ts[i + 1];
      NoMatchNoSpend(catName, ts[1..]);
    }
  }

  /** With non-negative amounts the spend of a category is non-negative. */
  lemma {:induction false} SpentNonNegative(catName: string, ts: seq<Transaction>)
    requires forall i :: 0 <= i < |ts| ==> ts[i].amount >= 0.0
    ensures CategorySpent(catName, ts) >= 0.0
  {
    if ts != [] {
      assert forall i :: 0 <= i < |ts[1..]| ==> ts[1..][i] == ts[i + 1];
      SpentNonNegative(catName, ts[1..]);
    }
  }

  /** `getPercentage`: 0 for a zero allocation, otherwise the usage capped at 100 (`Math.min`). */
  function Percentage(spent: real, allocation: real): (p: real)
    ensures allocation == 0.0 ==> p == 0.0
    ensures p <= 100.0
    ensures spent >= 0.0 && allocation > 0.0 ==> 0.0 <= p
    ensures allocation > 0.0 ==> (p == 100.0 <==> spent >= allocation)
  {
    if allocation == 0.0 then 0.0
    else
      var raw := spent / allocation * 100.0;
      if raw < 100.0 then raw else 100.0
  }

  /** The four status colours, least to most alarming. */
  datatype StatusColor = Green | Yellow | Orange | Red

  function Rank(c: StatusColor): nat
  {
    match c
    case Green => 0
    case Yellow => 1
    case Orange => 2
    case Red => 3
  }

  /** `getStatusColor`. */
  function StatusColorOf(percentage: real): (c: StatusColor)
    ensures c == Red <==> percentage >= 100.0
    ensures c == Orange <==> 90.0 <= percentage < 100.0
    ensures c == Yellow <==> 80.0 <= percentage < 90.0
    ensures c == Green <==> percentage < 80.0
  {
    if percentage >= 100.0 then Red
    else if percentage >= 90.0 then Orange
    else if percentage >= 80.0 then Yellow
    else Green
  }

  /** A higher percentage never gives a less alarming colour. */
  lemma StatusColorMonotone(p: real, q: real)
    requires p <= q
    ensures Rank(StatusColorOf(p)) <= Rank(StatusColorOf(q))
  {
  }

  /** A budget row is red exactly when its spend has reached its (positive) allocation. */
  lemma RedIffOverspent(spent: real, allocation: real)
    requires allocation > 0.0
    ensures StatusColorOf(Percentage(spent, allocation)) == Red <==> spent >= allocation
  {
  }

  /** `hasAlert`: `budgetAlerts.some(alert => alert.budget_id === budgetId)`. */
  function HasAlert(budgetAlerts: seq<BudgetAlert>, budgetId: int): (r: bool)
    ensures r <==> exists k :: 0 <= k < |budgetAlerts| && budgetAlerts[k].budgetId == budgetId
  {
    if budgetAlerts == [] then false
    else if budgetAlerts[0].budgetId == budgetId then true
    else
      assert forall k :: 0 <= k < |budgetAlerts[1..]| ==> budgetAlerts[1..][k] == budgetAlerts[k + 1];
      HasAlert(budgetAlerts[1..], budgetId)
  }

  /** The category reference attached to a new budget: the selected category object, or none. */
  function SelectedCategory(categories: seq<Category>, categoryId: int): (r: CategoryRef)
    ensures r.Obj? <==> FindCategory(categories, categoryId).Some?
    ensures r.Obj? ==> r.c.categoryId == categoryId && r.c in categories
    ensures r.Obj? ==> FindCategory(categories, categoryId) == Some(r.c)
  {
    match FindCategory(categories, categoryId)
    case Some(c) => Obj(c)
    case None => Absent
  }

  /** The table's state: the budget list it updates and its form and loading state. */
  class BudgetsTableState {
    var budgets: seq<Budget>
    var showAddForm: bool
    var isLoading: bool
    var formCategoryId: string
    var formLimitAmount: string

    constructor (initial: seq<Budget>)
      ensures budgets == initial && !showAddForm && !isLoading
      ensures formCategoryId == "" && formLimitAmount == ""
    {
      budgets := initial;
      showAddForm, isLoading := false, false;
      formCategoryId, formLimitAmount := "", "";
    }

    /** `handleAddBudget`. The form's two fields arrive already parsed (`categoryId`,
        `limitAmount`) and the temporary id (`Date.now()`) as `now`. Exactly one budget
        is appended; the existing ones are untouched; the form is reset and closed. */
    method HandleAddBudget(categories: seq<Category>, categoryId: int, limitAmount: real, now: int)
      modifies this
      ensures |budgets| == |old(budgets)| + 1 && budgets[..|old(budgets)|] == old(budgets)
      ensures budgets[|old(budgets)|] ==
        Budget(now, 1, categoryId, limitAmount, "Monthly", SelectedCategory(categories, categoryId))
      ensures formCategoryId == "" && formLimitAmount == ""
      ensures !showAddForm && !isLoading
    {
      isLoading := true;
      var selectedCategory := SelectedCategory(categories, categoryId);
      var newBudget := Budget(now, 1, categoryId, limitAmount, "Monthly", selectedCategory);
      budgets := budgets + [newBudget];
      formCategoryId, formLimitAmount := "", "";
      showAddForm := false;
      isLoading := false;
    }
  }
}
