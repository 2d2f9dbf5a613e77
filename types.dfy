/** The record types of the finance tracker's front end (frontend/src/types/database.ts).
    Amounts are exact `real`s, so no floating-point rounding enters the model;
    the `Date` fields (`date_time`, `timestamp`) are not modelled. */
module Types {

  datatype Option<T> = None | Some(value: T)

  /** A spending category: `{category_id, user_id, name}`. */
  datatype Category = Category(categoryId: int, userId: int, name: string)

  /** A category reference as the records carry it: a plain name, an embedded
      category object (a database relation), or nothing at all (`undefined`/`null`). */
  datatype CategoryRef = Str(s: string) | Obj(c: Category) | Absent

  /** A transaction as the UI holds it; `merchant` and `raw_text` may be `null`. */
  datatype Transaction = Transaction(
    transId: int,
    userId: int,
    amount: real,
    category: CategoryRef,
    merchant: Option<string>,
    rawText: Option<string>)

  /** A budget; `category` is optional and holds either a name or a category object. */
  datatype Budget = Budget(
    budgetId: int,
    userId: int,
    categoryId: int,
    limitAmount: real,
    period: string,
    category: CategoryRef)

  datatype Severity = Warning | Critical

  /** A derived alert: a budget whose spend has reached 90% of its limit. */
  datatype BudgetAlert = BudgetAlert(
    budgetId: int,
    category: string,
    percentage: real,
    spent: real,
    limit: real,
    severity: Severity)
}
