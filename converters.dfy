/** The database-row to UI-record converter (frontend/src/lib/converters.ts).
    A row's fields are copied, with a default wherever the row's value is falsy. */
module Converters {
  import opened Types

  /** A transaction row as the database returns it. `category` is whatever the
      row carries under that key: a relation object, a string, or nothing. */
  datatype DbRecord = DbRecord(
    transId: int,
    userId: int,
    amount: real,
    category: CategoryRef,
    merchant: Option<string>,
    rawText: Option<string>)

  /** The category stored for a row whose `category` is falsy. */
  const Uncategorized: string := "Uncategorized"

  /** JavaScript truthiness of a category reference: `undefined`, `null` and `""` are falsy,
      every object is truthy. */
  predicate CategoryTruthy(c: CategoryRef)
  {
    match c
    case Absent => false
    case Str(s) => s != ""
    case Obj(_) => true
  }

  /** `value || ''` for a nullable string. */
  function OrEmpty(v: Option<string>): (r: string)
    ensures v.Some? && v.value != "" ==> r == v.value
    ensures v.None? || v.value == "" ==> r == ""
  {
    match v
    case Some(s) => s
    case None => ""
  }

  /** `dbToUI`, without the `Date` construction. */
  function DbToUi(record: DbRecord): (t: Transaction)
    ensures t.transId == record.transId && t.userId == record.userId
    ensures t.amount == record.amount
    ensures CategoryTruthy(record.category) ==> t.category == record.category
    ensures !CategoryTruthy(record.category) ==> t.category == Str(Uncategorized)
    ensures CategoryTruthy(t.category)
    ensures t.merchant == Some(OrEmpty(record.merchant))
    ensures t.rawText == Some(OrEmpty(record.rawText))
  {
    var categoryValue := if CategoryTruthy(record.category) then record.category else Str(Uncategorized);
    Transaction(
      record.transId,
      record.userId,
      record.amount,
      categoryValue,
      Some(OrEmpty(record.merchant)),
      Some(OrEmpty(record.rawText)))
  }

  /** The row a converted transaction would come back as. */
  function UiToDb(t: Transaction): DbRecord
  {
    DbRecord(t.transId, t.userId, t.amount, t.category, t.merchant, t.rawText)
  }

  /** Converting is idempotent: a converted record converts to itself, since every
      default it introduces is already the value the converter would keep. */
  lemma DbToUiIdempotent(record: DbRecord)
    ensures DbToUi(UiToDb(DbToUi(record))) == DbToUi(record)
  {
  }

  /** A row whose fields are all truthy passes through unchanged. */
  lemma TruthyRowUnchanged(record: DbRecord)
    requires CategoryTruthy(record.category)
    requires record.merchant.Some? && record.merchant.value != ""
    requires record.rawText.Some? && record.rawText.value != ""
    ensures UiToDb(DbToUi(record)) == record
  {
  }
}
