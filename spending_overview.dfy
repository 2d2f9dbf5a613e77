/** The spending overview (frontend/src/components/SpendingOverview.tsx): a table of
    six pre-seeded buckets that a loop over the transactions fills in place,
    with Income skipped and unknown categories falling into `Other`; the chart data
    keeps the non-empty buckets in declaration order; the total sums the chart and
    the count is the number of non-Income transactions. */
module SpendingOverview {
  import opened Types
  import BudgetsTable

  /** The six keys of `categoryData`. */
  datatype Bucket = FoodAndDining | Transportation | Shopping | Entertainment | BillsAndUtilities | Other

  /** The keys in declaration order (the order `Object.entries` yields). */
  const Buckets: seq<Bucket> :=
    [FoodAndDining, Transportation, Shopping, Entertainment, BillsAndUtilities, Other]

  /** The key string of a bucket. */
  function Label(b: Bucket): string
  {
    match b
    case FoodAndDining => "Food & Dining"
    case Transportation => "Transportation"
    case Shopping => "Shopping"
    case Entertainment => "Entertainment"
    case BillsAndUtilities => "Bills & Utilities"
    case Other => "Other"
  }

  /** The colour a bucket is seeded with. */
  function Color(b: Bucket): string
  {
    match b
    case FoodAndDining => "#3b82f6"
    case Transportation => "#8b5cf6"
    case Shopping => "#ec4899"
    case Entertainment => "#f59e0b"
    case BillsAndUtilities => "#10b981"
    case Other => "#6b7280"
  }

  const Income: string := "Income"

  /** The name the loop files a transaction under: a string itself, an object's name,
      anything else `Other`. */
  function BucketName(c: CategoryRef): (r: string)
    ensures c.Str? ==> r == c.s
    ensures c.Obj? ==> r == c.c.name
    ensures c.Absent? ==> r == Label(Other)
  {
    match c
    case Str(s) => s
    case Obj(cat) => cat.name
    case Absent => Label(Other)
  }

  predicate IsIncome(t: Transaction)
  {
    BucketName(t.category) == Income
  }

  /** `categoryData[catName]`: the bucket whose key is `name`, if any. */
  function Lookup(name: string): (r: Option<Bucket>)
    ensures r.Some? ==> Label(r.value) == name
    ensures r.None? ==> forall b: Bucket :: Label(b) != name
  {
    if name == "Food & Dining" then Some(FoodAndDining)
    else if name == "Transportation" then Some(Transportation)
    else if name == "Shopping" then Some(Shopping)
    else if name == "Entertainment" then Some(Entertainment)
    else if name == "Bills & Utilities" then Some(BillsAndUtilities)
    else if name == "Other" then Some(Other)
    else None
  }

  /** The bucket a non-Income name lands in: its own if predefined, otherwise `Other`. */
  function Target(name: string): (b: Bucket)
    ensures Label(b) == name || (b == Other && forall b': Bucket :: Label(b') != name)
  {
    match Lookup(name)
    case Some(b) => b
    case None => Other
  }

  /** Key strings identify buckets. */
  lemma LabelInjective(a: Bucket, b: Bucket)
    requires Label(a) == Label(b)
    ensures a == b
  {
  }

  /** Every bucket is one of the six keys. */
  lemma BucketListed(b: Bucket)
    ensures b in Buckets
  {
  }

  /** A table holding a value under each of the six keys. */
  predicate Seeded(m: map<Bucket, real>)
  {
    forall b: Bucket :: b in m
  }

  /** The initial `categoryData`: the six buckets, each at 0. */
  function InitialBuckets(): (m: map<Bucket, real>)
    ensures Seeded(m)
    ensures forall b :: b in m ==> m[b] == 0.0
  {
    var m := map[FoodAndDining := 0.0, Transportation := 0.0, Shopping := 0.0,
                 Entertainment := 0.0, BillsAndUtilities := 0.0, Other := 0.0];
    assert Seeded(m) by {
      forall b: Bucket ensures b in m { BucketListed(b); }
    }
    m
  }

  /** One step of the `forEach`. */
  function Accumulate(m: map<Bucket, real>, t: Transaction): (m': map<Bucket, real>)
    requires Seeded(m)
    ensures Seeded(m')
  {
    var catName := BucketName(t.category);
    if catName == Income then m
    else
      match Lookup(catName)
      case Some(b) => m[b := m[b] + t.amount]
      case None => m[Other := m[Other] + t.amount]
  }

  /** A step adds a non-Income amount to the bucket its name lands in, and nothing else. */
  lemma AccumulateAdds(m: map<Bucket, real>, t: Transaction)
    requires Seeded(m)
    ensures IsIncome(t) ==> Accumulate(m, t) == m
    ensures !IsIncome(t) ==>
      var b := Target(BucketName(t.category));
      Accumulate(m, t) == m[b := m[b] + t.amount]
  {
  }

  /** `categoryData` after the loop has run over `ts`. */
  function BucketsAfter(ts: seq<Transaction>): (m: map<Bucket, real>)
    ensures Seeded(m)
  {
    if ts == [] then InitialBuckets()
    else Accumulate(BucketsAfter(ts[..|ts| - 1]), ts[|ts| - 1])
  }

  /** Extending the prefix by one transaction is one more step. */
  lemma BucketsAfterStep(ts: seq<Transaction>, i: int)
    requires 0 <= i < |ts|
    ensures BucketsAfter(ts[..i + 1]) == Accumulate(BucketsAfter(ts[..i]), ts[i])
  {
    assert ts[..i + 1][..i] == ts[..i];
  }

  /** The accumulation loop, updating `categoryData` one transaction at a time. */
  method AccumulateCategoryData(transactions: seq<Transaction>) returns (categoryData: map<Bucket, real>)
    ensures categoryData == BucketsAfter(transactions)
  {
    categoryData := InitialBuckets();
    var i := 0;
    while i < |transactions|
      invariant 0 <= i <= |transactions|
      invariant categoryData == BucketsAfter(transactions[..i])
    {
      var t := transactions[i];
      ghost var before := categoryData;
      var catName := BucketName(t.category);
      if catName != Income {
        match Lookup(catName)
        case Some(b) =>
          categoryData := categoryData[b := categoryData[b] + t.amount];
        case None =>
          categoryData := categoryData[Other := categoryData[Other] + t.amount];
      }
      assert categoryData == Accumulate(before, t);
      BucketsAfterStep(transactions, i);
      i := i + 1;
    }
    assert transactions[..i] == transactions;
  }

  /** An independent account of one bucket: the sum of the non-Income amounts whose name lands in it. */
  function BucketTotal(b: Bucket, ts: seq<Transaction>): real
  {
    if ts == [] then 0.0
    else
      var t := ts[|ts| - 1];
      BucketTotal(b, ts[..|ts| - 1]) + (if !IsIncome(t) && Target(BucketName(t.category)) == b then t.amount else 0.0)
  }

  /** Each bucket after the loop holds exactly its non-Income amounts: Income adds
      nothing anywhere, known names add to their own bucket, the rest to `Other`. */
  lemma {:induction false} BucketsAfterAreTotals(ts: seq<Transaction>)
    ensures forall b :: BucketsAfter(ts)[b] == BucketTotal(b, ts)
  {
    if ts != [] {
      BucketsAfterAreTotals(ts[..|ts| - 1]);
      AccumulateAdds(BucketsAfter(ts[..|ts| - 1]), ts[|ts| - 1]);
    }
  }

  /** The sum of every amount the loop does not skip as Income. */
  function NonIncomeSum(ts: seq<Transaction>): real
  {
    if ts == [] then 0.0
    else
      var t := ts[|ts| - 1];
      NonIncomeSum(ts[..|ts| - 1]) + (if IsIncome(t) then 0.0 else t.amount)
  }

  /** One slice of the pie chart. */
  datatype Slice = Slice(name: string, value: real, color: string)

  /** The `filter`/`map` over `Object.entries(categoryData)`, over the given keys. */
  function ChartFrom(keys: seq<Bucket>, m: map<Bucket, real>): (r: seq<Slice>)
    requires Seeded(m)
    ensures |r| <= |keys|
  {
    if keys == [] then []
    else
      var b := keys[0];
      var head := if m[b] > 0.0 then [Slice(Label(b), m[b], Color(b))] else [];
      head + ChartFrom(keys[1..], m)
  }

  /** The chart's `data`. */
  function ChartData(m: map<Bucket, real>): seq<Slice>
    requires Seeded(m)
  {
    ChartFrom(Buckets, m)
  }

  /** A bucket's key string leads back to the bucket. */
  lemma TargetOfLabel(b: Bucket)
    ensures Target(Label(b)) == b
  {
    LabelInjective(Target(Label(b)), b);
  }

  /** Every slice of the chart is a bucket of `keys` with a positive value, under its key and colour. */
  lemma {:induction false} ChartSound(keys: seq<Bucket>, m: map<Bucket, real>)
    requires Seeded(m)
    ensures forall s :: s in ChartFrom(keys, m) ==>
      var b := Target(s.name);
      b in keys && s == Slice(Label(b), m[b], Color(b)) && m[b] > 0.0
  {
    if keys != [] {
      var b := keys[0];
      ChartSound(keys[1..], m);
      TargetOfLabel(b);
      forall s | s in ChartFrom(keys[1..], m)
        ensures Target(s.name) in keys
      {
      }
    }
  }

  /** Every bucket with a positive value is in the chart. */
  lemma {:induction false} ChartComplete(keys: seq<Bucket>, m: map<Bucket, real>, b: Bucket)
    requires Seeded(m) && b in keys && m[b] > 0.0
    ensures Slice(Label(b), m[b], Color(b)) in ChartFrom(keys, m)
  {
    if keys[0] != b {
      ChartComplete(keys[1..], m, b);
    }
  }

  predicate Distinct(keys: seq<Bucket>)
  {
    forall i, j :: 0 <= i < j < |keys| ==> keys[i] != keys[j]
  }

  lemma DistinctTail(keys: seq<Bucket>)
    requires keys != [] && Distinct(keys)
    ensures Distinct(keys[1..]) && keys[0] !in keys[1..]
  {
    assert forall i :: 0 <= i < |keys[1..]| ==> keys[1..][i] == keys[i + 1];
  }

  /** The keys holding a positive value, in the order of `keys`. */
  function PositiveKeys(keys: seq<Bucket>, m: map<Bucket, real>): seq<Bucket>
    requires Seeded(m)
  {
    if keys == [] then []
    else (if m[keys[0]] > 0.0 then [keys[0]] else []) + PositiveKeys(keys[1..], m)
  }

  /** One slice per bucket, under the bucket's key, value and colour. */
  function SlicesOf(bs: seq<Bucket>, m: map<Bucket, real>): seq<Slice>
    requires Seeded(m)
  {
    if bs == [] then [] else [Slice(Label(bs[0]), m[bs[0]], Color(bs[0]))] + SlicesOf(bs[1..], m)
  }

  /** The chart is the slices of exactly the positive keys, in key order. */
  lemma {:induction false} ChartIsPositiveKeys(keys: seq<Bucket>, m: map<Bucket, real>)
    requires Seeded(m)
    ensures ChartFrom(keys, m) == SlicesOf(PositiveKeys(keys, m), m)
  {
    if keys != [] {
      var b := keys[0];
      var rest := PositiveKeys(keys[1..], m);
      ChartIsPositiveKeys(keys[1..], m);
      if m[b] > 0.0 {
        assert ([b] + rest)[0] == b && ([b] + rest)[1..] == rest;
      } else {
        assert [] + rest == rest;
      }
    }
  }

  /** The chart data keeps exactly the buckets with a positive value, each under its key,
      value and colour, in declaration order. */
  lemma ChartDataSpec(m: map<Bucket, real>)
    requires Seeded(m)
    ensures ChartData(m) == SlicesOf(PositiveKeys(Buckets, m), m)
    ensures forall s :: s in ChartData(m) ==>
      var b := Target(s.name);
      s == Slice(Label(b), m[b], Color(b)) && m[b] > 0.0
    ensures forall b: Bucket :: m[b] > 0.0 ==> Slice(Label(b), m[b], Color(b)) in ChartData(m)
  {
    ChartIsPositiveKeys(Buckets, m);
    ChartSound(Buckets, m);
    forall b: Bucket | m[b] > 0.0
      ensures Slice(Label(b), m[b], Color(b)) in ChartData(m)
    {
      BucketListed(b);
      ChartComplete(Buckets, m, b);
    }
  }

  /** `totalSpent`: the sum of the chart's values. */
  function TotalSpent(data: seq<Slice>): real
  {
    if data == [] then 0.0 else data[0].value + TotalSpent(data[1..])
  }

  /** The sum of the table's values over the given keys. */
  function SumOver(keys: seq<Bucket>, m: map<Bucket, real>): real
    requires Seeded(m)
  {
    if keys == [] then 0.0 else m[keys[0]] + SumOver(keys[1..], m)
  }

  /** No bucket holds a negative value. */
  predicate NonNegative(m: map<Bucket, real>)
    requires Seeded(m)
  {
    forall b :: m[b] >= 0.0
  }

  /** When no value is negative, dropping the zero buckets does not change the sum. */
  lemma {:induction false} ChartSum(keys: seq<Bucket>, m: map<Bucket, real>)
    requires Seeded(m) && NonNegative(m)
    ensures TotalSpent(ChartFrom(keys, m)) == SumOver(keys, m)
  {
    if keys != [] {
      ChartSum(keys[1..], m);
      var b := keys[0];
      var rest := ChartFrom(keys[1..], m);
      if m[b] > 0.0 {
        assert ([Slice(Label(b), m[b], Color(b))] + rest)[1..] == rest;
      } else {
        assert [] + rest == rest;
      }
    }
  }

  /** Changing a value outside the keys does not change their sum. */
  lemma {:induction false} SumOverOutside(keys: seq<Bucket>, m: map<Bucket, real>, b: Bucket, v: real)
    requires Seeded(m) && b !in keys
    ensures SumOver(keys, m[b := v]) == SumOver(keys, m)
  {
    if keys != [] {
      SumOverOutside(keys[1..], m, b, v);
    }
  }

  /** Adding to one key's value adds the same to the sum over distinct keys. */
  lemma {:induction false} SumOverUpdate(keys: seq<Bucket>, m: map<Bucket, real>, b: Bucket, a: real)
    requires Seeded(m) && Distinct(keys) && b in keys
    ensures SumOver(keys, m[b := m[b] + a]) == SumOver(keys, m) + a
  {
    DistinctTail(keys);
    if keys[0] == b {
      SumOverOutside(keys[1..], m, b, m[b] + a);
    } else {
      SumOverUpdate(keys[1..], m, b, a);
    }
  }

  /** The buckets together hold every non-Income amount, each once. */
  lemma {:induction false} BucketsSumToNonIncome(ts: seq<Transaction>)
    ensures SumOver(Buckets, BucketsAfter(ts)) == NonIncomeSum(ts)
  {
    if ts != [] {
      var pre := ts[..|ts| - 1];
      BucketsSumToNonIncome(pre);
      BucketsDistinct();
      SumStep(Buckets, BucketsAfter(pre), ts[|ts| - 1]);
    }
  }

  /** Over distinct keys covering every bucket, one step adds its non-Income amount to the sum. */
  lemma SumStep(keys: seq<Bucket>, m: map<Bucket, real>, t: Transaction)
    requires Seeded(m) && Distinct(keys) && forall b :: b in keys
    ensures SumOver(keys, Accumulate(m, t)) == SumOver(keys, m) + (if IsIncome(t) then 0.0 else t.amount)
  {
    AccumulateAdds(m, t);
    if !IsIncome(t) {
      SumOverUpdate(keys, m, Target(BucketName(t.category)), t.amount);
    }
  }

  lemma BucketsDistinct()
    ensures Distinct(Buckets) && forall b :: b in Buckets
  {
    forall b: Bucket ensures b in Buckets { BucketListed(b); }
  }

  /** With non-negative amounts every bucket stays non-negative. */
  lemma {:induction false} BucketsNonNegative(ts: seq<Transaction>)
    requires forall i :: 0 <= i < |ts| ==> ts[i].amount >= 0.0
    ensures NonNegative(BucketsAfter(ts))
  {
    if ts != [] {
      BucketsNonNegative(ts[..|ts| - 1]);
      AccumulateAdds(BucketsAfter(ts[..|ts| - 1]), ts[|ts| - 1]);
    }
  }

  /** With non-negative amounts, `totalSpent` is the sum of all non-Income amounts. */
  lemma TotalSpentIsNonIncomeSum(ts: seq<Transaction>)
    requires forall i :: 0 <= i < |ts| ==> ts[i].amount >= 0.0
    ensures TotalSpent(ChartData(BucketsAfter(ts))) == NonIncomeSum(ts)
  {
    BucketsNonNegative(ts);
    ChartSum(Buckets, BucketsAfter(ts));
    BucketsSumToNonIncome(ts);
  }

  /** The name the count filters on: an object's name, otherwise `String(t.category)`.
      This is the same expression the budget table files a transaction by, so it is
      that resolution. */
  function CountName(c: CategoryRef): (r: string)
    ensures c.Obj? ==> r == c.c.name
    ensures c.Str? ==> r == c.s
    ensures c.Absent? ==> r == "undefined"
  {
    BudgetsTable.TransactionCategoryName(c)
  }

  /** `transactionCount`. */
  function TransactionCount(ts: seq<Transaction>): (n: nat)
    ensures n <= |ts|
  {
    if ts == [] then 0
    else (if CountName(ts[0].category) != Income then 1 else 0) + TransactionCount(ts[1..])
  }

  /** The number of transactions the bucket loop does not skip as Income. */
  function NonIncomeCount(ts: seq<Transaction>): nat
  {
    if ts == [] then 0
    else NonIncomeCount(ts[..|ts| - 1]) + (if IsIncome(ts[|ts| - 1]) then 0 else 1)
  }

  lemma {:induction false} CountAppend(ts: seq<Transaction>, t: Transaction)
    ensures TransactionCount(ts + [t]) == TransactionCount(ts) + (if CountName(t.category) != Income then 1 else 0)
  {
    if ts == [] {
      assert [t][1..] == [];
    } else {
      assert (ts + [t])[1..] == ts[1..] + [t];
      CountAppend(ts[1..], t);
    }
  }

  /** The count and the buckets agree on what Income is, although the two resolve a
      missing category differently ("undefined" against `Other`). */
  lemma {:induction false} CountMatchesBuckets(ts: seq<Transaction>)
    ensures TransactionCount(ts) == NonIncomeCount(ts)
  {
    if ts != [] {
      var t := ts[|ts| - 1];
      var pre := ts[..|ts| - 1];
      CountMatchesBuckets(pre);
      CountAppend(pre, t);
      assert pre + [t] == ts;
    }
  }
}
