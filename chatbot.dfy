/** The financial-assistant chat (frontend/src/components/Chatbot.tsx): a message log
    that starts with a welcome message, one notification per budget id for the alerts
    it is shown (remembered in `alertsProcessed`), and for each non-blank question a
    user message followed by a reply chosen by keyword priority from the app's data. */
module Chatbot {
  import opened Types

  // ---------------------------------------------------------------------------
  // Messages

  /** What an alert notification says: the critical text, or the warning text with
      the amount still remaining under the limit. */
  datatype Notice =
    | Exceeded(category: string, spent: real, limit: real, percentage: real)
    | Approaching(category: string, percentage: real, spent: real, limit: real, remaining: real)

  /** A bot reply, before its numbers are formatted. */
  datatype Reply =
    | FoodReply(spent: real, limit: real, remaining: real)
    | NoFoodBudget
    | StatusReply(over: seq<string>, approaching: seq<string>)
    | SavingsReply(saved: real)
    | TotalReply(spent: real, count: nat)
    | CannedReply(text: string)

  datatype Message =
    | Welcome
    | AlertMessage(budgetId: int, notice: Notice)
    | UserMessage(text: string)
    | BotMessage(reply: Reply)

  datatype Sender = User | Bot

  function SenderOf(m: Message): (s: Sender)
    ensures s == User <==> m.UserMessage?
  {
    if m.UserMessage? then User else Bot
  }

  /** The notification for one alert. */
  function NoticeOf(a: BudgetAlert): (n: Notice)
    ensures n.Exceeded? <==> a.severity == Critical
    ensures n.category == a.category && n.spent == a.spent && n.limit == a.limit
    ensures n.percentage == a.percentage
    ensures n.Approaching? ==> n.remaining == a.limit - a.spent
  {
    if a.severity == Critical then Exceeded(a.category, a.spent, a.limit, a.percentage)
    else Approaching(a.category, a.percentage, a.spent, a.limit, a.limit - a.spent)
  }

  // ---------------------------------------------------------------------------
  // Alert notifications

  /** The budget ids of a list of alerts. */
  function IdSet(xs: seq<BudgetAlert>): set<int>
  {
    if xs == [] then {} else IdSet(xs[..|xs| - 1]) + {xs[|xs| - 1].budgetId}
  }

  /** An id is in the set exactly when some alert of the list carries it. */
  lemma {:induction false} IdSetMembers(xs: seq<BudgetAlert>)
    ensures forall k :: 0 <= k < |xs| ==> xs[k].budgetId in IdSet(xs)
    ensures forall id :: id in IdSet(xs) ==> exists k :: 0 <= k < |xs| && xs[k].budgetId == id
  {
    if xs != [] {
      var pre := xs[..|xs| - 1];
      IdSetMembers(pre);
      assert forall k :: 0 <= k < |pre| ==> pre[k] == xs[k];
    }
  }

  /** The messages the alert effect appends for `xs` when `processed` holds the ids
      already notified: an alert whose id is new is announced and its id recorded,
      so a later alert with the same id is skipped. */
  function Notify(processed: set<int>, xs: seq<BudgetAlert>): seq<Message>
  {
    if xs == [] then []
    else
      var pre := xs[..|xs| - 1];
      var a := xs[|xs| - 1];
      Notify(processed, pre) +
        (if a.budgetId in processed + IdSet(pre) then [] else [AlertMessage(a.budgetId, NoticeOf(a))])
  }

  /** One more alert: its id joins the set, and it is announced unless its id is already known. */
  lemma NotifyStep(processed: set<int>, xs: seq<BudgetAlert>, i: int)
    requires 0 <= i < |xs|
    ensures IdSet(xs[..i + 1]) == IdSet(xs[..i]) + {xs[i].budgetId}
    ensures Notify(processed, xs[..i + 1]) == Notify(processed, xs[..i]) +
      (if xs[i].budgetId in processed + IdSet(xs[..i]) then [] else [AlertMessage(xs[i].budgetId, NoticeOf(xs[i]))])
  {
    assert xs[..i + 1][..i] == xs[..i];
  }

  /** The budget ids of the alert messages in a log, in order. */
  function AlertIds(ms: seq<Message>): seq<int>
  {
    if ms == [] then []
    else (if ms[0].AlertMessage? then [ms[0].budgetId] else []) + AlertIds(ms[1..])
  }

  predicate DistinctIds(s: seq<int>)
  {
    forall i, j :: 0 <= i < j < |s| ==> s[i] != s[j]
  }

  lemma {:induction false} AlertIdsAppend(a: seq<Message>, b: seq<Message>)
    ensures AlertIds(a + b) == AlertIds(a) + AlertIds(b)
  {
    if a == [] {
      assert a + b == b;
    } else {
      var h := if a[0].AlertMessage? then [a[0].budgetId] else [];
      assert (a + b)[0] == a[0] && (a + b)[1..] == a[1..] + b;
      AlertIdsAppend(a[1..], b);
      calc {
        AlertIds(a + b);
        h + AlertIds(a[1..] + b);
        h + (AlertIds(a[1..]) + AlertIds(b));
        (h + AlertIds(a[1..])) + AlertIds(b);
        AlertIds(a) + AlertIds(b);
      }
    }
  }

  lemma DistinctConcat(a: seq<int>, b: seq<int>)
    requires DistinctIds(a) && DistinctIds(b)
    requires forall x :: x in a ==> x !in b
    ensures DistinctIds(a + b)
  {
    var c := a + b;
    forall i, j | 0 <= i < j < |c|
      ensures c[i] != c[j]
    {
      if j < |a| {
        assert c[i] == a[i] && c[j] == a[j];
      } else if i >= |a| {
        assert c[i] == b[i - |a|] && c[j] == b[j - |a|];
      } else {
        assert c[i] == a[i] && c[j] == b[j - |a|] && a[i] in a;
      }
    }
  }

  /** The notifications are alert messages for exactly the new ids, one each. */
  lemma {:induction false} NotifyFacts(processed: set<int>, xs: seq<BudgetAlert>)
    ensures forall m :: m in Notify(processed, xs) ==> m.AlertMessage?
    ensures forall id :: id in AlertIds(Notify(processed, xs)) <==> id in IdSet(xs) && id !in processed
    ensures DistinctIds(AlertIds(Notify(processed, xs)))
  {
    if xs != [] {
      var pre := xs[..|xs| - 1];
      var a := xs[|xs| - 1];
      var head := Notify(processed, pre);
      var tail: seq<Message> :=
        if a.budgetId in processed + IdSet(pre) then [] else [AlertMessage(a.budgetId, NoticeOf(a))];
      NotifyFacts(processed, pre);
      AlertIdsAppend(head, tail);
      assert AlertIds(tail) == if tail == [] then [] else [a.budgetId];
      assert IdSet(xs) == IdSet(pre) + {a.budgetId};
      DistinctConcat(AlertIds(head), AlertIds(tail));
    }
  }

  /** A second pass over alerts already processed announces nothing. */
  lemma {:induction false} NotifyAgainSilent(processed: set<int>, xs: seq<BudgetAlert>)
    requires IdSet(xs) <= processed
    ensures Notify(processed, xs) == []
  {
    if xs != [] {
      NotifyAgainSilent(processed, xs[..|xs| - 1]);
    }
  }

  /** The chat log invariant: the welcome message first and only there, every processed
      id announced and every announcement processed, and no two announcements for the
      same budget id. */
  predicate ValidLog(ms: seq<Message>, processed: set<int>)
  {
    && |ms| >= 1 && ms[0] == Welcome
    && (forall i :: 1 <= i < |ms| ==> !ms[i].Welcome?)
    && (forall id :: id in processed ==> id in AlertIds(ms))
    && (forall id :: id in AlertIds(ms) ==> id in processed)
    && DistinctIds(AlertIds(ms))
  }

  /** Appending the notifications for any alerts and recording their ids keeps the log valid. */
  lemma NotifyKeepsValid(ms: seq<Message>, processed: set<int>, xs: seq<BudgetAlert>)
    requires ValidLog(ms, processed)
    ensures ValidLog(ms + Notify(processed, xs), processed + IdSet(xs))
  {
    var n := Notify(processed, xs);
    NotifyFacts(processed, xs);
    AlertIdsAppend(ms, n);
    DistinctConcat(AlertIds(ms), AlertIds(n));
    forall i | 1 <= i < |ms + n|
      ensures !(ms + n)[i].Welcome?
    {
      if i >= |ms| {
        assert (ms + n)[i] == n[i - |ms|] && n[i - |ms|] in n;
      }
    }
  }

  /** Appending a question and its reply keeps the log valid. */
  lemma ExchangeKeepsValid(ms: seq<Message>, processed: set<int>, question: string, reply: Reply)
    requires ValidLog(ms, processed)
    ensures ValidLog(ms + [UserMessage(question), BotMessage(reply)], processed)
  {
    var e := [UserMessage(question), BotMessage(reply)];
    AlertIdsAppend(ms, e);
    assert AlertIds([BotMessage(reply)]) == [] by {
      assert [BotMessage(reply)][1..] == [];
    }
    assert e[1..] == [BotMessage(reply)];
    assert ms + e == (ms + e)[..|ms|] + e;
  }

  // ---------------------------------------------------------------------------
  // The input guard

  /** The characters `String.prototype.trim` removes: white space and line terminators. */
  predicate IsWhitespace(c: char)
  {
    || c == '\t' || c == '\n' || c == '\U{0B}' || c == '\U{0C}' || c == '\r' || c == ' '
    || c == '\U{A0}' || c == '\U{1680}' || ('\U{2000}' <= c <= '\U{200A}')
    || c == '\U{2028}' || c == '\U{2029}' || c == '\U{202F}' || c == '\U{205F}'
    || c == '\U{3000}' || c == '\U{FEFF}'
  }

  function TrimStart(s: string): (r: string)
    ensures |r| <= |s| && r == s[|s| - |r|..]
    ensures r != [] ==> !IsWhitespace(r[0])
    ensures forall i :: 0 <= i < |s| - |r| ==> IsWhitespace(s[i])
  {
    if s != [] && IsWhitespace(s[0]) then
      var r := TrimStart(s[1..]);
      assert forall i :: 0 <= i < |s| - 1 ==> s[1..][i] == s[i + 1];
      r
    else s
  }

  function TrimEnd(s: string): (r: string)
    ensures |r| <= |s| && r == s[..|r|]
    ensures r != [] ==> !IsWhitespace(r[|r| - 1])
    ensures forall i :: |r| <= i < |s| ==> IsWhitespace(s[i])
  {
    if s != [] && IsWhitespace(s[|s| - 1]) then TrimEnd(s[..|s| - 1]) else s
  }

  /** `s.trim()`. */
  function Trim(s: string): string
  {
    TrimEnd(TrimStart(s))
  }

  predicate IsBlank(s: string)
  {
    forall i :: 0 <= i < |s| ==> IsWhitespace(s[i])
  }

  /** The guard `!inputValue.trim()` holds exactly for input made only of white space. */
  lemma TrimEmptyIffBlank(s: string)
    ensures Trim(s) == "" <==> IsBlank(s)
  {
  }

  // ---------------------------------------------------------------------------
  // Routing

  /** The ASCII part of `toLowerCase`. */
  function LowerChar(c: char): char
  {
    if 'A' <= c <= 'Z' then (c as int + 32) as char else c
  }

  function ToLower(s: string): (r: string)
    ensures |r| == |s| && forall i :: 0 <= i < |s| ==> r[i] == LowerChar(s[i])
  {
    if s == [] then [] else [LowerChar(s[0])] + ToLower(s[1..])
  }

  lemma ToLowerIdempotent(s: string)
    ensures ToLower(ToLower(s)) == ToLower(s)
  {
  }

  /** `p` occurs in `s` at position `i`. */
  predicate At(s: string, p: string, i: int)
  {
    0 <= i && i + |p| <= |s| && s[i..i + |p|] == p
  }

  /** `s.includes(p)`. */
  function Contains(s: string, p: string): (r: bool)
    ensures r <==> exists i :: At(s, p, i)
    decreases |s|
  {
    if |s| < |p| then false
    else if s[..|p|] == p then
      assert At(s, p, 0);
      true
    else
      var r := Contains(s[1..], p);
      assert forall i :: At(s[1..], p, i) ==> At(s, p, i + 1) by {
        forall i | At(s[1..], p, i) ensures At(s, p, i + 1) {
          assert s[1..][i..i + |p|] == s[i + 1..i + 1 + |p|];
        }
      }
      assert forall i :: At(s, p, i) ==> i > 0 && At(s[1..], p, i - 1) by {
        forall i | At(s, p, i) ensures i > 0 && At(s[1..], p, i - 1) {
          assert s[1..][i - 1..i - 1 + |p|] == s[i..i + |p|];
        }
      }
      r
  }

  /** Lowering a string lowers every occurrence in it. */
  lemma LoweredOccurrence(s: string, p: string, i: int)
    requires At(s, p, i)
    ensures At(ToLower(s), ToLower(p), i)
  {
    assert ToLower(s)[i..i + |p|] == ToLower(p);
  }

  /** The reply kinds, in the order the keywords are tried. */
  datatype Intent = Food | BudgetStatus | Savings | Total | Chit

  /** The keyword chain of `handleSend`, on the lowered query. */
  function Route(q: string): Intent
  {
    if Contains(q, "food") || Contains(q, "dining") then Food
    else if Contains(q, "budget") || Contains(q, "over") then BudgetStatus
    else if Contains(q, "savings") || Contains(q, "save") then Savings
    else if Contains(q, "total") || Contains(q, "spent") then Total
    else Chit
  }

  /** The chain's priority: food first, then the budget status, and the canned reply
      exactly when none of the eight keywords occurs. */
  lemma RouteSpec(q: string)
    ensures Route(q) == Food <==> Contains(q, "food") || Contains(q, "dining")
    ensures Route(q) == BudgetStatus <==>
      !(Contains(q, "food") || Contains(q, "dining")) && (Contains(q, "budget") || Contains(q, "over"))
    ensures Route(q) == Savings <==>
      !(Contains(q, "food") || Contains(q, "dining") || Contains(q, "budget") || Contains(q, "over"))
      && (Contains(q, "savings") || Contains(q, "save"))
    ensures Route(q) == Chit <==>
      !Contains(q, "food") && !Contains(q, "dining") && !Contains(q, "budget") && !Contains(q, "over")
      && !Contains(q, "savings") && !Contains(q, "save") && !Contains(q, "total") && !Contains(q, "spent")
  {
  }

  /** A keyword typed in capitals still selects its reply, since the query is lowered first. */
  lemma CapitalFoodIsFood(s: string, i: int)
    requires At(s, "FOOD", i)
    ensures Route(ToLower(s)) == Food
  {
    LoweredOccurrence(s, "FOOD", i);
    assert ToLower("FOOD") == "food";
  }

  /** A pattern whose first character does not occur in `s` does not occur in it. */
  lemma NotContainedWithoutFirstChar(s: string, p: string)
    requires |p| > 0 && forall i :: 0 <= i < |s| ==> s[i] != p[0]
    ensures !Contains(s, p)
  {
  }

  /** "spent" is tried after "over": a question about spending over a period gets the budget status. */
  lemma SpentOverIsBudgetStatus()
    ensures Route("spent over") == BudgetStatus
  {
    assert At("spent over", "over", 6);
    var q := "spent over";
    assert forall i :: 0 <= i < |q| ==> q[i] in {'s', 'p', 'e', 'n', 't', ' ', 'o', 'v', 'r'};
    NotContainedWithoutFirstChar(q, "food");
    NotContainedWithoutFirstChar(q, "dining");
  }

  /** A food question wins over every later keyword. */
  lemma TotalOnFoodIsFood()
    ensures Route("total food") == Food
  {
    assert At("total food", "food", 6);
  }

  // ---------------------------------------------------------------------------
  // Reply values

  const FoodAndDining: string := "Food & Dining"
  const IncomeName: string := "Income"

  /** `budgets.find(b => b.category === 'Food & Dining')`: only a budget whose category is
      the string itself matches; a category object never does. */
  function FoodBudget(budgets: seq<Budget>): (r: Option<Budget>)
    ensures r.Some? ==> r.value in budgets && r.value.category == Str(FoodAndDining)
    ensures r.None? <==> forall k :: 0 <= k < |budgets| ==> budgets[k].category != Str(FoodAndDining)
    ensures r.Some? ==> exists k :: 0 <= k < |budgets| && budgets[k] == r.value
                          && forall k' :: 0 <= k' < k ==> budgets[k'].category != Str(FoodAndDining)
  {
    if budgets == [] then None
    else if budgets[0].category == Str(FoodAndDining) then Some(budgets[0])
    else
      var r := FoodBudget(budgets[1..]);
      assert forall k :: 0 <= k < |budgets| - 1 ==> budgets[1..][k] == budgets[k + 1];
      if r.Some? then
        var k :| 0 <= k < |budgets[1..]| && budgets[1..][k] == r.value
                 && forall k' :: 0 <= k' < k ==> budgets[1..][k'].category != Str(FoodAndDining);
        assert budgets[k + 1] == r.value;
        r
      else r
  }

  /** The sum of the amounts of the transactions whose raw category satisfies the filter. */
  function FoodSpent(ts: seq<Transaction>): real
  {
    if ts == [] then 0.0
    else
      var t := ts[|ts| - 1];
      FoodSpent(ts[..|ts| - 1]) + (if t.category == Str(FoodAndDining) then t.amount else 0.0)
  }

  /** `transactions.filter(t => t.category !== 'Income')`, summed. */
  function RawNonIncomeSum(ts: seq<Transaction>): real
  {
    if ts == [] then 0.0
    else
      var t := ts[|ts| - 1];
      RawNonIncomeSum(ts[..|ts| - 1]) + (if t.category != Str(IncomeName) then t.amount else 0.0)
  }

  /** The same filter, counted. */
  function RawNonIncomeCount(ts: seq<Transaction>): (n: nat)
    ensures n <= |ts|
  {
    if ts == [] then 0
    else
      var t := ts[|ts| - 1];
      RawNonIncomeCount(ts[..|ts| - 1]) + (if t.category != Str(IncomeName) then 1 else 0)
  }

  /** `budgets.reduce((sum, b) => sum + b.limit_amount, 0)`. */
  function TotalLimits(budgets: seq<Budget>): real
  {
    if budgets == [] then 0.0 else budgets[0].limitAmount + TotalLimits(budgets[1..])
  }

  /** With non-negative amounts, food spend is part of the non-Income spend. */
  lemma {:induction false} FoodWithinSpend(ts: seq<Transaction>)
    requires forall k :: 0 <= k < |ts| ==> ts[k].amount >= 0.0
    ensures 0.0 <= FoodSpent(ts) <= RawNonIncomeSum(ts)
  {
    if ts != [] {
      FoodWithinSpend(ts[..|ts| - 1]);
    }
  }

  /** The categories of the alerts of one severity, in order. */
  function NamesOf(alerts: seq<BudgetAlert>, sev: Severity): (r: seq<string>)
    ensures |r| <= |alerts|
  {
    if alerts == [] then []
    else (if alerts[0].severity == sev then [alerts[0].category] else []) + NamesOf(alerts[1..], sev)
  }

  /** Critical and warning alerts are counted apart, and together they are all the alerts. */
  lemma {:induction false} StatusPartition(alerts: seq<BudgetAlert>)
    ensures |NamesOf(alerts, Critical)| + |NamesOf(alerts, Warning)| == |alerts|
    ensures NamesOf(alerts, Critical) == [] && NamesOf(alerts, Warning) == [] <==> alerts == []
  {
    if alerts != [] {
      StatusPartition(alerts[1..]);
    }
  }

  /** The canned replies. */
  const BotResponses: seq<string> := [
    "Based on your spending patterns, you're doing great with your food budget! You're 17% under budget this month.",
    "Your transportation costs are very consistent. You're averaging $170/week, which is well within your budget.",
    "Great news! You've saved $400 this month compared to last month. Keep up the good work!",
    "I can help you create a savings plan. What's your target amount and timeframe?",
    "Let me analyze your recent transactions to find potential savings opportunities."
  ]

  /** The reply to the lowered query `q`. `choice` is the index `Math.floor(Math.random() * 5)`. */
  function Respond(q: string, budgets: seq<Budget>, transactions: seq<Transaction>,
                   alerts: seq<BudgetAlert>, choice: nat): Reply
    requires choice < |BotResponses|
  {
    match Route(q)
    case Food =>
      var spent := FoodSpent(transactions);
      (match FoodBudget(budgets)
       case Some(b) => FoodReply(spent, b.limitAmount, b.limitAmount - spent)
       case None => NoFoodBudget)
    case BudgetStatus => StatusReply(NamesOf(alerts, Critical), NamesOf(alerts, Warning))
    case Savings => SavingsReply(TotalLimits(budgets) - RawNonIncomeSum(transactions))
    case Total => TotalReply(RawNonIncomeSum(transactions), RawNonIncomeCount(transactions))
    case Chit => CannedReply(BotResponses[choice])
  }

  /** The reply follows the route. The food reply carries the first string-categorised
      Food & Dining budget's limit, the food spend and the difference, and is empty
      without such a budget. The status reply lists the critical and the warning
      categories. The savings and total replies carry the non-Income figures. The canned
      reply is one of the five texts. */
  lemma RespondSpec(q: string, budgets: seq<Budget>, transactions: seq<Transaction>,
                    alerts: seq<BudgetAlert>, choice: nat)
    requires choice < |BotResponses|
    ensures var r := Respond(q, budgets, transactions, alerts, choice);
      && (Route(q) == Food <==> r.FoodReply? || r.NoFoodBudget?)
      && (r.NoFoodBudget? <==> Route(q) == Food && FoodBudget(budgets).None?)
      && (r.FoodReply? ==> FoodBudget(budgets).Some? && r.limit == FoodBudget(budgets).value.limitAmount
                           && r.spent == FoodSpent(transactions) && r.remaining == r.limit - r.spent)
      && (r.StatusReply? <==> Route(q) == BudgetStatus)
      && (r.StatusReply? ==> r.over == NamesOf(alerts, Critical) && r.approaching == NamesOf(alerts, Warning))
      && (r.SavingsReply? <==> Route(q) == Savings)
      && (r.SavingsReply? ==> r.saved == TotalLimits(budgets) - RawNonIncomeSum(transactions))
      && (r.TotalReply? <==> Route(q) == Total)
      && (r.TotalReply? ==> r.spent == RawNonIncomeSum(transactions) && r.count == RawNonIncomeCount(transactions))
      && (r.CannedReply? <==> Route(q) == Chit)
      && (r.CannedReply? ==> r.text in BotResponses)
  {
  }

  /** The raw filter on a prepended transaction: its amount is added unless its category is the string "Income". */
  lemma {:induction false} RawFiguresPrepend(t: Transaction, ts: seq<Transaction>)
    ensures RawNonIncomeSum([t] + ts) == (if t.category != Str(IncomeName) then t.amount else 0.0) + RawNonIncomeSum(ts)
    ensures RawNonIncomeCount([t] + ts) == (if t.category != Str(IncomeName) then 1 else 0) + RawNonIncomeCount(ts)
  {
    if ts != [] {
      var pre := ts[..|ts| - 1];
      assert ([t] + ts)[..|ts|] == [t] + pre;
      assert ([t] + ts)[|ts|] == ts[|ts| - 1];
      RawFiguresPrepend(t, pre);
    }
  }

  /** A transaction added at the front, as the dashboard adds it, lowers the savings figure
      and raises the total by its amount, and the count by one, unless it is Income. */
  lemma NewTransactionMovesFigures(q: string, budgets: seq<Budget>, t: Transaction, ts: seq<Transaction>,
                                   alerts: seq<BudgetAlert>, choice: nat)
    requires choice < |BotResponses|
    ensures var before := Respond(q, budgets, ts, alerts, choice);
      var after := Respond(q, budgets, [t] + ts, alerts, choice);
      var spend := if t.category != Str(IncomeName) then t.amount else 0.0;
      && (Route(q) == Savings ==> after.saved == before.saved - spend)
      && (Route(q) == Total ==>
            after.spent == before.spent + spend
            && after.count == before.count + (if t.category != Str(IncomeName) then 1 else 0))
  {
    RawFiguresPrepend(t, ts);
  }

  // ---------------------------------------------------------------------------
  // The budget-status text

  const HealthyText: string :=
    "Good news! " + "All your budgets are looking healthy. You're staying within your limits across all categories."

  function Digit(d: nat): (c: char)
    requires d < 10
    ensures '0' <= c <= '9'
  {
    "0123456789"[d]
  }

  /** The decimal form of a count. */
  function NatToString(n: nat): (r: string)
    ensures |r| >= 1 && forall i :: 0 <= i < |r| ==> '0' <= r[i] <= '9'
  {
    if n < 10 then [Digit(n)] else NatToString(n / 10) + [Digit(n % 10)]
  }

  /** `names.join(sep)`. */
  function Join(names: seq<string>, sep: string): string
  {
    if names == [] then ""
    else if |names| == 1 then names[0]
    else names[0] + sep + Join(names[1..], sep)
  }

  /** The text of the budget-status reply: the over-budget sentence if any, followed by the
      approaching sentence if any, and the healthy text when there is neither. */
  function StatusText(over: seq<string>, approaching: seq<string>): string
  {
    var overText :=
      if |over| > 0 then
        "You currently have " + NatToString(|over|) + " categor" + (if |over| == 1 then "y" else "ies")
        + " over budget: " + Join(over, ", ") + ". "
      else "";
    var warningText :=
      if |approaching| > 0 then
        NatToString(|approaching|) + " categor" + (if |approaching| == 1 then "y is" else "ies are")
        + " approaching the limit (>90%): " + Join(approaching, ", ") + "."
      else "";
    if |over| == 0 && |approaching| == 0 then HealthyText else overText + warningText
  }

  /** The healthy text is given exactly when no budget is critical or approaching. */
  lemma StatusTextHealthyIff(over: seq<string>, approaching: seq<string>)
    ensures StatusText(over, approaching) == HealthyText <==> over == [] && approaching == []
  {
    var t := StatusText(over, approaching);
    if |over| > 0 {
      assert t[0] == 'Y' && HealthyText[0] == 'G';
    } else if |approaching| > 0 {
      var digits := NatToString(|approaching|);
      var w := digits + " categor" + (if |approaching| == 1 then "y is" else "ies are")
        + " approaching the limit (>90%): " + Join(approaching, ", ") + ".";
      assert t == "" + w;
      assert t[0] == digits[0] && '0' <= digits[0] <= '9';
      assert HealthyText[0] == 'G';
    }
  }

  // ---------------------------------------------------------------------------
  // The component's state

  class ChatbotState {
    var messages: seq<Message>
    var processed: set<int>
    var inputValue: string

    predicate Valid()
      reads this
    {
      ValidLog(messages, processed)
    }

    /** Mounting: the welcome message replaces the empty log, then the alerts already
        present are announced. */
    constructor (budgetAlerts: seq<BudgetAlert>)
      ensures Valid()
      ensures messages == [Welcome] + Notify({}, budgetAlerts)
      ensures processed == IdSet(budgetAlerts)
      ensures inputValue == ""
    {
      messages := [Welcome];
      processed := {};
      inputValue := "";
      new;
      assert AlertIds([Welcome]) == [];
      OnBudgetAlerts(budgetAlerts);
    }

    /** The alert effect: each alert whose budget id has not been processed is recorded
        and announced; the log only grows and the processed set only grows. */
    method OnBudgetAlerts(budgetAlerts: seq<BudgetAlert>)
      requires Valid()
      modifies this`messages, this`processed
      ensures Valid()
      ensures messages == old(messages) + Notify(old(processed), budgetAlerts)
      ensures processed == old(processed) + IdSet(budgetAlerts)
      ensures old(processed) <= processed
    {
      ghost var m0, p0 := messages, processed;
      var i := 0;
      while i < |budgetAlerts|
        invariant 0 <= i <= |budgetAlerts|
        invariant messages == m0 + Notify(p0, budgetAlerts[..i])
        invariant processed == p0 + IdSet(budgetAlerts[..i])
      {
        var alert := budgetAlerts[i];
        NotifyStep(p0, budgetAlerts, i);
        if alert.budgetId !in processed {
          processed := processed + {alert.budgetId};
          messages := messages + [AlertMessage(alert.budgetId, NoticeOf(alert))];
        }
        i := i + 1;
      }
      assert budgetAlerts[..i] == budgetAlerts;
      NotifyKeepsValid(m0, p0, budgetAlerts);
    }

    method SetInput(s: string)
      modifies this`inputValue
      ensures inputValue == s
    {
      inputValue := s;
    }

    /** `handleSend`, with the delayed reply delivered at once. Blank input changes
        nothing; otherwise the question and its reply are appended and the input cleared. */
    method HandleSend(budgets: seq<Budget>, transactions: seq<Transaction>,
                      budgetAlerts: seq<BudgetAlert>, choice: nat)
      requires Valid() && choice < |BotResponses|
      modifies this`messages, this`inputValue
      ensures Valid()
      ensures IsBlank(old(inputValue)) ==> messages == old(messages) && inputValue == old(inputValue)
      ensures !IsBlank(old(inputValue)) ==>
        && messages == old(messages) + [UserMessage(old(inputValue)),
             BotMessage(Respond(ToLower(old(inputValue)), budgets, transactions, budgetAlerts, choice))]
        && inputValue == ""
    {
      // The guard `!inputValue.trim()`, stated as IsBlank (see TrimEmptyIffBlank).
      if !IsBlank(inputValue) {
        var userMessage := UserMessage(inputValue);
        var userQuery := ToLower(inputValue);
        var reply := Respond(userQuery, budgets, transactions, budgetAlerts, choice);
        var log := messages + [userMessage, BotMessage(reply)];
        ExchangeKeepsValid(messages, processed, inputValue, reply);
        messages, inputValue := log, "";
      }
    }
  }
}
