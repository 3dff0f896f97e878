/**
 * The alert rules evaluated when an ordinary expense is added, the alerts the
 * other operations raise, and the catalog of micro-saving tips.
 *
 * Every rule reads the engine's values from BEFORE the call: the handler
 * closes over the state of the render it was created in, so `expenses`,
 * `todaySpending` and the derived totals are the pre-call ones, and the new
 * record is not part of the trend window or of the runway average.
 */
module Rules {
  import opened Allocation
  import opened Ledger

  /**
   * Days to exhaustion as the runway alert shows them. A zero average makes
   * the source divide by zero, which gives an infinity of the remaining
   * budget's sign, or not-a-number for a zero remaining budget.
   */
  datatype DaysLeft = Days(count: int) | PlusInfinity | MinusInfinity | NotANumber

  /** An alert, by kind and with the values its message shows. */
  datatype Alert =
    | EmotionalPurchase
    | DailyLimitExceeded(spentToday: int, limit: int)
    | RisingTrend
    | RunwayWarning(daysLeft: DaysLeft)
    | StreakReward(streak: int)
    | EmergencyDeducted(amount: int)
    | SavingTip(suggestion: string)

  /** The fixed catalog the micro-saving tip is drawn from. */
  const TipCatalog: seq<string> := [
    "Save ₹20 this week by reducing coffee purchases",
    "You can save ₹50 by reducing 10% spending",
    "Skip one meal out and save ₹100 this week",
    "Cut entertainment by 20% to save ₹30",
    "Track snacks – you could save ₹15 daily"
  ]

  /** The catalog holds five distinct suggestions, one for each index the tip handler can draw. */
  lemma TipCatalogEntries()
    ensures |TipCatalog| == 5
    ensures forall i, j :: 0 <= i < j < |TipCatalog| ==> TipCatalog[i] != TipCatalog[j]
  {
  }

  /** Rule 1: a stressed or sad purchase outside study and medicine. */
  predicate EmotionalRule(mood: Mood, category: Category)
  {
    (mood == Stressed || mood == Sad) && category != Study && category != Medicine
  }

  /** Rule 2: the pre-call spend of today plus the new amount exceeds the daily limit. */
  predicate LimitRule(todaySpending: int, amount: int, dailyLimit: int)
  {
    todaySpending + amount > dailyLimit
  }

  /** Rule 3: the last two prior records and the new amount rise strictly. */
  predicate TrendRule(prior: seq<Expense>, amount: int)
  {
    |prior| >= 2 && prior[|prior| - 2].amount < prior[|prior| - 1].amount < amount
  }

  /** `30 - Math.ceil(n / 3)`, with n the prior record count. */
  function DaysRemaining(count: nat): (d: int)
    ensures d <= 30 && 3 * (30 - d) - 3 < count <= 3 * (30 - d)
  {
    30 - CeilDiv(count, 3)
  }

  /** `Math.max(1, n)`. */
  function AtLeastOne(count: nat): (m: int)
    ensures m >= 1 && (count > 0 ==> m == count)
    ensures count == 0 ==> m == 1
  {
    if count == 0 then 1 else count
  }

  /** `totalSpending / Math.max(1, n)` as an exact real: the reference the integer forms below agree with. */
  function AvgDaily(count: nat, total: int): real
  {
    total as real / AtLeastOne(count) as real
  }

  /**
   * Rule 4: at the prior average spend per record, the days left would cost
   * more than the remaining budget. Stated with both sides multiplied by
   * `max(1, n)`, so no division is needed; `RunwayMatchesRealAverage` shows
   * it is the comparison on the exact average.
   */
  predicate RunwayRule(count: nat, total: int, remaining: int)
  {
    total * DaysRemaining(count) > remaining * AtLeastOne(count)
  }

  /**
   * `Math.ceil(remainingBudget / avgDaily)`, in integers: the ceiling of
   * `remaining * max(1, n) / total`, and the division-by-zero outcomes for a
   * zero total.
   */
  function DaysToExhaustion(count: nat, total: int, remaining: int): DaysLeft
  {
    if total != 0 then Days(CeilDiv(remaining * AtLeastOne(count), total))
    else if remaining > 0 then PlusInfinity
    else if remaining < 0 then MinusInfinity
    else NotANumber
  }

  /** The alert each rule emits, in the order the rules run. */
  function RuleRank(a: Alert): nat
  {
    match a
    case EmotionalPurchase => 0
    case DailyLimitExceeded(_, _) => 1
    case RisingTrend => 2
    case RunwayWarning(_) => 3
    case _ => 4
  }

  /**
   * What the four rules decided about a new expense, with the figures the
   * limit and runway alerts show.
   */
  datatype Verdicts = Verdicts(
    emotional: bool,
    overLimit: bool,
    rising: bool,
    shortRunway: bool,
    spentToday: int,
    dailyLimit: int,
    daysLeft: DaysLeft)

  /**
   * The four rules run on a new expense of `amount`, given the pre-call daily
   * spend, daily limit, ledger and usable amount.
   */
  function Evaluate(amount: int, category: Category, mood: Mood, todaySpending: int,
                    dailyLimit: int, prior: seq<Expense>, usable: int): Verdicts
  {
    var total := Total(prior);
    Verdicts(
      EmotionalRule(mood, category),
      LimitRule(todaySpending, amount, dailyLimit),
      TrendRule(prior, amount),
      RunwayRule(|prior|, total, usable - total),
      todaySpending + amount,
      dailyLimit,
      DaysToExhaustion(|prior|, total, usable - total))
  }

  /** The alert `a` if its rule fires, nothing otherwise. */
  function Emit(fires: bool, a: Alert): (r: seq<Alert>)
    ensures |r| <= 1 && forall x :: x in r <==> fires && x == a
  {
    if fires then [a] else []
  }

  /** The alerts the verdicts call for, in the order the rules run. */
  function RuleAlerts(v: Verdicts): seq<Alert>
  {
    Emit(v.emotional, EmotionalPurchase)
      + Emit(v.overLimit, DailyLimitExceeded(v.spentToday, v.dailyLimit))
      + Emit(v.rising, RisingTrend)
      + Emit(v.shortRunway, RunwayWarning(v.daysLeft))
  }

  /**
   * The rule alerts come in rule order, and each is one of the four alerts
   * with the figures the verdicts carry.
   */
  lemma RuleAlertsShape(v: Verdicts)
    ensures Ranked(RuleAlerts(v))
    ensures forall a :: a in RuleAlerts(v) ==>
      || a == EmotionalPurchase
      || a == DailyLimitExceeded(v.spentToday, v.dailyLimit)
      || a == RisingTrend
      || a == RunwayWarning(v.daysLeft)
  {
    var first := Emit(v.emotional, EmotionalPurchase);
    var second := Emit(v.overLimit, DailyLimitExceeded(v.spentToday, v.dailyLimit));
    var third := Emit(v.rising, RisingTrend);
    var fourth := Emit(v.shortRunway, RunwayWarning(v.daysLeft));
    RankedParts(first, second, third, fourth);
    MembersOfParts(first, second, third, fourth);
  }

  /** Each of the four alerts is among the rule alerts exactly when its rule fired. */
  lemma RuleAlertsFire(v: Verdicts)
    ensures EmotionalPurchase in RuleAlerts(v) <==> v.emotional
    ensures DailyLimitExceeded(v.spentToday, v.dailyLimit) in RuleAlerts(v) <==> v.overLimit
    ensures RisingTrend in RuleAlerts(v) <==> v.rising
    ensures RunwayWarning(v.daysLeft) in RuleAlerts(v) <==> v.shortRunway
  {
    MembersOfParts(Emit(v.emotional, EmotionalPurchase),
                   Emit(v.overLimit, DailyLimitExceeded(v.spentToday, v.dailyLimit)),
                   Emit(v.rising, RisingTrend),
                   Emit(v.shortRunway, RunwayWarning(v.daysLeft)));
  }

  /**
   * The trend rule looks at the last two prior records only (`slice(-2)`):
   * records before them do not matter, and it never fires on fewer than two.
   */
  lemma TrendWindow(older: seq<Expense>, recent: seq<Expense>, amount: int)
    requires |recent| == 2
    ensures TrendRule(older + recent, amount) <==> recent[0].amount < recent[1].amount < amount
    ensures forall prior :: |prior| < 2 ==> !TrendRule(prior, amount)
  {
    var s := older + recent;
    assert s[|s| - 2] == recent[0] && s[|s| - 1] == recent[1];
  }

  /**
   * The limit alert and the streak step exclude each other: the limit rule
   * fires exactly when the in-budget test that gates the streak fails.
   */
  lemma LimitExcludesStreak(amount: int, category: Category, mood: Mood, todaySpending: int,
                            dailyLimit: int, prior: seq<Expense>, usable: int)
    ensures Evaluate(amount, category, mood, todaySpending, dailyLimit, prior, usable).overLimit
            <==> !(todaySpending + amount <= dailyLimit)
  {
  }

  /** Four lists of at most one alert, of ranks 0 to 3 in turn, concatenate to a ranked list. */
  lemma RankedParts(first: seq<Alert>, second: seq<Alert>, third: seq<Alert>, fourth: seq<Alert>)
    requires |first| <= 1 && forall i :: 0 <= i < |first| ==> RuleRank(first[i]) == 0
    requires |second| <= 1 && forall i :: 0 <= i < |second| ==> RuleRank(second[i]) == 1
    requires |third| <= 1 && forall i :: 0 <= i < |third| ==> RuleRank(third[i]) == 2
    requires |fourth| <= 1 && forall i :: 0 <= i < |fourth| ==> RuleRank(fourth[i]) == 3
    ensures Ranked(first + second + third + fourth)
  {
    RankedAppend(first, second, 1);
    RankedAppend(first + second, third, 2);
    RankedAppend(first + second + third, fourth, 3);
  }

  /** An alert is in a concatenation of four lists iff it is in one of them. */
  lemma MembersOfParts(first: seq<Alert>, second: seq<Alert>, third: seq<Alert>, fourth: seq<Alert>)
    ensures forall a :: a in first + second + third + fourth <==>
      a in first || a in second || a in third || a in fourth
  {
  }

  /** The alerts of a list come in strictly increasing rule order. */
  predicate Ranked(r: seq<Alert>)
  {
    forall i, j :: 0 <= i < j < |r| ==> RuleRank(r[i]) < RuleRank(r[j])
  }

  /** Appending at most one alert of rank `k` after alerts of lower ranks keeps the order. */
  lemma RankedAppend(a: seq<Alert>, b: seq<Alert>, k: nat)
    requires Ranked(a) && forall i :: 0 <= i < |a| ==> RuleRank(a[i]) < k
    requires |b| <= 1 && forall i :: 0 <= i < |b| ==> RuleRank(b[i]) == k
    ensures Ranked(a + b) && forall i :: 0 <= i < |a + b| ==> RuleRank((a + b)[i]) <= k
  {
  }

  /**
   * The runway rule is the comparison the source makes on the average:
   * `avgDaily * daysRemaining > remainingBudget`, with exact reals.
   */
  lemma RunwayMatchesRealAverage(count: nat, total: int, remaining: int)
    ensures RunwayRule(count, total, remaining)
            <==> AvgDaily(count, total) * DaysRemaining(count) as real > remaining as real
  {
    var m, d := AtLeastOne(count), DaysRemaining(count);
    ProductAsReal(total, d);
    ProductAsReal(remaining, m);
    CrossMultiply(total as real, d as real, remaining as real, m as real);
  }

  /** Casting a product to a real is multiplying the casts. */
  lemma ProductAsReal(a: int, b: int)
    ensures (a * b) as real == a as real * b as real
  {
  }

  /** For a positive divisor, `t / m * d > r` is `t * d > r * m`. */
  lemma CrossMultiply(t: real, d: real, r: real, m: real)
    requires m > 0.0
    ensures t / m * d > r <==> t * d > r * m
  {
    assert t / m * d * m == t * d;
    ScaleByPositive(t / m * d, r, m);
  }

  /** Multiplying both sides by a positive real keeps a strict comparison. */
  lemma ScaleByPositive(x: real, y: real, m: real)
    requires m > 0.0
    ensures x > y <==> x * m > y * m
  {
    assert x * m - y * m == (x - y) * m;
  }

  /**
   * The days figure is the ceiling of the remaining budget over the exact
   * average, whenever that average is not zero.
   */
  lemma DaysToExhaustionMatchesRealAverage(count: nat, total: int, remaining: int)
    requires total != 0
    ensures DaysToExhaustion(count, total, remaining)
            == Days(CeilReal(remaining as real / AvgDaily(count, total)))
  {
    var m := AtLeastOne(count) as real;
    var avg := AvgDaily(count, total);
    assert avg == total as real / m;
    assert remaining as real / avg == (remaining * AtLeastOne(count)) as real / total as real;
    CeilDivIsRealCeil(remaining * AtLeastOne(count), total);
  }

  /** The runway alert never fires on the first expense while the usable amount is not negative. */
  lemma RunwayQuietOnEmptyLedger(usable: int)
    requires usable >= 0
    ensures !RunwayRule(0, Total([]), usable - Total([]))
  {
  }

  /**
   * When the runway rule fires on a ledger with nothing spent, the remaining
   * budget is negative and the alert shows minus infinity.
   */
  lemma RunwayOnZeroTotal(count: nat, remaining: int)
    requires RunwayRule(count, 0, remaining)
    ensures remaining < 0 && DaysToExhaustion(count, 0, remaining) == MinusInfinity
  {
  }

  /**
   * Builds the alert list of the four rules by successive pushes, as the
   * handler does with its local `newAlerts`.
   */
  method CollectRuleAlerts(amount: int, category: Category, mood: Mood, todaySpending: int,
                           dailyLimit: int, prior: seq<Expense>, usable: int) returns (newAlerts: seq<Alert>)
    ensures newAlerts == RuleAlerts(Evaluate(amount, category, mood, todaySpending, dailyLimit, prior, usable))
  {
    var total := Total(prior);
    ghost var v := Evaluate(amount, category, mood, todaySpending, dailyLimit, prior, usable);
    newAlerts := [];
    if EmotionalRule(mood, category) {
      newAlerts := newAlerts + [EmotionalPurchase];
    }
    ghost var expected := Emit(v.emotional, EmotionalPurchase);
    assert newAlerts == expected;
    if LimitRule(todaySpending, amount, dailyLimit) {
      newAlerts := newAlerts + [DailyLimitExceeded(todaySpending + amount, dailyLimit)];
    }
    expected := expected + Emit(v.overLimit, DailyLimitExceeded(v.spentToday, v.dailyLimit));
    assert newAlerts == expected;
    if TrendRule(prior, amount) {
      newAlerts := newAlerts + [RisingTrend];
    }
    expected := expected + Emit(v.rising, RisingTrend);
    assert newAlerts == expected;
    if RunwayRule(|prior|, total, usable - total) {
      newAlerts := newAlerts + [RunwayWarning(DaysToExhaustion(|prior|, total, usable - total))];
    }
    expected := expected + Emit(v.shortRunway, RunwayWarning(v.daysLeft));
    assert newAlerts == expected;
  }
}
