/**
 * Short sessions against the engine, from a freshly created component, and
 * what the handlers' contracts say they end in. The lemmas evaluate the four
 * rules on the ledgers these sessions reach.
 */
module Scenarios {
  import opened Allocation
  import opened Ledger
  import opened Rules
  import opened Engine

  /** An ordinary neutral food record of the given amount, as the expense form stores it. */
  function Meal(amount: int): Expense
  {
    Expense(amount, Food, Neutral, "Mon", false)
  }

  /**
   * On the initial state, an expense within the daily limit can raise only the
   * emotional alert, and raises it exactly when the emotional rule fires.
   */
  lemma FirstExpenseAlerts(amount: int, category: Category, mood: Mood)
    requires amount <= 150
    ensures RuleAlerts(Evaluate(amount, category, mood, 0, 150, [], 4500))
            == if EmotionalRule(mood, category) then [EmotionalPurchase] else []
  {
  }

  /** After a record of 10, a second neutral expense of 20 raises no rule alert. */
  lemma QuietSecondExpense()
    ensures RuleAlerts(Evaluate(20, Food, Neutral, 10, 150, [Meal(10)], 4500)) == []
  {
    assert Total([Meal(10)]) == 10;
  }

  /** After records of 10 and 20, a third expense of 30 fires the trend rule and nothing else. */
  lemma TrendOnThirdRise()
    ensures RuleAlerts(Evaluate(30, Food, Neutral, 30, 150, [Meal(10), Meal(20)], 4500)) == [RisingTrend]
  {
    assert Total([Meal(10), Meal(20)]) == 30 by {
      assert [Meal(10), Meal(20)][..1] == [Meal(10)];
    }
  }

  /** After records of 10 and 20, a third expense of 200 fires the limit and the trend rule. */
  lemma LimitAndTrendOnThirdRise()
    ensures RuleAlerts(Evaluate(200, Food, Neutral, 30, 150, [Meal(10), Meal(20)], 4500))
            == [DailyLimitExceeded(230, 150), RisingTrend]
  {
    assert Total([Meal(10), Meal(20)]) == 30 by {
      assert [Meal(10), Meal(20)][..1] == [Meal(10)];
    }
  }

  /**
   * After one emergency record of 1000, an ordinary expense of 100 fires only
   * the runway rule: at 1000 per record, the remaining 3500 lasts 4 days.
   */
  lemma RunwayAfterEmergency()
    ensures RuleAlerts(Evaluate(100, Food, Neutral, 0, 150, [Expense(1000, Emergency, Neutral, "Mon", true)], 4500))
            == [RunwayWarning(Days(4))]
  {
    assert Total([Expense(1000, Emergency, Neutral, "Mon", true)]) == 1000;
    assert CeilDiv(3500, 1000) == 4;
  }

  /** A budget of 999 is split 99 / 899 with a daily limit of 29; the ledger is untouched. */
  method OddBudgetSplit() returns (savings: int, usable: int, limit: int, records: nat)
    ensures savings == 99 && usable == 899 && limit == 29 && records == 0
  {
    var g := new PocketGuard();
    g.SetBudget(999);
    savings, usable, limit, records := g.savings, g.usable, g.DailyLimit(), |g.expenses|;
  }

  /** Two rising in-budget expenses of 10 and 20 on a fresh engine: no alert yet, a 2-day streak. */
  method TwoRisingExpenses() returns (g: PocketGuard)
    ensures fresh(g) && g.Valid()
    ensures g.expenses == [Meal(10), Meal(20)] && g.todaySpending == 30
    ensures g.alerts == [] && g.consecutiveDays == 2 && g.rewards == 0
    ensures g.usable == 4500 && g.DailyLimit() == 150
  {
    g := OneExpense();
    QuietSecondExpense();
    var status := g.AddExpense(20, Food, Neutral, "Mon");
  }

  /** One in-budget expense of 10 on a fresh engine: no alert, a 1-day streak. */
  method OneExpense() returns (g: PocketGuard)
    ensures fresh(g) && g.Valid()
    ensures g.expenses == [Meal(10)] && g.todaySpending == 10
    ensures g.alerts == [] && g.consecutiveDays == 1 && g.rewards == 0
    ensures g.usable == 4500 && g.DailyLimit() == 150
  {
    g := new PocketGuard();
    FirstExpenseAlerts(10, Food, Neutral);
    var status := g.AddExpense(10, Food, Neutral, "Mon");
  }

  /**
   * Three rising in-budget expenses of 10, 20 and 30: the trend rule fires on
   * the third, but that expense also completes a 3-day streak, and the reward
   * replaces the queued list, so only the reward message is shown.
   */
  method RisingInBudgetExpenses() returns (trendFired: bool, shown: seq<Alert>, points: int)
    ensures trendFired
    ensures shown == [StreakReward(3)] && points == 10
    ensures RisingTrend !in shown
  {
    var g := TwoRisingExpenses();
    TrendOnThirdRise();
    trendFired := RisingTrend in RuleAlerts(Evaluate(30, Food, Neutral, g.todaySpending, g.DailyLimit(), g.expenses, g.usable));
    var status := g.AddExpense(30, Food, Neutral, "Mon");
    shown, points := g.alerts, g.rewards;
  }

  /**
   * Rising expenses of 10, 20 and 200: the third breaks the daily limit of
   * 150, so there is no streak step and both the limit and the trend alert
   * are shown, in that order.
   */
  method RisingExpensesOverLimit() returns (shown: seq<Alert>, streak: int)
    ensures shown == [DailyLimitExceeded(230, 150), RisingTrend]
    ensures streak == 2
  {
    var g := TwoRisingExpenses();
    LimitAndTrendOnThirdRise();
    var status := g.AddExpense(200, Food, Neutral, "Mon");
    shown, streak := g.alerts, g.consecutiveDays;
  }

  /**
   * An emergency expense of 1000 leaves today's spend at 0 but counts in the
   * total, so the next ordinary expense of 100 is within the daily limit yet
   * raises the runway alert.
   */
  method EmergencyThenExpense() returns (today: int, shown: seq<Alert>, streak: int)
    ensures today == 100 && streak == 1
    ensures shown == [EmergencyDeducted(1000), RunwayWarning(Days(4))]
  {
    var g := new PocketGuard();
    var status := g.AddEmergencyExpense(1000, "Mon");
    RunwayAfterEmergency();
    status := g.AddExpense(100, Food, Neutral, "Mon");
    today, shown, streak := g.todaySpending, g.alerts, g.consecutiveDays;
  }

  /** A stressed food purchase raises the emotional alert; the same purchase for study does not. */
  method StressedPurchases() returns (food: seq<Alert>, study: seq<Alert>)
    ensures food == [EmotionalPurchase] && study == []
  {
    var g := new PocketGuard();
    FirstExpenseAlerts(50, Food, Stressed);
    var status := g.AddExpense(50, Food, Stressed, "Mon");
    food := g.alerts;
    var h := new PocketGuard();
    FirstExpenseAlerts(50, Study, Stressed);
    status := h.AddExpense(50, Study, Stressed, "Mon");
    study := h.alerts;
  }

  /** Clearing the alerts after a tip empties the list; the ledger stays as it was. */
  method TipThenClear() returns (afterTip: seq<Alert>, afterClear: seq<Alert>, records: nat)
    ensures afterTip == [SavingTip("Skip one meal out and save ₹100 this week")]
    ensures afterClear == [] && records == 0
  {
    var g := new PocketGuard();
    g.MicroSavingTip(2);
    afterTip := g.alerts;
    g.ClearAlerts();
    afterClear, records := g.alerts, |g.expenses|;
  }
}
