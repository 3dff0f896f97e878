/**
 * The budget and alert engine: the state the component keeps and the handlers
 * that update it. Each handler is one method; its postcondition is the final
 * state the handler leaves behind once all the updates it queued are applied
 * (later updates of the same field replace earlier ones, and every update is
 * computed from the values the handler saw when it started).
 */
module Engine {
  import opened Allocation
  import opened Ledger
  import opened Rules
  import opened Report

  /** Reward points earned by a streak: 10 for every 3 in-budget expenses. */
  function PointsFor(streak: nat): int
  {
    10 * (streak / 3)
  }

  /** The streak length at which a reward is due: every multiple of 3. */
  predicate RewardDue(streak: nat)
  {
    streak % 3 == 0
  }

  /** Extending the streak by one earns 10 points exactly when a reward is due. */
  lemma StreakEarns(streak: nat)
    ensures PointsFor(streak + 1) == PointsFor(streak) + (if RewardDue(streak + 1) then 10 else 0)
  {
  }

  /** The outcome of an add-expense handler: recorded, or refused for a non-positive amount. */
  datatype Status = Recorded | InvalidAmount

  class PocketGuard {
    var budget: int
    var savings: int
    var usable: int
    var expenses: seq<Expense>
    var todaySpending: int
    var alerts: seq<Alert>
    var rewards: int
    var consecutiveDays: int
    /** Number of records that existed at the last day reset. */
    ghost var dayStart: nat

    /** The object invariant: the three parts below. */
    ghost predicate Valid()
      reads this
    {
      AllocationValid() && LedgerValid() && RewardsValid()
    }

    /** Savings and usable amount are the split of the current budget. */
    ghost predicate AllocationValid()
      reads this`budget, this`savings, this`usable
    {
      savings == Savings(budget) && usable == Usable(budget)
    }

    /**
     * Every stored amount is positive, and today's spend is the non-emergency
     * spending recorded since the last day reset.
     */
    ghost predicate LedgerValid()
      reads this`expenses, this`todaySpending, this`dayStart
    {
      && AllPositive(expenses)
      && dayStart <= |expenses|
      && todaySpending == DailySpend(expenses[dayStart..])
    }

    /** The points are 10 for every completed 3-day streak. */
    ghost predicate RewardsValid()
      reads this`consecutiveDays, this`rewards
    {
      consecutiveDays >= 0 && rewards == PointsFor(consecutiveDays)
    }

    /** `Math.floor(usable / 30)`. */
    function DailyLimit(): int
      reads this
    {
      Allocation.DailyLimit(usable)
    }

    /** The `reduce` over all records. */
    function TotalSpending(): int
      reads this
    {
      Total(expenses)
    }

    function RemainingBudget(): int
      reads this
    {
      usable - TotalSpending()
    }

    /** The initial state: budget 5000 split 500 / 4500, daily limit 150, nothing recorded. */
    constructor ()
      ensures Valid()
      ensures budget == InitialBudget && savings == 500 && usable == 4500 && DailyLimit() == 150
      ensures expenses == [] && todaySpending == 0 && alerts == []
      ensures rewards == 0 && consecutiveDays == 0
    {
      budget, savings, usable := InitialBudget, 500, 4500;
      expenses, todaySpending, alerts := [], 0, [];
      rewards, consecutiveDays := 0, 0;
      dayStart := 0;
    }

    /** The budget field's change handler: no validation, the three figures are replaced together. */
    method SetBudget(val: int)
      requires Valid()
      modifies this`budget, this`savings, this`usable
      ensures Valid()
      ensures budget == val && savings == Savings(val) && usable == Usable(val)
      ensures DailyLimit() == Allocation.DailyLimit(Usable(val))
      ensures expenses == old(expenses) && todaySpending == old(todaySpending) && alerts == old(alerts)
      ensures rewards == old(rewards) && consecutiveDays == old(consecutiveDays)
      ensures dayStart == old(dayStart)
    {
      budget := val;
      savings := val / 10;
      usable := (9 * val) / 10;
    }

    /**
     * Adds an ordinary expense. A non-positive amount is refused and nothing
     * changes. Otherwise the record is appended, today's spend grows by the
     * amount, the four rules run on the pre-call values, and an in-budget
     * expense extends the streak; when the streak reaches a multiple of 3 the
     * reward replaces the alert list queued by the rules, so the list ends as
     * the old alerts plus the reward message only.
     */
    method AddExpense(amount: int, category: Category, mood: Mood, date: string) returns (status: Status)
      requires Valid()
      modifies this`expenses, this`todaySpending, this`alerts, this`consecutiveDays, this`rewards
      ensures Valid()
      ensures status == Recorded <==> amount > 0
      ensures amount <= 0 ==>
        && expenses == old(expenses) && todaySpending == old(todaySpending) && alerts == old(alerts)
        && rewards == old(rewards) && consecutiveDays == old(consecutiveDays)
      ensures budget == old(budget) && savings == old(savings) && usable == old(usable)
      ensures dayStart == old(dayStart)
      ensures amount > 0 ==>
        && expenses == old(expenses) + [Expense(amount, category, mood, date, false)]
        && todaySpending == old(todaySpending) + amount
        && TotalSpending() == old(TotalSpending()) + amount
      ensures amount > 0 ==>
        var inBudget := old(todaySpending) + amount <= old(DailyLimit());
        var streak := old(consecutiveDays) + 1;
        && consecutiveDays == (if inBudget then streak else old(consecutiveDays))
        && rewards == (if inBudget && RewardDue(streak) then old(rewards) + 10 else old(rewards))
        && alerts == (if inBudget && RewardDue(streak) then old(alerts) + [StreakReward(streak)]
                      else old(alerts) + RuleAlerts(Evaluate(amount, category, mood, old(todaySpending),
                                                             old(DailyLimit()), old(expenses), usable)))
      // the limit alert and the streak step exclude each other
      ensures amount > 0 && consecutiveDays > old(consecutiveDays) ==>
        DailyLimitExceeded(old(todaySpending) + amount, old(DailyLimit())) !in alerts[|old(alerts)|..]
    {
      if amount <= 0 {
        return InvalidAmount;
      }
      status := Recorded;
      ghost var verdicts := Evaluate(amount, category, mood, todaySpending, DailyLimit(), expenses, usable);
      ghost var alertsBefore, streakBefore := alerts, consecutiveDays;
      TotalAppend(expenses, Expense(amount, category, mood, date, false));
      RecordExpense(amount, category, mood, date);
      if consecutiveDays > streakBefore {
        // the in-budget test passed, so the limit rule did not fire
        ghost var added := if RewardDue(consecutiveDays) then [StreakReward(consecutiveDays)] else RuleAlerts(verdicts);
        assert alerts == alertsBefore + added;
        assert alerts[|alertsBefore|..] == added;
        RuleAlertsFire(verdicts);
      }
    }

    /** The add-expense handler past its amount check. */
    method RecordExpense(amount: int, category: Category, mood: Mood, date: string)
      requires Valid() && amount > 0
      modifies this`expenses, this`todaySpending, this`alerts, this`consecutiveDays, this`rewards
      ensures Valid()
      ensures expenses == old(expenses) + [Expense(amount, category, mood, date, false)]
      ensures todaySpending == old(todaySpending) + amount
      ensures var inBudget := old(todaySpending) + amount <= old(DailyLimit());
        var streak := old(consecutiveDays) + 1;
        && consecutiveDays == (if inBudget then streak else old(consecutiveDays))
        && rewards == (if inBudget && RewardDue(streak) then old(rewards) + 10 else old(rewards))
        && alerts == (if inBudget && RewardDue(streak) then old(alerts) + [StreakReward(streak)]
                      else old(alerts) + RuleAlerts(Evaluate(amount, category, mood, old(todaySpending),
                                                             old(DailyLimit()), old(expenses), usable)))
    {
      // every rule reads the state as it was before the call
      var newAlerts := CollectRuleAlerts(amount, category, mood, todaySpending, DailyLimit(), expenses, usable);
      var inBudget := todaySpending + amount <= DailyLimit();
      AppendRecord(amount, category, mood, date);
      StreakStep(inBudget, newAlerts);
    }

    /** Appends an ordinary record and adds its amount to today's spend. */
    method AppendRecord(amount: int, category: Category, mood: Mood, date: string)
      requires Valid() && amount > 0
      modifies this`expenses, this`todaySpending
      ensures Valid()
      ensures expenses == old(expenses) + [Expense(amount, category, mood, date, false)]
      ensures todaySpending == old(todaySpending) + amount
    {
      var record := Expense(amount, category, mood, date, false);
      AppendSinceDayStart(expenses, dayStart, record);
      expenses := expenses + [record];
      todaySpending := todaySpending + amount;
    }

    /**
     * The end of the add-expense handler: queue the rule alerts, then, for an
     * in-budget expense, extend the streak and on every third day replace the
     * queued list by the old alerts plus the reward message.
     */
    method StreakStep(inBudget: bool, ruleAlerts: seq<Alert>)
      requires Valid()
      modifies this`alerts, this`consecutiveDays, this`rewards
      ensures Valid()
      ensures var streak := old(consecutiveDays) + 1;
        && consecutiveDays == (if inBudget then streak else old(consecutiveDays))
        && rewards == (if inBudget && RewardDue(streak) then old(rewards) + 10 else old(rewards))
        && alerts == (if inBudget && RewardDue(streak) then old(alerts) + [StreakReward(streak)]
                      else old(alerts) + ruleAlerts)
    {
      var alertsBefore, streak, points := alerts, consecutiveDays, rewards;
      if |ruleAlerts| > 0 {
        alerts := alertsBefore + ruleAlerts;
      }
      if inBudget {
        consecutiveDays := streak + 1;
        StreakEarns(streak);
        if RewardDue(streak + 1) {
          rewards := points + 10;
          alerts := alertsBefore + [StreakReward(streak + 1)];
        }
      }
    }

    /**
     * Adds an emergency expense: refused for a non-positive amount; otherwise
     * appended as an emergency record with neutral mood, counted in the total
     * but not in today's spend, with one informational alert and no rule,
     * streak or reward step.
     */
    method AddEmergencyExpense(amount: int, date: string) returns (status: Status)
      requires Valid()
      modifies this`expenses, this`alerts
      ensures Valid()
      ensures status == Recorded <==> amount > 0
      ensures todaySpending == old(todaySpending)
      ensures rewards == old(rewards) && consecutiveDays == old(consecutiveDays)
      ensures budget == old(budget) && savings == old(savings) && usable == old(usable)
      ensures dayStart == old(dayStart)
      ensures amount <= 0 ==> expenses == old(expenses) && alerts == old(alerts)
      ensures amount > 0 ==>
        && expenses == old(expenses) + [Expense(amount, Emergency, Neutral, date, true)]
        && TotalSpending() == old(TotalSpending()) + amount
        && alerts == old(alerts) + [EmergencyDeducted(amount)]
    {
      if amount <= 0 {
        return InvalidAmount;
      }
      status := Recorded;
      TotalAppend(expenses, Expense(amount, Emergency, Neutral, date, true));
      AppendEmergencyRecord(amount, date);
      alerts := alerts + [EmergencyDeducted(amount)];
    }

    /** Appends an emergency record; today's spend is left as it is. */
    method AppendEmergencyRecord(amount: int, date: string)
      requires Valid() && amount > 0
      modifies this`expenses
      ensures Valid()
      ensures expenses == old(expenses) + [Expense(amount, Emergency, Neutral, date, true)]
    {
      var record := Expense(amount, Emergency, Neutral, date, true);
      AppendSinceDayStart(expenses, dayStart, record);
      expenses := expenses + [record];
    }

    /** Appends the catalog's suggestion number `choice` as a tip alert. */
    method MicroSavingTip(choice: nat)
      requires Valid()
      requires choice < |TipCatalog|
      modifies this`alerts
      ensures Valid()
      ensures alerts == old(alerts) + [SavingTip(TipCatalog[choice])]
    {
      alerts := alerts + [SavingTip(TipCatalog[choice])];
    }

    /** The daily timer's callback: today's spend goes back to 0 and nothing else changes. */
    method ResetToday()
      requires Valid()
      modifies this`todaySpending, this`dayStart
      ensures Valid()
      ensures todaySpending == 0
      ensures dayStart == |expenses|
    {
      todaySpending := 0;
      dayStart := |expenses|;
      assert expenses[dayStart..] == [];
    }

    /** The Clear Alerts button. */
    method ClearAlerts()
      requires Valid()
      modifies this`alerts
      ensures Valid()
      ensures alerts == []
    {
      alerts := [];
    }

    /** The report card of the current state; reading it changes nothing. */
    function ReportCard(): (r: Report.ReportCard)
      reads this
      ensures r.totalSpending == TotalSpending() && r.remainingBudget == RemainingBudget()
      ensures r.totalSavings == savings + RemainingBudget() && r.rewardPoints == rewards
      ensures r.onTrack <==> RemainingBudget() > 0
    {
      Generate(savings, usable, rewards, expenses)
    }

    /** What the invariant gives a reader of the state: the reward and spending figures are consistent. */
    lemma StateBounds()
      requires Valid()
      ensures rewards >= 0 && rewards % 10 == 0 && rewards == 10 * (consecutiveDays / 3)
      ensures 0 <= todaySpending <= TotalSpending()
      ensures TotalSpending() >= |expenses|
      ensures RemainingBudget() <= usable
    {
      DailySpendWithinTotal(expenses, dayStart);
      TotalAtLeastCount(expenses);
    }
  }
}
