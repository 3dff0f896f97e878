# PocketGuard budget and alert engine in Dafny

PocketGuard is a single-page finance assistant for students. Its `App`
component holds a monthly budget and an expense ledger, and it raises alerts
as expenses are added. This project models that engine:
- the budget split into an auto-saved tenth, a usable nine tenths and a safe
  daily limit;
- the ledger and the totals derived from it;
- the add-expense handler with its four alert rules (emotional purchase,
  daily limit, rising trend, budget runway) and its 3-day reward streak;
- the emergency-expense handler, the micro-saving tip, the daily reset and
  Clear Alerts;
- the figures of the monthly report card.

Modules:

- `Allocation`: the budget split and the integer rounding helpers (floor,
  ceiling), with lemmas that they agree with the exact-real `Math.floor` and
  `Math.ceil`.
- `Ledger`: expense records, total spending, spending per category, spending
  counted against today's limit, and the report's category table.
- `Rules`: the four rules, the alert values, and the tip catalog. `Evaluate`
  runs the rules on the values the handler closes over. `RuleAlerts` lists the
  alerts the verdicts call for, in rule order. `CollectRuleAlerts` builds the
  same list by successive pushes, as the handler does.
- `Report`: the report card's figures.
- `Engine`: the class `PocketGuard`, whose fields are the component's state
  and whose methods are its handlers. A handler's postcondition is the state
  after React applies every update the handler queued.
- `Scenarios`: short sessions from a fresh engine, with the alert lists they
  end in.

Two behaviours of the code are modelled as written:

- Every rule reads the state from before the call. The new record is not part
  of the trend window or of the runway average, and the daily-limit check uses
  the pre-call spend plus the new amount.
- When an in-budget expense completes a multiple-of-3 streak, the reward
  message replaces the rule alerts queued by the same call: both updates start
  from the old alert list, and the later one wins, so the list ends as the old alerts plus the reward
  message. From a fresh engine, the
  expenses 10, 20 and 30 do trip the rising-trend rule on the third call, but
  only the reward message is shown (`Scenarios.RisingInBudgetExpenses`).

Two further behaviours of the code:

- A budget change is not validated. Any number, including a negative one, is
  split. With a negative budget the daily limit is negative, and the report's
  overspending figure is then 0 for any non-negative spending.
- An emergency record is part of the total spending and of later trend and
  runway windows, but never of today's spend.

Fractional arithmetic is exact:
- The budget split is an integer floor division. `AllocationIsRealFloor`
  proves it equals the floor of the exact real product.
- The runway comparison `avgDaily * daysRemaining > remainingBudget` is stated
  in integers, multiplied through by `max(1, n)`.
  `RunwayMatchesRealAverage` proves this is the comparison on the exact real
  average.
- The days figure is the integer ceiling of `remaining * max(1, n) / total`.
  `DaysToExhaustionMatchesRealAverage` proves it equals the ceiling of the
  real quotient.

## Model

| member | source | states |
|---|---|---|
| `Allocation.Savings` | public/src/src/App.js:25 | the auto-saved amount `s` satisfies `10*s <= budget < 10*s + 10`, i.e. it is the budget's tenth rounded down |
| `Allocation.Usable` | public/src/src/App.js:26 | the usable amount is nine tenths of the budget rounded down, and savings plus usable lose at most one unit of the budget |
| `Allocation.DailyLimit` | public/src/src/App.js:18 | the daily limit `d` satisfies `30*d <= usable < 30*d + 30`, and is not negative for a non-negative usable amount |
| `Allocation.AllocationIsRealFloor` | public/src/src/App.js:18-26 | the integer split equals `Math.floor(val * 0.1)`, `Math.floor(val * 0.9)` and `Math.floor(usable / 30)` over exact reals |
| `Allocation.CeilDiv` | public/src/src/App.js:60 | the result is the ceiling of `a / b` for either sign of a non-zero divisor |
| `Allocation.CeilReal` | public/src/src/App.js:63 | the result is the least integer not below `x` (`Math.ceil`) |
| `Allocation.CeilDivIsRealCeil` | public/src/src/App.js:60-63 | the integer ceiling equals the ceiling of the exact real quotient for every non-zero divisor |
| `Ledger.Total` | public/src/src/App.js:19 | `totalSpending`: the left-to-right `reduce` sum of every amount, emergency records included; its properties are the lemmas below |
| `Ledger.CategoryTotals` | public/src/src/App.js:114-117 | the report's category table, built record by record as `(categories[c] \|\| 0) + amount`; what it holds is `Ledger.CategoryTotalsSpec` |
| `Ledger.TotalAppend` | public/src/src/App.js:19 | appending a record adds its amount to total spending |
| `Ledger.DailySpend` | public/src/src/App.js:40 | what `todaySpending` counts: the sum of the non-emergency amounts of a stretch of the ledger (App.js:89 leaves emergency records out) |
| `Ledger.Lookup` | public/src/src/App.js:116 | `categories[c] \|\| 0`: the stored entry, or 0 for a category with no entry |
| `Ledger.DailySpendAppend` | public/src/src/App.js:40 | appending a record adds its amount to today's spend unless it is an emergency record |
| `Ledger.AppendSinceDayStart` | public/src/src/App.js:39-40 | after a day boundary, appending keeps all amounts positive and grows the spend since the boundary by the amount, or by nothing for an emergency record |
| `Ledger.TotalAtLeastCount` | public/src/src/App.js:19 | with positive amounts, total spending is at least the number of records |
| `Ledger.DailySpendWithinTotal` | public/src/src/App.js:40 | the non-emergency spend since any day boundary lies between 0 and total spending |
| `Ledger.CategoryTotalsSpec` | public/src/src/App.js:114-117 | the category table has an entry exactly for the categories that have a record, and each entry is that category's spending |
| `Ledger.TallyCategories` | public/src/src/App.js:114-117 | the `forEach` fill of the table, one record at a time, produces the category table |
| `Ledger.CategorySpendsSumToTotal` | public/src/src/App.js:115-117 | the per-category spends add up to total spending: every record lands in exactly one category |
| `Ledger.SpendOverAppend` | public/src/src/App.js:116 | a new record adds its amount once for every occurrence of its category in the category list |
| `Ledger.EachCategoryOnce` | public/src/src/App.js:197-205 | the category list (the seven form options plus the emergency category) names every category exactly once |
| `Rules.EmotionalRule` | public/src/src/App.js:45-46 | the emotional rule: the mood is stressed or sad and the category is neither study nor medicine |
| `Rules.LimitRule` | public/src/src/App.js:51 | the limit rule: the pre-call spend of today plus the new amount exceeds the daily limit |
| `Rules.LimitExcludesStreak` | public/src/src/App.js:51-70 | the limit verdict of `Evaluate` is the negation of the in-budget test that gates the streak step; `Engine.PocketGuard.AddExpense` draws the handler-level consequence |
| `Rules.TrendRule` | public/src/src/App.js:55-56 | the trend rule: the last two prior records and the new amount rise strictly |
| `Rules.TrendWindow` | public/src/src/App.js:55-56 | only the last two prior records decide the trend rule (`slice(-2)`), and it never fires with fewer than two prior records |
| `Rules.DaysRemaining` | public/src/src/App.js:60 | `30 - Math.ceil(n / 3)`: at most 30, and `30 - d` is the least whole number of thirds covering the record count |
| `Rules.RunwayRule` | public/src/src/App.js:60-62 | the runway rule, cross-multiplied by `max(1, n)`; `Rules.RunwayMatchesRealAverage` proves it is the comparison on the exact average |
| `Rules.DaysToExhaustion` | public/src/src/App.js:63 | the days figure: the integer ceiling of `remaining * max(1, n) / total`, or plus infinity, minus infinity or not-a-number for a zero total by the remaining budget's sign; `Rules.DaysToExhaustionMatchesRealAverage` proves the first case |
| `Rules.Evaluate` | public/src/src/App.js:43-64 | the four rules run on the pre-call values, with the spend and limit the limit alert shows and the days figure the runway alert shows |
| `Rules.RuleAlerts` | public/src/src/App.js:43-64 | the alerts the verdicts call for; `Rules.RuleAlertsShape` and `Rules.RuleAlertsFire` state what the list holds |
| `Rules.AvgDaily` | public/src/src/App.js:61 | `avgDaily`: total spending over `max(1, n)` as an exact real, the reference the integer runway rule and days figure are proved against |
| `Rules.TipCatalogEntries` | public/src/src/App.js:95-101 | the tip catalog holds five distinct suggestions, so each index in [0, 5) names one |
| `Rules.AtLeastOne` | public/src/src/App.js:61 | `Math.max(1, n)`: 1 for no records, n otherwise, and never below 1 |
| `Rules.RuleAlertsShape` | public/src/src/App.js:43-64 | the alert list is in rule order (emotional, limit, trend, runway), and each alert carries the figures of its rule |
| `Rules.RuleAlertsFire` | public/src/src/App.js:45-64 | each of the four alerts is in the list exactly when its rule's condition holds |
| `Rules.CollectRuleAlerts` | public/src/src/App.js:43-64 | the four conditional pushes onto `newAlerts` produce the rule alerts for the pre-call values |
| `Rules.RunwayMatchesRealAverage` | public/src/src/App.js:60-62 | the integer runway rule holds exactly when `avgDaily * daysRemaining > remainingBudget` over exact reals |
| `Rules.DaysToExhaustionMatchesRealAverage` | public/src/src/App.js:61-63 | when spending is not zero, the days figure is `Math.ceil(remainingBudget / avgDaily)` over exact reals |
| `Rules.RunwayOnZeroTotal` | public/src/src/App.js:61-63 | with nothing spent, the runway alert fires only for a negative remaining budget, and then shows minus infinity |
| `Rules.RunwayQuietOnEmptyLedger` | public/src/src/App.js:60-62 | on an empty ledger with a non-negative usable amount, the runway rule does not fire |
| `Rules.Emit` | public/src/src/App.js:45-64 | one rule's contribution holds at most one alert, and holds the alert exactly when the rule fires |
| `Report.Generate` | public/src/src/App.js:113-120 | the report's total, remaining budget, savings (savings plus unspent usable), reward points, overspending days and on-track verdict follow from the state; the category table's keys are the recorded categories, each entry is that category's spending, and the entries sum to total spending |
| `Report.OverspendingDays` | public/src/src/App.js:119 | the overspending figure is never negative; for a positive limit it is positive exactly when spending exceeds 30 days of the limit, and otherwise it is the days of spending beyond 30; a zero limit divides by 1; a negative limit (from an unvalidated negative budget) gives 0 for non-negative spending and otherwise the ceiling of the negative quotient less 30 |
| `Report.TableSumIsSpendOver` | public/src/src/App.js:114-117 | summing the category table over a category list equals summing the per-category spends |
| `Engine.StreakEarns` | public/src/src/App.js:70-75 | extending the streak by one earns 10 points exactly when the new streak is a multiple of 3 |
| `Engine.PointsFor` | public/src/src/App.js:72-73 | the points a streak has earned: 10 for every 3 in-budget expenses; `Engine.StreakEarns` relates it to one streak step |
| `Engine.RewardDue` | public/src/src/App.js:72 | `(consecutiveDays + 1) % 3 === 0` for the extended streak: a reward is due at every multiple of 3 |
| `Engine.PocketGuard.Valid` | public/src/src/App.js:5-20 | the engine's invariant, the conjunction of the three parts below, which every handler keeps |
| `Engine.PocketGuard.AllocationValid` | public/src/src/App.js:22-27 | savings and usable are the split of the current budget (`Savings(budget)`, `Usable(budget)`) |
| `Engine.PocketGuard.LedgerValid` | public/src/src/App.js:39-40 | every stored amount is positive, and today's spend is the non-emergency spending recorded since the last daily reset (App.js:40, 89, 108) |
| `Engine.PocketGuard.RewardsValid` | public/src/src/App.js:70-75 | the streak is not negative and the points are `10 * (consecutiveDays / 3)` |
| `Engine.PocketGuard.DailyLimit` | public/src/src/App.js:18 | the daily limit of the current usable amount |
| `Engine.PocketGuard.TotalSpending` | public/src/src/App.js:19 | total spending of the current ledger |
| `Engine.PocketGuard.RemainingBudget` | public/src/src/App.js:20 | the usable amount less total spending |
| `Engine.PocketGuard.ReportCard` | public/src/src/App.js:113-120 | the report card of the current state: its total, remaining budget, savings, points and on-track verdict are those of the state; the rest is `Report.Generate`'s contract |
| `Engine.PocketGuard.constructor` | public/src/src/App.js:5-13 | the initial state: budget 5000 split 500 / 4500, daily limit 150, no records, no alerts, no points, no streak |
| `Engine.PocketGuard.SetBudget` | public/src/src/App.js:22-27 | the budget is replaced with no validation and savings and usable are its split; the ledger, alerts and rewards are unchanged |
| `Engine.PocketGuard.AddExpense` | public/src/src/App.js:29-77 | a non-positive amount changes nothing; otherwise the record is appended, today's spend grows, an in-budget expense extends the streak, and the alert list ends as the old alerts plus the rule alerts on the pre-call values, or as the old alerts plus the reward message alone when the streak reaches a multiple of 3; a call that extends the streak never adds the daily-limit alert |
| `Engine.PocketGuard.RecordExpense` | public/src/src/App.js:35-76 | the handler past its amount check: appended record, today's spend, streak, points and the last-write-wins alert list |
| `Engine.PocketGuard.AppendRecord` | public/src/src/App.js:37-40 | the ordinary record is appended and today's spend grows by its amount, keeping the invariant |
| `Engine.PocketGuard.StreakStep` | public/src/src/App.js:66-76 | the rule alerts are queued; an in-budget expense extends the streak, and on every third day earns 10 points and replaces the queued list by the old alerts plus the reward |
| `Engine.PocketGuard.AddEmergencyExpense` | public/src/src/App.js:79-92 | a non-positive amount changes nothing; otherwise an emergency record (category emergency, neutral mood) is appended, counted in the total but not in today's spend, with one deduction alert and no rule, streak or reward step |
| `Engine.PocketGuard.AppendEmergencyRecord` | public/src/src/App.js:85-89 | the emergency record is appended and today's spend is left as it is, keeping the invariant |
| `Engine.PocketGuard.MicroSavingTip` | public/src/src/App.js:94-104 | the chosen suggestion of the five-entry catalog is appended as a tip alert |
| `Engine.PocketGuard.ResetToday` | public/src/src/App.js:106-111 | the timer callback sets today's spend to 0 and starts a new day boundary |
| `Engine.PocketGuard.ClearAlerts` | public/src/src/App.js:227 | the alert list becomes empty |
| `Engine.PocketGuard.StateBounds` | public/src/src/App.js:9-20 | in every reachable state the points are 10 per completed 3-day streak, today's spend lies between 0 and total spending, total spending is at least the record count, and the remaining budget is at most the usable amount |
| `Scenarios.RisingInBudgetExpenses` | public/src/src/App.js:55-75 | expenses 10, 20, 30 on a fresh engine trip the trend rule on the third, yet only the 3-day reward is shown and 10 points are earned |
| `Scenarios.RisingExpensesOverLimit` | public/src/src/App.js:51-58 | expenses 10, 20, 200 show the limit alert (230 over 150) and the trend alert, in that order, and keep a 2-day streak |
| `Scenarios.EmergencyThenExpense` | public/src/src/App.js:60-91 | an emergency expense of 1000 leaves today's spend at 0 and makes the next expense of 100 raise a runway warning of 4 days |
| `Scenarios.StressedPurchases` | public/src/src/App.js:45-49 | a stressed food purchase raises the emotional alert, and a stressed study purchase does not |
| `Scenarios.OddBudgetSplit` | public/src/src/App.js:22-27 | a budget of 999 is split 99 / 899 with a daily limit of 29 |
| `Scenarios.TipThenClear` | public/src/src/App.js:94-104 | a tip followed by Clear Alerts leaves an empty alert list and an untouched ledger |
| `Scenarios.FirstExpenseAlerts` | public/src/src/App.js:45-64 | on the initial state, an in-limit first expense raises only the emotional alert, and only when that rule fires |
| `Scenarios.QuietSecondExpense` | public/src/src/App.js:45-64 | after a record of 10, a neutral food expense of 20 raises no rule alert |
| `Scenarios.TrendOnThirdRise` | public/src/src/App.js:55-58 | after 10 and 20, an expense of 30 fires the trend rule alone |
| `Scenarios.LimitAndTrendOnThirdRise` | public/src/src/App.js:51-58 | after 10 and 20, an expense of 200 fires the limit and the trend rules |
| `Scenarios.RunwayAfterEmergency` | public/src/src/App.js:60-63 | after an emergency record of 1000, an expense of 100 fires the runway rule alone, showing 4 days |

## Left out

- Rendering: the JSX markup, the CSS and the report card's visibility toggle are not modelled. The report card is modelled as its figures.
- The expense form's fields are parameters: the amount, the category and the mood. Clearing the amount field after a handler is not modelled.
- The amount is an integer. Parsing the text field with `Number`, and fractional or non-numeric input, are not modelled.
- The amount check `!expenseAmount || expenseAmount <= 0` is modelled as `amount <= 0`.
- The browser `alert()` popup for an invalid amount is modelled as the `InvalidAmount` status.
- The clock: the record's date string is a parameter.
- The 24-hour `setInterval` timer and its cleanup are reduced to the `ResetToday` method.
- `Math.random` in the tip handler is replaced by a catalog index the caller chooses.
- Alerts are a datatype holding the values their messages show. The exact message text and emoji are not modelled.
- The category table is a map. The order in which `Object.entries` lists it is not modelled.
- IEEE floating-point rounding of `val * 0.1`, `val * 0.9`, `usable / 30`, `totalSpending / n`, `remainingBudget / avgDaily` and `totalSpending / (dailyLimit || 1)` is not modelled. The exact-real value and its floor or ceiling are modelled instead.
- React batching is modelled only as its outcome: each handler's updates read the pre-call values, and a later update of a field replaces an earlier one.
- Concurrent or interleaved handler runs are not modelled.
