/**
 * The monthly report card: a read-only projection of the allocation, the
 * ledger and the reward points. Only its figures are modelled, not its markup.
 */
module Report {
  import opened Allocation
  import opened Ledger

  datatype ReportCard = ReportCard(
    totalSpending: int,
    totalSavings: int,
    remainingBudget: int,
    overspendingDays: int,
    rewardPoints: int,
    categories: map<Category, int>,
    onTrack: bool)

  /** Sum of the table's entries over a list of categories (absent entries count 0). */
  function TableSum(m: map<Category, int>, cats: seq<Category>): int
  {
    if cats == [] then 0 else Lookup(m, cats[0]) + TableSum(m, cats[1..])
  }

  /**
   * The report card for the given allocation, reward points and ledger. The
   * overspending figure divides by the daily limit, or by 1 when the limit is
   * 0 (`dailyLimit || 1`), and is shown clamped at 0. Unspent usable money is
   * added to the savings figure, as the source does.
   */
  function Generate(savings: int, usable: int, rewards: int, expenses: seq<Expense>): (r: ReportCard)
    ensures r.totalSpending == Total(expenses)
    ensures r.remainingBudget == usable - r.totalSpending
    ensures r.totalSavings == savings + r.remainingBudget
    ensures r.rewardPoints == rewards
    ensures r.overspendingDays == OverspendingDays(r.totalSpending, DailyLimit(usable))
    ensures forall c :: c in r.categories <==> exists i :: 0 <= i < |expenses| && expenses[i].category == c
    ensures forall c :: Lookup(r.categories, c) == CategorySpend(expenses, c)
    ensures TableSum(r.categories, AllCategories) == r.totalSpending
    ensures r.onTrack <==> r.remainingBudget > 0
  {
    var total := Total(expenses);
    var table := CategoryTotals(expenses);
    CategoryTotalsSpec(expenses);
    TableSumIsSpendOver(expenses, AllCategories);
    CategorySpendsSumToTotal(expenses);
    ReportCard(
      total,
      savings + (usable - total),
      usable - total,
      OverspendingDays(total, DailyLimit(usable)),
      rewards,
      table,
      usable - total > 0)
  }

  /**
   * `Math.max(0, Math.ceil(totalSpending / (dailyLimit || 1)) - 30)`: how many
   * days' worth of the daily limit the spending exceeds a 30-day month by.
   */
  function OverspendingDays(total: int, dailyLimit: int): (d: int)
    ensures d >= 0
    ensures dailyLimit > 0 ==> (d > 0 <==> total > 30 * dailyLimit)
    ensures dailyLimit > 0 && d > 0 ==> (d + 29) * dailyLimit < total <= (d + 30) * dailyLimit
    ensures dailyLimit == 0 ==> d == if total > 30 then total - 30 else 0
    ensures dailyLimit < 0 && total >= 0 ==> d == 0
    ensures dailyLimit < 0 && d > 0 ==> (d + 30) * dailyLimit <= total < (d + 29) * dailyLimit
  {
    var divisor := if dailyLimit == 0 then 1 else dailyLimit;
    var days := CeilDiv(total, divisor) - 30;
    if days > 0 then days else 0
  }

  /** Summing the category table is summing the per-category spending. */
  lemma {:induction false} TableSumIsSpendOver(s: seq<Expense>, cats: seq<Category>)
    ensures TableSum(CategoryTotals(s), cats) == SpendOver(s, cats)
  {
    if cats != [] {
      CategoryTotalsSpec(s);
      TableSumIsSpendOver(s, cats[1..]);
    }
  }
}
