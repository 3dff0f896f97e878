/**
 * The expense ledger: the ordered list of expense records and the aggregates
 * derived from it (total spending, spending per category, spending counted
 * against today's limit).
 *
 * Every sum is defined by recursion on the LAST record, which is the order in
 * which `expenses.reduce((sum, exp) => sum + exp.amount, 0)` and the report's
 * `forEach` visit the records.
 */
module Ledger {

  /** The categories offered by the expense form, plus the one the emergency path uses. */
  datatype Category = Food | Entertainment | Transport | Study | Medicine | Personal | Other | Emergency

  /** Every category, each exactly once. */
  const AllCategories: seq<Category> :=
    [Food, Entertainment, Transport, Study, Medicine, Personal, Other, Emergency]

  datatype Mood = Neutral | Happy | Stressed | Sad

  /**
   * One expense record. `date` is the day tag the source takes from the clock
   * (`toDateString()`); it is a parameter here. Records from the ordinary path
   * carry no emergency flag, which is `isEmergency == false`.
   */
  datatype Expense = Expense(amount: int, category: Category, mood: Mood, date: string, isEmergency: bool)

  /** The ledger never stores an amount that is not positive. */
  predicate AllPositive(s: seq<Expense>)
  {
    forall i :: 0 <= i < |s| ==> s[i].amount > 0
  }

  /** Total spending: the sum of all amounts, emergency records included. */
  function Total(s: seq<Expense>): int
  {
    if s == [] then 0 else Total(s[..|s| - 1]) + s[|s| - 1].amount
  }

  /** Spending that counts against the daily limit: emergency records are left out. */
  function DailySpend(s: seq<Expense>): int
  {
    if s == [] then 0
    else DailySpend(s[..|s| - 1]) + (if s[|s| - 1].isEmergency then 0 else s[|s| - 1].amount)
  }

  /** Spending in one category. */
  function CategorySpend(s: seq<Expense>, c: Category): int
  {
    if s == [] then 0
    else CategorySpend(s[..|s| - 1], c) + (if s[|s| - 1].category == c then s[|s| - 1].amount else 0)
  }

  /** Sum of the per-category spending over a list of categories. */
  function SpendOver(s: seq<Expense>, cats: seq<Category>): int
  {
    if cats == [] then 0 else CategorySpend(s, cats[0]) + SpendOver(s, cats[1..])
  }

  /** The value stored under a key, or 0 when there is none (`categories[c] || 0`). */
  function Lookup(m: map<Category, int>, c: Category): int
  {
    if c in m then m[c] else 0
  }

  /**
   * The report's category table: one entry per category that has at least one
   * record, holding that category's spending.
   */
  function CategoryTotals(s: seq<Expense>): map<Category, int>
  {
    if s == [] then map[]
    else
      var m := CategoryTotals(s[..|s| - 1]);
      var e := s[|s| - 1];
      m[e.category := Lookup(m, e.category) + e.amount]
  }

  /**
   * The table has an entry for exactly the categories that have a record,
   * and each entry is that category's spending.
   */
  lemma {:induction false} CategoryTotalsSpec(s: seq<Expense>)
    ensures forall c :: c in CategoryTotals(s) <==> exists i :: 0 <= i < |s| && s[i].category == c
    ensures forall c :: Lookup(CategoryTotals(s), c) == CategorySpend(s, c)
  {
    if s != [] {
      var init := s[..|s| - 1];
      CategoryTotalsSpec(init);
      assert forall i :: 0 <= i < |init| ==> init[i] == s[i];
    }
  }

  /** Appending a record adds its amount to the total. */
  lemma TotalAppend(s: seq<Expense>, e: Expense)
    ensures Total(s + [e]) == Total(s) + e.amount
  {
    assert (s + [e])[..|s|] == s;
  }

  /** Appending a record adds its amount to the daily spend unless it is an emergency. */
  lemma DailySpendAppend(s: seq<Expense>, e: Expense)
    ensures DailySpend(s + [e]) == DailySpend(s) + (if e.isEmergency then 0 else e.amount)
  {
    assert (s + [e])[..|s|] == s;
  }

  /**
   * Appending a record to the ledger, seen from a day boundary `k`: the
   * records stay positive when the new amount is, and the spend since `k`
   * grows by the amount unless the record is an emergency.
   */
  lemma AppendSinceDayStart(s: seq<Expense>, k: nat, e: Expense)
    requires k <= |s|
    ensures AllPositive(s) && e.amount > 0 ==> AllPositive(s + [e])
    ensures DailySpend((s + [e])[k..]) == DailySpend(s[k..]) + (if e.isEmergency then 0 else e.amount)
  {
    assert (s + [e])[k..] == s[k..] + [e];
    DailySpendAppend(s[k..], e);
  }

  /** With positive amounts the total is at least the number of records. */
  lemma {:induction false} TotalAtLeastCount(s: seq<Expense>)
    requires AllPositive(s)
    ensures Total(s) >= |s|
  {
    if s != [] {
      TotalAtLeastCount(s[..|s| - 1]);
    }
  }

  /**
   * What is counted against today, taken over any suffix of the ledger, lies
   * between zero and the total spending.
   */
  lemma {:induction false} DailySpendWithinTotal(s: seq<Expense>, k: nat)
    requires k <= |s| && AllPositive(s)
    ensures 0 <= DailySpend(s[k..]) <= Total(s)
  {
    if k == |s| {
      assert s[k..] == [];
      TotalAtLeastCount(s);
    } else {
      var init := s[..|s| - 1];
      assert AllPositive(init);
      DailySpendWithinTotal(init, k);
      assert s[k..] == init[k..] + [s[|s| - 1]];
      DailySpendAppend(init[k..], s[|s| - 1]);
    }
  }

  /** Adding a record to every category sum adds its amount once, to its own category. */
  lemma {:induction false} SpendOverAppend(s: seq<Expense>, e: Expense, cats: seq<Category>)
    ensures SpendOver(s + [e], cats) == SpendOver(s, cats) + CountOf(cats, e.category) * e.amount
  {
    if cats != [] {
      SpendOverAppend(s, e, cats[1..]);
      assert (s + [e])[..|s|] == s;
      var k := CountOf(cats[1..], e.category);
      if cats[0] == e.category {
        calc {
          SpendOver(s + [e], cats);
          CategorySpend(s, cats[0]) + e.amount + SpendOver(s, cats[1..]) + k * e.amount;
          SpendOver(s, cats) + (k + 1) * e.amount;
        }
      }
    }
  }

  /** Number of occurrences of a category in a list. */
  function CountOf(cats: seq<Category>, c: Category): nat
  {
    if cats == [] then 0 else (if cats[0] == c then 1 else 0) + CountOf(cats[1..], c)
  }

  /** The category spends add up to the total: every record is in exactly one category. */
  lemma {:induction false} CategorySpendsSumToTotal(s: seq<Expense>)
    ensures SpendOver(s, AllCategories) == Total(s)
  {
    if s == [] {
      ZeroSpendOver(s, AllCategories);
    } else {
      var init, e := s[..|s| - 1], s[|s| - 1];
      CategorySpendsSumToTotal(init);
      assert s == init + [e];
      SpendOverAppend(init, e, AllCategories);
      EachCategoryOnce(e.category);
    }
  }

  /** `AllCategories` lists every category exactly once. */
  lemma EachCategoryOnce(c: Category)
    ensures CountOf(AllCategories, c) == 1
  {
    var k := match c
      case Food => 0 case Entertainment => 1 case Transport => 2 case Study => 3
      case Medicine => 4 case Personal => 5 case Other => 6 case Emergency => 7;
    OnlyOccurrence(AllCategories, c, k);
  }

  /** A category that occurs at exactly one position of a list occurs once. */
  lemma {:induction false} OnlyOccurrence(cats: seq<Category>, c: Category, k: nat)
    requires k < |cats| && cats[k] == c
    requires forall j :: 0 <= j < |cats| && j != k ==> cats[j] != c
    ensures CountOf(cats, c) == 1
  {
    if k == 0 {
      Absent(cats[1..], c);
    } else {
      OnlyOccurrence(cats[1..], c, k - 1);
    }
  }

  lemma {:induction false} Absent(cats: seq<Category>, c: Category)
    requires forall j :: 0 <= j < |cats| ==> cats[j] != c
    ensures CountOf(cats, c) == 0
  {
    if cats != [] {
      Absent(cats[1..], c);
    }
  }

  lemma {:induction false} ZeroSpendOver(s: seq<Expense>, cats: seq<Category>)
    requires s == []
    ensures SpendOver(s, cats) == 0
  {
    if cats != [] {
      ZeroSpendOver(s, cats[1..]);
    }
  }

  /**
   * The report's `forEach` over the records, filling the category table one
   * record at a time.
   */
  method TallyCategories(s: seq<Expense>) returns (m: map<Category, int>)
    ensures m == CategoryTotals(s)
  {
    m := map[];
    for i := 0 to |s|
      invariant m == CategoryTotals(s[..i])
    {
      assert s[..i + 1][..i] == s[..i];
      m := m[s[i].category := Lookup(m, s[i].category) + s[i].amount];
    }
    assert s[..|s|] == s;
  }
}
