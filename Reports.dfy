/** The reports of `finance_tracker/reports.py`: totals per category over a
    date range, budgets compared with their spending, and totals per month. */
module Reports {
  import opened Common
  import opened Text
  import Tally
  import opened Expenses
  import Budgets

  /** The amounts of the records that `key` sends to `k`, added in list order. */
  function GroupTotal(es: seq<Expense>, key: Expense -> string, k: string): real {
    if es == [] then 0.0
    else GroupTotal(es[..|es| - 1], key, k) + (if key(es[|es| - 1]) == k then es[|es| - 1].amount else 0.0)
  }

  /** A group's total is the sum over the comprehension of its records. */
  lemma {:induction false} GroupTotalIsFilteredSum(es: seq<Expense>, key: Expense -> string, k: string)
    ensures GroupTotal(es, key, k) == SumAmounts(Select(es, (e: Expense) => key(e) == k))
  {
    if es != [] {
      var init, last := es[..|es| - 1], es[|es| - 1];
      var p := (e: Expense) => key(e) == k;
      GroupTotalIsFilteredSum(init, key, k);
      assert es == init + [last];
      SelectSnoc(init, last, p);
      if p(last) {
        SumAmountsAppend(Select(init, p), last);
      } else {
        assert Select(init, p) + [] == Select(init, p);
      }
    }
  }

  /** The keys `key` gives the records, in a set. */
  function KeysOf(es: seq<Expense>, key: Expense -> string): set<string> {
    if es == [] then {} else KeysOf(es[..|es| - 1], key) + {key(es[|es| - 1])}
  }

  /** A key is in the set iff some record has it. */
  lemma {:induction false} KeysOfMembers(es: seq<Expense>, key: Expense -> string)
    ensures forall k :: k in KeysOf(es, key) <==> exists x :: 0 <= x < |es| && key(es[x]) == k
  {
    if es != [] {
      var init := es[..|es| - 1];
      KeysOfMembers(init, key);
      assert KeysOf(es, key) == KeysOf(init, key) + {key(es[|es| - 1])};
      forall k | k in KeysOf(es, key)
        ensures exists x :: 0 <= x < |es| && key(es[x]) == k
      {
        if k != key(es[|es| - 1]) {
          assert k in KeysOf(init, key);
          var x :| 0 <= x < |init| && key(init[x]) == k;
          assert es[x] == init[x];
        }
      }
      forall k, x | 0 <= x < |es| && key(es[x]) == k
        ensures k in KeysOf(es, key)
      {
        if x < |es| - 1 {
          assert init[x] == es[x];
        }
      }
    }
  }

  /** The tally `t` after `d[key(exp)] = d.get(key(exp), 0.0) + exp.amount`
      for every record of `es` in turn. */
  function Accumulated(t: Tally.Tally, es: seq<Expense>, key: Expense -> string): Tally.Tally {
    if es == [] then t
    else Tally.Add(Accumulated(t, es[..|es| - 1], key), key(es[|es| - 1]), es[|es| - 1].amount)
  }

  /** Adding records keeps the keys distinct and in step with the values. */
  lemma {:induction false} AccumulatedValid(t: Tally.Tally, es: seq<Expense>, key: Expense -> string)
    requires Tally.Valid(t)
    ensures Tally.Valid(Accumulated(t, es, key))
  {
    if es != [] {
      var init, last := es[..|es| - 1], es[|es| - 1];
      AccumulatedValid(t, init, key);
      Tally.AddValid(Accumulated(t, init, key), key(last), last.amount);
    }
  }

  /** The values grow, all together, by the amounts of all the records. */
  lemma {:induction false} AccumulatedTotal(t: Tally.Tally, es: seq<Expense>, key: Expense -> string)
    requires Tally.Valid(t)
    ensures Tally.Total(Accumulated(t, es, key)) == Tally.Total(t) + SumAmounts(es)
  {
    if es != [] {
      var init, last := es[..|es| - 1], es[|es| - 1];
      AccumulatedTotal(t, init, key);
      AccumulatedValid(t, init, key);
      Tally.TotalAdd(Accumulated(t, init, key), key(last), last.amount);
    }
  }

  /** Each key gains exactly the amounts of its group. */
  lemma {:induction false} AccumulatedGet(t: Tally.Tally, es: seq<Expense>, key: Expense -> string, k: string)
    ensures Tally.Get(Accumulated(t, es, key), k) == Tally.Get(t, k) + GroupTotal(es, key, k)
  {
    if es != [] {
      AccumulatedGet(t, es[..|es| - 1], key, k);
    }
  }

  /** The keys gained are the keys of the records. */
  lemma {:induction false} AccumulatedKeys(t: Tally.Tally, es: seq<Expense>, key: Expense -> string)
    ensures Accumulated(t, es, key).totals.Keys == t.totals.Keys + KeysOf(es, key)
  {
    if es != [] {
      AccumulatedKeys(t, es[..|es| - 1], key);
    }
  }

  /** `d[key(exp)] = d.get(key(exp), 0.0) + exp.amount` for every record in
      turn: each key gains the amounts of its group, and nothing else moves. */
  method Accumulate(t: Tally.Tally, es: seq<Expense>, key: Expense -> string) returns (r: Tally.Tally)
    requires Tally.Valid(t)
    ensures r == Accumulated(t, es, key)
    ensures Tally.Valid(r)
    ensures Tally.Total(r) == Tally.Total(t) + SumAmounts(es)
    ensures forall k :: Tally.Get(r, k) == Tally.Get(t, k) + GroupTotal(es, key, k)
    ensures r.totals.Keys == t.totals.Keys + KeysOf(es, key)
  {
    r := t;
    assert es[..0] == [];
    for i := 0 to |es|
      invariant r == Accumulated(t, es[..i], key)
    {
      assert es[..i + 1][..i] == es[..i];
      r := Tally.Add(r, key(es[i]), es[i].amount);
    }
    assert es[..|es|] == es;
    AccumulatedValid(t, es, key);
    AccumulatedTotal(t, es, key);
    AccumulatedKeys(t, es, key);
    forall k
      ensures Tally.Get(r, k) == Tally.Get(t, k) + GroupTotal(es, key, k)
    {
      AccumulatedGet(t, es, key, k);
    }
  }

  /** The dictionary `generate_category_summary` returns. */
  datatype CategorySummary = CategorySummary(userId: string, period: string, categoryTotals: Tally.Tally, total: real)

  /** The dictionary `generate_trend_analysis` returns. */
  datatype Trend = Trend(userId: string, period: string, monthlyTotals: Tally.Tally)

  /** The calendar the trend analysis reads: days are numbered, and `day`
      and `month` stand for `strftime("%Y-%m-%d")` and `strftime("%Y-%m")`. */
  datatype Calendar = Calendar(day: int -> string, month: int -> string)

  /** `now - timedelta(days=30 * months)` */
  function StartDay(now: int, months: int): int {
    now - 30 * months
  }

  /** The month key of the `j`-th 30-day step from `start`. */
  function SeedMonth(cal: Calendar, start: int, j: int): string {
    cal.month(start + 30 * j)
  }

  /** How many steps of 30 days from `StartDay(now, months)` stay at or before `now`. */
  function Seeds(months: int): nat {
    if months >= 0 then months + 1 else 0
  }

  /** The month keys of the first `n` steps. */
  function SeedKeys(cal: Calendar, start: int, n: nat): set<string> {
    if n == 0 then {} else SeedKeys(cal, start, n - 1) + {SeedMonth(cal, start, n - 1)}
  }

  /** A month is seeded iff one of the first `n` steps falls in it. */
  lemma {:induction false} SeedKeysMembers(cal: Calendar, start: int, n: nat)
    ensures forall k :: k in SeedKeys(cal, start, n) <==> exists j :: 0 <= j < n && k == SeedMonth(cal, start, j)
  {
    if n > 0 {
      SeedKeysMembers(cal, start, n - 1);
      assert SeedMonth(cal, start, n - 1) in SeedKeys(cal, start, n);
    }
  }

  /** The table after the first `n` steps of the seeding loop. */
  function Seeded(cal: Calendar, start: int, n: nat): Tally.Tally {
    if n == 0 then Tally.Empty()
    else Tally.Put(Seeded(cal, start, n - 1), SeedMonth(cal, start, n - 1), 0.0)
  }

  /** Seeding keeps the keys distinct and in step with the values. */
  lemma {:induction false} SeededValid(cal: Calendar, start: int, n: nat)
    ensures Tally.Valid(Seeded(cal, start, n))
  {
    if n > 0 {
      SeededValid(cal, start, n - 1);
      Tally.PutValid(Seeded(cal, start, n - 1), SeedMonth(cal, start, n - 1), 0.0);
    }
  }

  /** Every seeded month holds zero. */
  lemma {:induction false} SeededGet(cal: Calendar, start: int, n: nat, k: string)
    ensures Tally.Get(Seeded(cal, start, n), k) == 0.0
  {
    if n > 0 {
      SeededGet(cal, start, n - 1, k);
    }
  }

  /** So the seeds add up to nothing. */
  lemma SeededTotal(cal: Calendar, start: int, n: nat)
    ensures Tally.Total(Seeded(cal, start, n)) == 0.0
  {
    forall k
      ensures Tally.Get(Seeded(cal, start, n), k) == 0.0
    {
      SeededGet(cal, start, n, k);
    }
    Tally.TotalOfZeros(Seeded(cal, start, n));
  }

  /** The seeded months are the months of the steps. */
  lemma {:induction false} SeededKeys(cal: Calendar, start: int, n: nat)
    ensures Seeded(cal, start, n).totals.Keys == SeedKeys(cal, start, n)
  {
    if n > 0 {
      SeededKeys(cal, start, n - 1);
    }
  }

  /** The seeding loop of `generate_trend_analysis`: from the start day,
      in steps of 30 days while at or before `now`, the month of the day is
      stored at zero. */
  method SeedMonths(cal: Calendar, now: int, months: int) returns (monthly: Tally.Tally)
    ensures monthly == Seeded(cal, StartDay(now, months), Seeds(months))
  {
    var start := StartDay(now, months);
    monthly := Tally.Empty();
    var current := start;
    ghost var n := 0;
    while current <= now
      invariant current == start + 30 * n
      invariant 0 <= n <= Seeds(months)
      invariant monthly == Seeded(cal, start, n)
      decreases now - current
    {
      var monthKey := cal.month(current);
      assert monthKey == SeedMonth(cal, start, n);
      monthly := Tally.Put(monthly, monthKey, 0.0);
      current := current + 30;
      n := n + 1;
    }
    assert n == Seeds(months);
  }

  /** The monthly table of a trend: the months of the first `n` steps and
      the months of the records are its keys, each month holds the amounts
      of its records, and the values add up to the amounts of all records. */
  ghost predicate MonthlyTotals(t: Tally.Tally, cal: Calendar, start: int, n: nat, fs: seq<Expense>) {
    && Tally.Valid(t)
    && t.totals.Keys == SeedKeys(cal, start, n) + KeysOf(fs, MonthOf)
    && (forall k :: Tally.Get(t, k) == GroupTotal(fs, MonthOf, k))
    && Tally.Total(t) == SumAmounts(fs)
  }

  /** Adding the records to the seeded table gives the monthly table. */
  lemma SeededThenAccumulated(cal: Calendar, start: int, n: nat, fs: seq<Expense>)
    ensures MonthlyTotals(Accumulated(Seeded(cal, start, n), fs, MonthOf), cal, start, n, fs)
  {
    var m := Seeded(cal, start, n);
    SeededValid(cal, start, n);
    SeededTotal(cal, start, n);
    SeededKeys(cal, start, n);
    AccumulatedValid(m, fs, MonthOf);
    AccumulatedTotal(m, fs, MonthOf);
    AccumulatedKeys(m, fs, MonthOf);
    forall k
      ensures Tally.Get(Accumulated(m, fs, MonthOf), k) == GroupTotal(fs, MonthOf, k)
    {
      AccumulatedGet(m, fs, MonthOf, k);
      SeededGet(cal, start, n, k);
    }
  }

  /** `budget["period"] == period` */
  function PeriodIs(period: string): Budgets.Budget -> bool {
    (b: Budgets.Budget) => b.period == period
  }

  /** `e.category` */
  function CategoryOf(e: Expense): string {
    e.category
  }

  /** `e.date[:7]`: the `YYYY-MM` part of a `YYYY-MM-DD` date. */
  function MonthOf(e: Expense): (m: string)
    ensures m <= e.date && |m| == if |e.date| < 7 then |e.date| else 7
  {
    Prefix(e.date, 7)
  }

  class FinancialReport {
    const userId: string
    const expenseTracker: ExpenseTracker
    const budgetManager: Budgets.BudgetManager

    /** `FinancialReport(user_id, expense_tracker, budget_manager)`; the report
        directory it creates is not modelled. */
    constructor (userId: string, expenseTracker: ExpenseTracker, budgetManager: Budgets.BudgetManager)
      ensures this.userId == userId
      ensures this.expenseTracker == expenseTracker && this.budgetManager == budgetManager
    {
      this.userId := userId;
      this.expenseTracker := expenseTracker;
      this.budgetManager := budgetManager;
    }

    /** `generate_category_summary`: the records in range (both bounds given)
        or all records, totalled per category. */
    method GenerateCategorySummary(start: Option<string> := None, end: Option<string> := None)
      returns (r: CategorySummary)
      ensures var fs := DateFilter(expenseTracker.expenses, start, end);
        && r.userId == userId
        && r.period == OrElse(start, "all") + " to " + OrElse(end, "all")
        && Tally.Valid(r.categoryTotals)
        && r.categoryTotals.totals.Keys == KeysOf(fs, CategoryOf)
        && (forall c :: Tally.Get(r.categoryTotals, c) == GroupTotal(fs, CategoryOf, c))
        && r.total == Tally.Total(r.categoryTotals)
        && r.total == SumAmounts(fs)
    {
      var fs := DateFilter(expenseTracker.expenses, start, end);
      var categories := Accumulate(Tally.Empty(), fs, CategoryOf);
      r := CategorySummary(userId, OrElse(start, "all") + " to " + OrElse(end, "all"),
                           categories, Tally.Total(categories));
    }

    /** `generate_budget_comparison`: in table order, the status looked up
        again by the stored category for every budget of the given period. */
    method GenerateBudgetComparison(period: string := "monthly") returns (r: seq<Budgets.BudgetStatus>)
      requires budgetManager.Valid()
      ensures var matching := Select(budgetManager.GetAllBudgets(), PeriodIs(period));
        && |r| == |matching|
        && (forall i :: 0 <= i < |r| ==> r[i] == budgetManager.GetBudgetStatus(matching[i].category, period))
        && (budgetManager.KeysMatchEntries() ==> forall i :: 0 <= i < |r| ==> r[i] == Budgets.StatusOf(matching[i]))
    {
      var all := budgetManager.GetAllBudgets();
      r := CompareBudgets(all, budgetManager.budgets, period);
      if budgetManager.KeysMatchEntries() {
        ComparisonFindsEveryBudget(budgetManager, period);
      }
    }

    /** `generate_trend_analysis(months)` with "now" given as a day number:
        one zero key per 30-day step from the start, then every record dated
        within the range adds its amount to its month. */
    method GenerateTrendAnalysis(now: int, cal: Calendar, months: int := 6) returns (r: Trend)
      ensures r.userId == userId
      ensures r.period == IntToString(months) + " months"
      ensures var fs := WithinDates(expenseTracker.expenses, cal.day(StartDay(now, months)), cal.day(now));
        && r.monthlyTotals == Accumulated(Seeded(cal, StartDay(now, months), Seeds(months)), fs, MonthOf)
        && MonthlyTotals(r.monthlyTotals, cal, StartDay(now, months), Seeds(months), fs)
    {
      var start := StartDay(now, months);
      var fs := WithinDates(expenseTracker.expenses, cal.day(start), cal.day(now));
      var monthly := SeedMonths(cal, now, months);
      SeededValid(cal, start, Seeds(months));
      monthly := Accumulate(monthly, fs, MonthOf);
      SeededThenAccumulated(cal, start, Seeds(months), fs);
      r := Trend(userId, IntToString(months) + " months", monthly);
    }
  }

  /** The loop of `generate_budget_comparison` over the listed budgets, each
      budget of the period looked up again in `budgets` by its category. */
  method CompareBudgets(all: seq<Budgets.Budget>, budgets: map<string, Budgets.Budget>, period: string)
    returns (r: seq<Budgets.BudgetStatus>)
    ensures |r| == |Select(all, PeriodIs(period))|
    ensures forall i :: 0 <= i < |r| ==> r[i] == Budgets.StatusIn(budgets, Select(all, PeriodIs(period))[i].category, period)
  {
    var p := PeriodIs(period);
    r := [];
    for i := 0 to |all|
      invariant |r| == |Select(all[..i], p)|
      invariant forall j :: 0 <= j < |r| ==> r[j] == Budgets.StatusIn(budgets, Select(all[..i], p)[j].category, period)
    {
      var b := all[i];
      assert all[..i + 1] == all[..i] + [b];
      SelectSnoc(all[..i], b, p);
      if b.period == period {
        r := r + [Budgets.StatusIn(budgets, b.category, period)];
      } else {
        assert Select(all[..i], p) + [] == Select(all[..i], p);
      }
    }
    assert all[..|all|] == all;
  }

  /** When every budget sits under the key of its own category and period,
      the comparison finds each budget of the period and reports its figures. */
  lemma ComparisonFindsEveryBudget(m: Budgets.BudgetManager, period: string)
    requires m.Valid() && m.KeysMatchEntries()
    ensures var matching := Select(m.GetAllBudgets(), PeriodIs(period));
      forall i :: 0 <= i < |matching| ==> m.GetBudgetStatus(matching[i].category, period) == Budgets.StatusOf(matching[i])
  {
    var all := m.GetAllBudgets();
    var p := PeriodIs(period);
    var matching := Select(all, p);
    SelectMembers(all, p);
    forall i | 0 <= i < |matching|
      ensures m.GetBudgetStatus(matching[i].category, period) == Budgets.StatusOf(matching[i])
    {
      var b := matching[i];
      assert b in all && b.period == period;
      var k :| k in m.budgets && m.budgets[k] == b;
      assert k == Budgets.KeyOf(b.category, period);
    }
  }
}
