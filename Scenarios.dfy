/** The unit tests of the finance tracker, replayed as clients of the model:
    each method makes the calls a test makes and returns what the test
    inspects, and its postcondition is what the test asserts. */
module Scenarios {
  import opened Common
  import opened Text
  import opened Expenses
  import opened Budgets
  import Tally
  import Reports
  import opened Users

  /** The record `test_add_valid_expense` creates keeps its texts as given. */
  lemma GroceryRecord(id: string, today: string)
    ensures NewExpense(id, 50.0, "Food", "Grocery shopping", None, Some(["essentials"]), false, None, today)
         == Expense(id, 50.0, "Food", "Grocery shopping", today, ["essentials"], false, None)
  {
    StripFixed("Food");
    StripFixed("Grocery shopping");
  }

  /** A ledger of one record finds it by its id. */
  lemma SingleRecordFound(e: Expense)
    ensures GetExpenseById([e], e.id) == Some(e)
  {
    assert FirstIndex([e], e.id) == Some(0);
  }

  /** `test_add_valid_expense`, with the id the ledger would draw given as `id`. */
  method AddExpenseScenario(id: string, today: string) returns (count: nat, found: Option<Expense>)
    requires today != ""
    ensures count == 1
    ensures found.Some? && found.value.amount == 50.0 && found.value.category == "Food"
    ensures found.value.tags == ["essentials"]
  {
    var t := new ExpenseTracker("test_user");
    GroceryRecord(id, today);
    var r := t.AddExpense(id, today, 50.0, "Food", "Grocery shopping", tags := Some(["essentials"]));
    var e := Expense(id, 50.0, "Food", "Grocery shopping", today, ["essentials"], false, None);
    assert t.expenses == [e];
    count := |t.expenses|;
    SingleRecordFound(e);
    found := GetExpenseById(t.expenses, id);
  }

  /** The update of `test_update_expense` writes the amount and the description. */
  lemma DinnerPatch(e: Expense)
    requires e.amount > 0.0
    ensures Patch(e, Some(75.0), None, Some("Dinner"), None) == Patched(e.(amount := 75.0, description := "Dinner"), None)
  {
    StripFixed("Dinner");
  }

  /** The record `test_update_expense` and `test_delete_expense` create. */
  lemma LunchRecord(id: string, today: string)
    ensures NewExpense(id, 50.0, "Food", "Lunch", None, None, false, None, today)
         == Expense(id, 50.0, "Food", "Lunch", today, [], false, None)
  {
    StripFixed("Food");
    StripFixed("Lunch");
  }

  /** `test_update_expense` */
  method UpdateExpenseScenario(id: string, today: string)
    returns (updated: Result<bool>, found: Option<Expense>, missing: Result<bool>)
    requires today != "" && id != "nonexistent"
    ensures updated == Ok(true)
    ensures found.Some? && found.value.amount == 75.0 && found.value.description == "Dinner"
    ensures missing == Ok(false)
  {
    var t := new ExpenseTracker("test_user");
    LunchRecord(id, today);
    var added := t.AddExpense(id, today, 50.0, "Food", "Lunch");
    var e := Expense(id, 50.0, "Food", "Lunch", today, [], false, None);
    assert t.expenses == [e];
    assert FirstIndex(t.expenses, id) == Some(0);
    DinnerPatch(e);
    updated := t.UpdateExpense(id, amount := Some(75.0), description := Some("Dinner"));
    var e' := e.(amount := 75.0, description := "Dinner");
    assert t.expenses == [e'];
    SingleRecordFound(e');
    found := GetExpenseById(t.expenses, id);
    assert FirstIndex(t.expenses, "nonexistent") == None;
    missing := t.UpdateExpense("nonexistent");
  }

  /** `test_delete_expense` */
  method DeleteExpenseScenario(id: string, today: string)
    returns (removed: bool, found: Option<Expense>, removedMissing: bool)
    requires today != "" && id != "nonexistent"
    ensures removed && found == None && !removedMissing
  {
    var t := new ExpenseTracker("test_user");
    var added := t.AddExpense(id, today, 50.0, "Food", "Lunch");
    assert t.expenses[0].id == id;
    ghost var before := t.expenses;
    removed := t.DeleteExpense(id);
    DeletedIdIsGone(before, id);
    found := GetExpenseById(t.expenses, id);
    removedMissing := t.DeleteExpense("nonexistent");
  }

  /** `test_get_budget_status` */
  method BudgetStatusScenario() returns (s: BudgetStatus)
    ensures s.Status? && s.remaining == 30.0 && s.alertTriggered && !s.overBudget
  {
    var m := new BudgetManager("test_user");
    var r := m.SetBudget("Food", 200.0, alertThreshold := 0.8);
    assert r == Ok(());
    r := m.AddSpending("Food", 170.0);
    assert r == Ok(());
    s := m.GetBudgetStatus("Food");
  }

  /** The monthly food budget of the unit tests passes every check. */
  lemma FoodBudgetAccepted()
    ensures SetBudgetError("Food", 200.0, "monthly", 0.8) == None
  {
    assert "monthly" in Periods;
  }

  /** It is stored as given, with nothing spent. */
  lemma FoodBudgetStored()
    ensures NewBudget("Food", 200.0, "monthly", 0.8) == Budget("Food", 200.0, "monthly", 0.8, 0.0)
  {
    StripFixed("Food");
    PeriodsAreLowerCase("monthly");
  }

  /** A table holding just the monthly food budget compares just that budget. */
  lemma OneMonthlyBudgetCompared(m: BudgetManager, b: Budget)
    requires m.Valid() && m.order == ["Food_monthly"] && m.budgets["Food_monthly"] == b && b.period == "monthly"
    ensures Select(m.GetAllBudgets(), Reports.PeriodIs("monthly")) == [b]
  {
    assert m.GetAllBudgets() == [b];
    SelectAll([b], Reports.PeriodIs("monthly"));
  }

  /** The setup of `test_generate_budget_comparison`: a monthly food budget
      of 200 with 150 spent. */
  method FoodBudgetWithSpending() returns (m: BudgetManager)
    ensures fresh(m) && m.Valid() && m.KeysMatchEntries()
    ensures m.order == ["Food_monthly"] && m.budgets["Food_monthly"] == Budget("Food", 200.0, "monthly", 0.8, 150.0)
  {
    m := new BudgetManager("test_user");
    FoodBudgetAccepted();
    FoodBudgetStored();
    StripFixed("Food");
    assert KeyOf("Food", "monthly") == "Food_monthly";
    var r := m.SetBudget("Food", 200.0);
    assert m.budgets["Food_monthly"] == Budget("Food", 200.0, "monthly", 0.8, 0.0);
    assert KeyOf("Food", "monthly") in m.budgets;
    r := m.AddSpending("Food", 150.0);
    assert m.budgets["Food_monthly"] == Budget("Food", 200.0, "monthly", 0.8, 150.0);
    assert m.order == ["Food_monthly"];
  }

  /** `test_generate_budget_comparison` */
  method BudgetComparisonScenario() returns (comparison: seq<BudgetStatus>)
    ensures |comparison| == 1 && comparison[0].Status? && comparison[0].remaining == 50.0
  {
    var m := FoodBudgetWithSpending();
    var ledger := new ExpenseTracker("test_user");
    var report := new Reports.FinancialReport("test_user", ledger, m);
    var b := Budget("Food", 200.0, "monthly", 0.8, 150.0);
    comparison := report.GenerateBudgetComparison();
    OneMonthlyBudgetCompared(m, b);
    assert comparison[0] == StatusOf(b);
  }

  /** What the reports compute from a ledger of two records. */
  lemma TwoRecords(a: Expense, b: Expense, key: Expense -> string, k: string)
    ensures Reports.GroupTotal([a, b], key, k)
         == (if key(a) == k then a.amount else 0.0) + (if key(b) == k then b.amount else 0.0)
    ensures Reports.KeysOf([a, b], key) == {key(a), key(b)}
    ensures SumAmounts([a, b]) == a.amount + b.amount
  {
    assert [a, b][..1] == [a];
    assert [a][..0] == [];
    assert Reports.GroupTotal([a], key, k) == if key(a) == k then a.amount else 0.0;
    assert Reports.KeysOf([a], key) == {key(a)};
    assert SumAmounts([a]) == a.amount;
  }

  /** The ledger of `test_generate_category_summary`. */
  function SummaryLedger(id1: string, id2: string): seq<Expense> {
    [Expense(id1, 50.0, "Food", "Lunch", "2025-01-01", [], false, None),
     Expense(id2, 30.0, "Transport", "Bus", "2025-01-02", [], false, None)]
  }

  /** The first record of that test, dated as given. */
  lemma SummaryFoodRecord(id: string, today: string)
    ensures NewExpense(id, 50.0, "Food", "Lunch", Some("2025-01-01"), None, false, None, today)
         == SummaryLedger(id, "")[0]
  {
    StripFixed("Food");
    StripFixed("Lunch");
  }

  /** The second record of that test. */
  lemma SummaryTransportRecord(id: string, today: string)
    ensures NewExpense(id, 30.0, "Transport", "Bus", Some("2025-01-02"), None, false, None, today)
         == SummaryLedger("", id)[1]
  {
    StripFixed("Transport");
    StripFixed("Bus");
  }

  /** The two `add_expense` calls of that test. */
  method SummarySetup(id1: string, id2: string, today: string) returns (ledger: ExpenseTracker)
    ensures fresh(ledger) && ledger.expenses == SummaryLedger(id1, id2)
  {
    ledger := new ExpenseTracker("test_user");
    SummaryFoodRecord(id1, today);
    SummaryTransportRecord(id2, today);
    var r := ledger.AddExpense(id1, today, 50.0, "Food", "Lunch", date := Some("2025-01-01"));
    r := ledger.AddExpense(id2, today, 30.0, "Transport", "Bus", date := Some("2025-01-02"));
  }

  /** The first day of that test comes before the second: they first
      differ in their last digit. */
  lemma SummaryDaysOrdered()
    ensures LexLe("2025-01-01", "2025-01-02")
  {
    LexLeFirstDifference("2025-01-01", "2025-01-02");
    assert FirstBelow("2025-01-01", "2025-01-02", 9);
  }

  /** Both records lie in the range the test asks for. */
  lemma SummaryInRange(id1: string, id2: string)
    ensures DateFilter(SummaryLedger(id1, id2), Some("2025-01-01"), Some("2025-01-02")) == SummaryLedger(id1, id2)
  {
    LexLeReflexive("2025-01-01");
    LexLeReflexive("2025-01-02");
    SummaryDaysOrdered();
    SelectAll(SummaryLedger(id1, id2), (e: Expense) => InRange(e.date, "2025-01-01", "2025-01-02"));
  }

  /** Its category totals and its overall total. */
  lemma SummaryFigures(id1: string, id2: string)
    ensures Reports.GroupTotal(SummaryLedger(id1, id2), Reports.CategoryOf, "Food") == 50.0
    ensures Reports.GroupTotal(SummaryLedger(id1, id2), Reports.CategoryOf, "Transport") == 30.0
    ensures SumAmounts(SummaryLedger(id1, id2)) == 80.0
  {
    var es := SummaryLedger(id1, id2);
    TwoRecords(es[0], es[1], Reports.CategoryOf, "Food");
    TwoRecords(es[0], es[1], Reports.CategoryOf, "Transport");
  }

  /** `test_generate_category_summary` */
  method CategorySummaryScenario(id1: string, id2: string, today: string)
    returns (food: real, transport: real, total: real)
    ensures food == 50.0 && transport == 30.0 && total == 80.0
  {
    var ledger := SummarySetup(id1, id2, today);
    var m := new BudgetManager("test_user");
    var report := new Reports.FinancialReport("test_user", ledger, m);
    var summary := report.GenerateCategorySummary(Some("2025-01-01"), Some("2025-01-02"));
    SummaryInRange(id1, id2);
    SummaryFigures(id1, id2);
    food := Tally.Get(summary.categoryTotals, "Food");
    transport := Tally.Get(summary.categoryTotals, "Transport");
    total := summary.total;
  }

  /** The calendar facts `test_generate_trend_analysis` relies on: a date
      string is never empty and begins with its month, and date strings are
      ordered as the days are. */
  ghost predicate Gregorian(cal: Reports.Calendar) {
    && (forall d :: cal.day(d) != "" && Prefix(cal.day(d), 7) == cal.month(d))
    && (forall a, b :: a <= b ==> LexLe(cal.day(a), cal.day(b)))
  }

  /** The ledger of that test: a lunch 10 days old and a dinner 45 days old. */
  function TrendLedger(id1: string, id2: string, cal: Reports.Calendar, now: int): seq<Expense> {
    [Expense(id1, 50.0, "Food", "Lunch", cal.day(now - 10), [], false, None),
     Expense(id2, 30.0, "Food", "Dinner", cal.day(now - 45), [], false, None)]
  }

  /** The lunch of that test, dated as given. */
  lemma TrendLunchRecord(id: string, today: string, date: string)
    requires date != ""
    ensures NewExpense(id, 50.0, "Food", "Lunch", Some(date), None, false, None, today)
         == Expense(id, 50.0, "Food", "Lunch", date, [], false, None)
  {
    StripFixed("Food");
    StripFixed("Lunch");
  }

  /** The dinner of that test, dated as given. */
  lemma TrendDinnerRecord(id: string, today: string, date: string)
    requires date != ""
    ensures NewExpense(id, 30.0, "Food", "Dinner", Some(date), None, false, None, today)
         == Expense(id, 30.0, "Food", "Dinner", date, [], false, None)
  {
    StripFixed("Food");
    StripFixed("Dinner");
  }

  /** The two `add_expense` calls of that test. */
  method TrendSetup(id1: string, id2: string, today: string, now: int, cal: Reports.Calendar)
    returns (ledger: ExpenseTracker)
    requires cal.day(now - 10) != "" && cal.day(now - 45) != ""
    ensures fresh(ledger) && ledger.expenses == TrendLedger(id1, id2, cal, now)
  {
    ledger := new ExpenseTracker("test_user");
    TrendLunchRecord(id1, today, cal.day(now - 10));
    TrendDinnerRecord(id2, today, cal.day(now - 45));
    var r := ledger.AddExpense(id1, today, 50.0, "Food", "Lunch", date := Some(cal.day(now - 10)));
    r := ledger.AddExpense(id2, today, 30.0, "Food", "Dinner", date := Some(cal.day(now - 45)));
  }

  /** Both records lie within the last two 30-day months. */
  lemma TrendInRange(id1: string, id2: string, cal: Reports.Calendar, now: int)
    requires Gregorian(cal)
    ensures WithinDates(TrendLedger(id1, id2, cal, now), cal.day(Reports.StartDay(now, 2)), cal.day(now))
         == TrendLedger(id1, id2, cal, now)
  {
    var start, end := cal.day(Reports.StartDay(now, 2)), cal.day(now);
    assert LexLe(start, cal.day(now - 10)) && LexLe(cal.day(now - 10), end);
    assert LexLe(start, cal.day(now - 45)) && LexLe(cal.day(now - 45), end);
    SelectAll(TrendLedger(id1, id2, cal, now), (e: Expense) => InRange(e.date, start, end));
  }

  /** Their months are the two months of the test, and the month of the
      lunch holds only the lunch. */
  lemma TrendMonths(id1: string, id2: string, cal: Reports.Calendar, now: int)
    requires Gregorian(cal) && cal.month(now - 10) != cal.month(now - 45)
    ensures Reports.KeysOf(TrendLedger(id1, id2, cal, now), Reports.MonthOf) == {cal.month(now - 10), cal.month(now - 45)}
    ensures Reports.GroupTotal(TrendLedger(id1, id2, cal, now), Reports.MonthOf, cal.month(now - 10)) == 50.0
  {
    var es := TrendLedger(id1, id2, cal, now);
    assert Reports.MonthOf(es[0]) == cal.month(now - 10) && Reports.MonthOf(es[1]) == cal.month(now - 45);
    TwoRecords(es[0], es[1], Reports.MonthOf, cal.month(now - 10));
  }

  /** `test_generate_trend_analysis`, on a calendar where two days 35 days
      apart fall in different months. */
  method TrendScenario(id1: string, id2: string, today: string, now: int, cal: Reports.Calendar)
    returns (monthly: Tally.Tally)
    requires Gregorian(cal) && cal.month(now - 10) != cal.month(now - 45)
    ensures cal.month(now - 10) in monthly.totals && cal.month(now - 45) in monthly.totals
    ensures Tally.Get(monthly, cal.month(now - 10)) == 50.0
  {
    var ledger := TrendSetup(id1, id2, today, now, cal);
    var m := new BudgetManager("test_user");
    var report := new Reports.FinancialReport("test_user", ledger, m);
    var trend := report.GenerateTrendAnalysis(now, cal, 2);
    TrendInRange(id1, id2, cal, now);
    TrendMonths(id1, id2, cal, now);
    monthly := trend.monthlyTotals;
  }

  /** The new address of `test_update_user` is accepted and stored as given. */
  lemma NewAddressAccepted()
    ensures ValidateEmail("new@example.com") && Strip("new@example.com") == "new@example.com"
  {
    assert MatchesAt("new@example.com", 3, 11);
    StripFixed("new@example.com");
  }

  /** The registration of the unit tests passes every check. */
  lemma TestRegistrationAccepted()
    ensures RegisterError(map[], "testuser", "password123", "test@example.com") == None
  {
    AcceptedEmailExample();
  }

  /** `test_register_user` and `test_authenticate_user`, with the password
      hash as a parameter that tells the two passwords apart. */
  method RegisterScenario(hash: string -> string, now: string)
    returns (stored: bool, email: string, accepted: bool, refused: bool)
    requires hash("wrongpass") != hash("password123")
    ensures stored && email == "test@example.com" && accepted && !refused
  {
    var m := new UserManager(hash);
    TestRegistrationAccepted();
    StripFixed("test@example.com");
    var r := m.RegisterUser("testuser", "password123", "test@example.com", now);
    stored := "testuser" in m.users;
    email := m.users["testuser"].email;
    accepted := m.AuthenticateUser("testuser", "password123");
    refused := m.AuthenticateUser("testuser", "wrongpass");
  }

  /** The update of `test_update_user` writes the address and merges the currency. */
  lemma NewAddressPatch(u: User, hash: string -> string)
    ensures PatchUser(u, Some("new@example.com"), None, Some(map["currency" := "EUR"]), hash)
         == Patched(u.(email := "new@example.com", preferences := u.preferences + map["currency" := "EUR"]), None)
  {
    NewAddressAccepted();
  }

  /** `test_update_user` and `test_delete_user` */
  method UpdateUserScenario(hash: string -> string, now: string)
    returns (updated: Result<bool>, user: Option<User>, removed: bool, afterDelete: Option<User>)
    ensures updated == Ok(true)
    ensures user.Some? && user.value.email == "new@example.com"
    ensures "currency" in user.value.preferences && user.value.preferences["currency"] == "EUR"
    ensures removed && afterDelete == None
  {
    var m := new UserManager(hash);
    TestRegistrationAccepted();
    var r := m.RegisterUser("testuser", "password123", "test@example.com", now);
    NewAddressPatch(m.users["testuser"], hash);
    updated := m.UpdateUser("testuser", email := Some("new@example.com"), preferences := Some(map["currency" := "EUR"]));
    user := m.GetUser("testuser");
    removed := m.DeleteUser("testuser");
    afterDelete := m.GetUser("testuser");
  }
}
