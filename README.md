# Finance tracker: a verified model of the bookkeeping core

This project models the in-memory bookkeeping of a small personal finance
tracker and proves properties of it in Dafny. It has four components:

- **Expense ledger** (`ExpenseTracker`): an ordered list of `Expense` records. It offers:
  - validated add;
  - lookup by id;
  - case-insensitive filters by category and by tag, and a filter for recurring records;
  - a total whose date range (string order) applies only when both bounds are given;
  - delete that reports whether anything was removed;
  - a field-by-field update.
- **Budget table** (`BudgetManager`): `Budget` records in a dictionary keyed by `category_period`. It offers:
  - validated set, which replaces the entry and zeroes its spending;
  - spending that fails on a missing key;
  - a status with remaining amount, over-budget flag and alert threshold;
  - reset and partial update.
- **Reports** (`FinancialReport`):
  - per-category totals over the same both-bounds-or-nothing date filter;
  - the budget statuses of one period;
  - monthly totals keyed by the first seven characters of the date, pre-seeded with zeros on a 30-day stride.
- **User registry** (`UserManager`): profiles by username. It offers:
  - ordered validation on register: empty fields, duplicate name, e-mail pattern, password length;
  - hash-compare authentication;
  - partial update;
  - delete and lookup.

Structure:

- Modules `Common` and `Text` carry the Python vocabulary the core relies on:
  - `Option` and `Result` (a call returns or raises `ValueError` with its message);
  - list comprehensions with a filter (`Select`);
  - `str.strip` over the Unicode whitespace set;
  - ASCII `lower`;
  - code-point order on strings (`LexLe`);
  - `s[:n]` and `str(n)`.
- `Tally` models the insertion-ordered dictionaries of running totals that the reports build.
- `Expenses`, `Budgets`, `Reports` and `Users` follow the four source files.
- `Scenarios` replays the unit tests as client code.

How the model is built:

- Records are datatypes. The managers are classes whose list or dictionary field the methods reassign.
- `BudgetManager` keeps the dictionary's insertion order in a separate `order` sequence.
- A call that raises part-way leaves earlier writes in place. This is modelled with `Patched(record, error)`: the record after the writes that happened, and the error raised, if any.
- Clocks, uuids and the password hash are parameters:
  - `today` and `now` stand for the clock;
  - `id` stands for a fresh uuid;
  - `hash` stands for SHA-256;
  - `Calendar` stands for the two `strftime` formats.

## Model

| member | source | states |
|---|---|---|
| Common.OrElse | finance_tracker/reports.py:32 | `x or default` on an optional string: the value when given and non-empty, the default otherwise |
| Common.Select | finance_tracker/expenses.py:77 | a comprehension is never longer than the list it filters |
| Common.SelectMembers | finance_tracker/expenses.py:77 | a comprehension keeps exactly the elements of the list that pass the filter |
| Common.SelectSnoc | finance_tracker/expenses.py:101 | filtering a list with one more element at the end appends that element iff it passes |
| Common.SelectAppend | finance_tracker/expenses.py:101 | filtering distributes over concatenation, so the comprehension keeps list order |
| Common.SelectKeepsAll | finance_tracker/expenses.py:100-102 | the filtered list is as long as the list iff every element passes, which is what `delete_expense` tests with `len` |
| Common.SelectAll | finance_tracker/expenses.py:101 | a filter every element passes returns the list itself |
| Common.SelectNone | finance_tracker/expenses.py:88 | a filter no element passes returns the empty list |
| Text.LeadingSpaces | finance_tracker/expenses.py:13 | counts exactly the whitespace run at the start of the string |
| Text.TrailingSpaces | finance_tracker/expenses.py:13 | counts exactly the whitespace run at the end of the string |
| Text.Strip | finance_tracker/expenses.py:13-14 | `str.strip` leaves no whitespace at either end and is no longer than what follows the leading whitespace; it is empty iff the input is all whitespace |
| Text.StripIsSlice | finance_tracker/expenses.py:13-14 | what `str.strip` keeps is the contiguous slice of the input that starts after the leading whitespace, and everything after that slice is whitespace |
| Text.StripShortens | finance_tracker/budgets.py:51 | a string that stripping changes loses at least one character |
| Text.StripFixed | finance_tracker/budgets.py:9 | a string without edge whitespace is its own strip |
| Text.StripIdempotent | finance_tracker/expenses.py:119 | stripping twice is stripping once, so re-written categories stay normalised |
| Text.Lower | finance_tracker/expenses.py:77 | `lower` maps a string to one of the same length |
| Text.LowerIdempotent | finance_tracker/budgets.py:11 | lower-casing twice is lower-casing once, so a stored period is already lower case |
| Text.LexLeFirstDifference | finance_tracker/expenses.py:88 | Python string `<=` (`LexLe`) holds iff the left string is a prefix of the right one or, at the first position where they differ, has the smaller code point |
| Text.LexLeReflexive | finance_tracker/expenses.py:88 | Python string `<=` is reflexive |
| Text.LexLeTransitive | finance_tracker/expenses.py:88 | Python string `<=` is transitive, so `start <= d <= end` forces `start <= end` |
| Text.LexLeAntisymmetric | finance_tracker/expenses.py:88 | Python string `<=` is antisymmetric |
| Text.Prefix | finance_tracker/reports.py:65 | `s[:n]` has length `min(len(s), n)` and is a prefix of `s` |
| Text.NatToString | finance_tracker/reports.py:70 | `str(n)` is a non-empty string of decimal digits whose value is n; it starts with `0` only when it is exactly `"0"` (no leading zero) |
| Text.IntToString | finance_tracker/reports.py:70 | `str(i)` starts with a minus sign iff i is negative; what follows the sign is a non-empty string of decimal digits, with no leading zero unless it is a single `0`, whose value is the magnitude of i |
| Tally.Empty | finance_tracker/reports.py:25 | `{}` holds no key and is a valid tally |
| Tally.Put | finance_tracker/reports.py:61 | `d[k] = v`: k now maps to v, every other key keeps its value, the key set grows by k only |
| Tally.PutValid | finance_tracker/reports.py:61 | `d[k] = v` keeps the key order free of repeats and in step with the values: an existing key keeps its place, a new one goes last |
| Tally.Add | finance_tracker/reports.py:28 | `d[k] = d.get(k, 0.0) + a`: k gains a, other keys are unchanged, the key set grows by k only |
| Tally.AddValid | finance_tracker/reports.py:28 | `d[k] = d.get(k, 0.0) + a` keeps the tally valid |
| Tally.TotalAdd | finance_tracker/reports.py:28 | after `d[k] = d.get(k, 0.0) + a` the sum of the values has grown by exactly a |
| Tally.SumOverOtherKey | finance_tracker/reports.py:34 | the sum over listed keys ignores a key that is not listed |
| Tally.SumOverUpdate | finance_tracker/reports.py:34 | overwriting a listed key moves the sum by the difference |
| Tally.TotalPut | finance_tracker/reports.py:34 | `sum(d.values())` after `d[k] = v` is the old sum minus the old value at k plus v |
| Tally.SumOverZeros | finance_tracker/reports.py:34 | values that are all zero sum to zero over any list of keys |
| Tally.TotalOfZeros | finance_tracker/reports.py:61 | a dictionary whose every key reads 0.0 has `sum(d.values()) == 0` |
| Expenses.NewExpense | finance_tracker/expenses.py:9-18 | every record the constructor builds (with today's date non-empty) is normalised: category and description carry no edge whitespace and the date is non-empty; the field values themselves are pinned by `Expenses.AddThenGet` |
| Expenses.AddExpenseError | finance_tracker/expenses.py:57-62 | add is refused iff amount ≤ 0, category or description is empty, or a recurring record has no period; amount is checked first |
| Expenses.AcceptedIsWellFormed | finance_tracker/expenses.py:57-63 | a record that passes the checks has a positive amount and, if recurring, a period |
| Expenses.BlankCategoryStoredEmpty | finance_tracker/expenses.py:57-63 | a whitespace-only category passes the raw-text check and is stored as the empty string |
| Expenses.ToDict | finance_tracker/expenses.py:20-31 | `to_dict` writes the id and amount, and always writes the date, the tags and the recurrence flag, so reading back never falls to a default |
| Expenses.FromDict | finance_tracker/expenses.py:33-44 | `from_dict` as written builds the record with a fresh id, not the stored one |
| Expenses.FromDictRoundTrip | finance_tracker/expenses.py:20-44 | reading back a written record gives every field back except the id |
| Expenses.FromDictLosesId | finance_tracker/expenses.py:33-44 | a record read back differs from the original and is not found under the original id |
| Expenses.FromDictKeepingId | finance_tracker/expenses.py:33-44 | the corrected read-back takes the stored id |
| Expenses.FromDictKeepingIdRoundTrip | finance_tracker/expenses.py:20-44 | with the stored id kept, reading back a written record gives it back whole |
| Expenses.FirstIndex | finance_tracker/expenses.py:70-73 | the position of the first record with the id, or none iff no record has it |
| Expenses.GetExpenseById | finance_tracker/expenses.py:68-73 | `get_expense_by_id` returns none iff no record has the id, and otherwise the first record that has it |
| Expenses.ExpensesByCategory | finance_tracker/expenses.py:75-77 | exactly the records whose category equals the argument ignoring case |
| Expenses.ExpensesByTag | finance_tracker/expenses.py:79-81 | exactly the records with some tag equal to the argument ignoring case |
| Expenses.RecurringExpenses | finance_tracker/expenses.py:94-96 | exactly the records flagged recurring |
| Expenses.FiltersAfterAppend | finance_tracker/expenses.py:75-96 | the three filters keep list order: an appended record comes last in every filter it passes |
| Expenses.Without | finance_tracker/expenses.py:101 | the kept records are exactly those with another id |
| Expenses.DeletedIdIsGone | finance_tracker/expenses.py:98-105 | after a delete the id is not found, and a second delete keeps every record |
| Expenses.SumAmountsAppend | finance_tracker/expenses.py:85-92 | the running total grows by the amount of each record taken |
| Expenses.WithinDatesAppend | finance_tracker/expenses.py:88 | the range filter takes an appended record iff its date is in range |
| Expenses.PartialRangeIgnored | finance_tracker/expenses.py:87-91 | with either bound missing or empty, the total covers every record |
| Expenses.InvertedRangeIsEmpty | finance_tracker/expenses.py:87-89 | a range whose start is after its end covers no record and totals 0 |
| Expenses.SingleDayRange | finance_tracker/expenses.py:88 | a range whose start and end are the same day covers exactly the records of that day |
| Expenses.RangeTotalBounded | finance_tracker/expenses.py:83-92 | with positive amounts, a range total lies between 0 and the whole ledger's total |
| Expenses.Patch | finance_tracker/expenses.py:112-125 | update writes field by field: id, date and recurrence never change; it raises iff some given field is invalid; a valid amount is written even when a later field is rejected, while a rejected update leaves description and tags unwritten; well-formedness is kept |
| Expenses.AmountWrittenBeforeCategoryRejected | finance_tracker/expenses.py:112-118 | a valid amount given with an empty category is written and then "Category cannot be empty" is raised |
| Expenses.ExpenseTracker.constructor | finance_tracker/expenses.py:48-51 | a new tracker has an empty list |
| Expenses.ExpenseTracker.AddExpense | finance_tracker/expenses.py:53-66 | on a refused add the list is unchanged and the first failing check's message is raised; otherwise exactly one record is appended and its id returned |
| Expenses.ExpenseTracker.GetTotalExpenses | finance_tracker/expenses.py:83-92 | the loop's total is the sum of the amounts of the records in range when both bounds are given, of every record otherwise |
| Expenses.ExpenseTracker.DeleteExpense | finance_tracker/expenses.py:98-105 | the records with the id are removed and the rest keep their order; the result is true iff some record had the id |
| Expenses.ExpenseTracker.UpdateExpense | finance_tracker/expenses.py:107-128 | an unknown id returns false and changes nothing; otherwise only the first record with the id is patched, and the call raises iff the patch failed |
| Expenses.AddThenGet | finance_tracker/expenses.py:53-73 | a record added under a fresh id is found as exactly the record built: its id, amount, stripped texts, date (today's when none is given), tags (`[]` when omitted), recurrence flag and period |
| Expenses.UpdateThenGet | finance_tracker/expenses.py:107-128 | after an update, lookup by the id gives the patched record |
| Budgets.NewBudget | finance_tracker/budgets.py:8-13 | a new budget keeps the amount and threshold it is given and starts with zero spending |
| Budgets.NewBudgetNormalised | finance_tracker/budgets.py:9-11 | a new budget's category has no edge whitespace and its period is already lower case |
| Budgets.KeyOf | finance_tracker/budgets.py:51 | the key `f"{category}_{period}"` is as long as both parts plus the underscore |
| Budgets.KeyOfParts | finance_tracker/budgets.py:51 | the key is the category, then an underscore, then the period |
| Budgets.KeyOfInjective | finance_tracker/budgets.py:47-51 | for accepted periods, two budgets share a key only if they have the same category and period, because no accepted period ends another |
| Budgets.PeriodsAreLowerCase | finance_tracker/budgets.py:47-52 | lower-casing an accepted period leaves it unchanged |
| Budgets.SetBudgetError | finance_tracker/budgets.py:43-50 | set is refused iff amount ≤ 0, category is empty, period is not daily/weekly/monthly/yearly, or threshold is outside [0,1]; amount is checked first |
| Budgets.AcceptedBudget | finance_tracker/budgets.py:43-52 | an accepted budget is well formed, keeps the period it was keyed by, and starts with zero spending |
| Budgets.StatusOf | finance_tracker/budgets.py:71-80 | the status echoes category, period, amount and spending; spent + remaining = budget; over budget iff remaining < 0; alert iff spent ≥ amount × threshold |
| Budgets.ThresholdScales | finance_tracker/budgets.py:49-50 | for a positive amount and a threshold in [0,1], the alert level `amount * alert_threshold` lies in [0, amount] and is 0 iff the threshold is 0 |
| Budgets.OverBudgetAlerts | finance_tracker/budgets.py:78-79 | for a well-formed budget, over budget implies alert, and with nothing spent the alert is on iff the threshold is 0 |
| Budgets.PatchBudget | finance_tracker/budgets.py:101-108 | update never changes category, period or spending; it raises iff a given value is invalid; a valid amount is written even when the threshold is rejected; well-formedness is kept |
| Budgets.AmountWrittenBeforeThresholdRejected | finance_tracker/budgets.py:101-107 | a valid amount given with an out-of-range threshold is written and then the threshold error is raised |
| Budgets.StatusExample | finance_tracker/tests/test_budgets.py:38-44 | 170 spent of 200 at threshold 0.8 leaves 30, triggers the alert and is not over budget |
| Budgets.PaddedCategoryHasNoStatus | finance_tracker/budgets.py:51-70 | a budget set with whitespace around its category is keyed by the raw text, so looking up its stored category finds no budget |
| Budgets.StoreKeepsTable | finance_tracker/budgets.py:62 | overwriting an existing key with a well-formed budget keeps the key order and the table valid |
| Budgets.AppendKeepsTable | finance_tracker/budgets.py:52 | storing a well-formed budget under a new key, with the key appended to the order, keeps the table valid |
| Budgets.StoreKeepsKeysMatch | finance_tracker/budgets.py:51-52 | storing a budget under the key built from its own category and period keeps every entry under its own key |
| Budgets.BudgetManager.constructor | finance_tracker/budgets.py:34-38 | a new manager has an empty table |
| Budgets.BudgetManager.SetBudget | finance_tracker/budgets.py:40-53 | on refusal nothing changes; otherwise the entry at `category_period` becomes the budget the constructor builds, other keys are unchanged, a new key goes last in the order, and a category without edge whitespace keeps every entry under its own key |
| Budgets.BudgetManager.AddSpending | finance_tracker/budgets.py:55-63 | amount ≤ 0 raises first, then a missing key raises its message; otherwise only that entry's spending grows, by exactly the amount |
| Budgets.BudgetManager.GetBudgetStatus | finance_tracker/budgets.py:65-80 | an error-only result iff the key is missing, and otherwise the status figures of the entry |
| Budgets.BudgetManager.GetAllBudgets | finance_tracker/budgets.py:82-84 | one entry per key in key order, and exactly the budgets in the table |
| Budgets.BudgetManager.ResetBudget | finance_tracker/budgets.py:86-93 | true iff the key exists, in which case only that entry's spending becomes 0; otherwise nothing changes |
| Budgets.BudgetManager.UpdateBudget | finance_tracker/budgets.py:95-110 | a missing key returns false and changes nothing; otherwise the entry is patched in place, and the call raises iff the patch failed |
| Reports.GroupTotalIsFilteredSum | finance_tracker/reports.py:26-28 | the amounts a key collects are the sum over the comprehension of the records with that key |
| Reports.KeysOfMembers | finance_tracker/reports.py:26-28 | a key is collected iff some record has it |
| Reports.AccumulatedValid | finance_tracker/reports.py:26-28 | adding the records one by one keeps the dictionary valid |
| Reports.AccumulatedGet | finance_tracker/reports.py:26-28 | after adding the records each key holds its starting value plus the amounts of its own records |
| Reports.AccumulatedKeys | finance_tracker/reports.py:26-28 | the keys after adding the records are the starting keys plus the keys of the records |
| Reports.AccumulatedTotal | finance_tracker/reports.py:26-34 | the values sum to the starting sum plus the amounts of all records |
| Reports.Accumulate | finance_tracker/reports.py:26-28 | the loop computes the tally the records build one by one: each key holds its starting value plus its group's amounts, the key set grows by exactly the keys of the records, and the values sum to the start plus all amounts |
| Reports.SeedKeysMembers | finance_tracker/reports.py:59-61 | a month is seeded iff one of the 30-day steps falls in it |
| Reports.SeededValid | finance_tracker/reports.py:57-62 | the seeded dictionary is valid |
| Reports.SeededGet | finance_tracker/reports.py:61 | every key of the seeded dictionary reads 0.0 |
| Reports.SeededTotal | finance_tracker/reports.py:57-62 | the seeded values sum to zero |
| Reports.SeededKeys | finance_tracker/reports.py:57-62 | the seeded keys are exactly the months of the steps |
| Reports.SeedMonths | finance_tracker/reports.py:57-62 | the loop terminates after `months + 1` steps of 30 days (none for negative `months`) and stores the month of each step at zero |
| Reports.SeededThenAccumulated | finance_tracker/reports.py:57-66 | adding the records to the seeded months gives a valid dictionary whose keys are the seeded months plus the records' months, where each month holds its records' amounts and the values sum to all the amounts |
| Reports.CompareBudgets | finance_tracker/reports.py:40-45 | the loop keeps one status per listed budget of the period, in list order, each looked up by that budget's category |
| Reports.MonthOf | finance_tracker/reports.py:65 | the month key `date[:7]` is a prefix of the date, seven characters long unless the date is shorter |
| Reports.FinancialReport.constructor | finance_tracker/reports.py:12-15 | the report keeps the user id, ledger and budget table it is given |
| Reports.FinancialReport.GenerateCategorySummary | finance_tracker/reports.py:19-35 | the keys are exactly the (case-sensitive) categories of the filtered records; each value is its category's amount total; `total` is the sum of the values and equals the ledger total over the same filter; `period` is built with `or 'all'` |
| Reports.FinancialReport.GenerateBudgetComparison | finance_tracker/reports.py:37-45 | in table order, one status per budget of the period, looked up by the stored category; when every key matches its entry, each is that budget's own status |
| Reports.FinancialReport.GenerateTrendAnalysis | finance_tracker/reports.py:47-72 | the monthly totals are the seeded months with the records dated in `[start, now]` added: keys are the months of the `months + 1` steps plus the `date[:7]` of those records, each month holds its records' amounts, and the values sum to their total; `period` is `"{months} months"` |
| Reports.ComparisonFindsEveryBudget | finance_tracker/reports.py:41-44 | when every key matches its entry, looking up a listed budget by its stored category finds that budget |
| Users.IndexOf | finance_tracker/users.py:48 | the first position of a character, or none iff it does not occur |
| Users.LastIndexOf | finance_tracker/users.py:48 | the last position of a character, or none iff it does not occur |
| Users.EmailShapeIsPattern | finance_tracker/users.py:48 | splitting at the first `@` and the last `.` accepts exactly the words of the pattern |
| Users.ValidateEmail | finance_tracker/users.py:46-49 | true iff the address is a word of the pattern, or such a word followed by one newline (the `$` of `re.match`) |
| Users.AcceptedEmailExample | finance_tracker/tests/test_users.py:13-15 | "test@example.com" is accepted |
| Users.RejectedEmailExample | finance_tracker/tests/test_users.py:22-23 | "invalid_email" is rejected |
| Users.TrailingNewlineAccepted | finance_tracker/users.py:48-49 | "a@b.cd" followed by a newline is accepted |
| Users.StoredEmailMatches | finance_tracker/users.py:57-61 | an accepted address, once stripped as the profile stores it, is a word of the pattern |
| Users.PatternHasNoEdgeSpace | finance_tracker/users.py:48 | a word of the pattern starts and ends with non-whitespace |
| Users.StripDropsNewline | finance_tracker/users.py:13 | stripping a trimmed word followed by a newline drops only the newline |
| Users.NewUser | finance_tracker/users.py:10-15 | a new profile stores the hash of the password, never the password, and the default preferences |
| Users.RegisterError | finance_tracker/users.py:53-60 | register is refused iff a field is empty, the name exists, the address fails the pattern, or the password is shorter than 8; each failure raises its own message, in that order |
| Users.RegisterErrorExamples | finance_tracker/tests/test_users.py:17-23 | the test's three bad registrations fail on the empty name, the short password and the bad address |
| Users.PatchUser | finance_tracker/users.py:78-87 | update never changes the name or creation time; it raises iff the address or password is invalid; a valid address is written even when the password is rejected; preferences are merged key by key |
| Users.EmailWrittenBeforePasswordRejected | finance_tracker/users.py:78-84 | a valid address given with a short password is written and then the password error is raised |
| Users.NewUserFits | finance_tracker/users.py:10-15 | a registered profile holds its stripped name and an address of the pattern |
| Users.PatchKeepsFit | finance_tracker/users.py:78-87 | updating a profile keeps its stripped name and an address of the pattern |
| Users.StoreKeepsRegistry | finance_tracker/users.py:61 | storing a profile that fits its name keeps every profile fitting the key it is stored under |
| Users.NewKeyCounts | finance_tracker/users.py:61 | storing under a new name adds exactly one profile |
| Users.UserManager.constructor | finance_tracker/users.py:41-44 | a new manager has no users |
| Users.UserManager.RegisterUser | finance_tracker/users.py:51-63 | on refusal nothing changes; otherwise exactly one profile is added under the name, and afterwards a password authenticates iff its hash equals the registered password's |
| Users.UserManager.AuthenticateUser | finance_tracker/users.py:65-70 | true iff the profile `get_user` finds holds the hash of the password |
| Users.UserManager.UpdateUser | finance_tracker/users.py:72-89 | an unknown user returns false and changes nothing; otherwise the profile is patched in place, the call raises iff the patch failed, and after a successful password change exactly the passwords with the new hash authenticate |
| Users.UserManager.DeleteUser | finance_tracker/users.py:91-97 | true iff the user existed; only that profile is removed, and `get_user` then returns none |
| Users.UserManager.GetUser | finance_tracker/users.py:99-102 | none iff the name is unknown, otherwise the stored profile |
| Scenarios.GroceryRecord | finance_tracker/tests/test_expenses.py:13-19 | the record `test_add_valid_expense` adds keeps its category, description and tags as given and takes today's date |
| Scenarios.AddExpenseScenario | finance_tracker/tests/test_expenses.py:13-19 | after one add the ledger holds one record, found by its id with amount 50, category "Food" and tags ["essentials"] |
| Scenarios.SingleRecordFound | finance_tracker/tests/test_expenses.py:16-19 | a ledger of one record finds that record by its id |
| Scenarios.DinnerPatch | finance_tracker/tests/test_expenses.py:56-59 | the update of `test_update_expense` writes amount 75 and description "Dinner" and raises nothing |
| Scenarios.LunchRecord | finance_tracker/tests/test_expenses.py:55 | the record `test_update_expense` adds is stored with its texts as given and no tags |
| Scenarios.UpdateExpenseScenario | finance_tracker/tests/test_expenses.py:54-60 | the update returns true and the record then has amount 75 and description "Dinner"; updating an unknown id returns false |
| Scenarios.DeleteExpenseScenario | finance_tracker/tests/test_expenses.py:48-52 | deleting the added record returns true and it is no longer found; deleting an unknown id returns false |
| Scenarios.BudgetStatusScenario | finance_tracker/tests/test_budgets.py:38-44 | 170 spent of a 200 budget at threshold 0.8 reports 30 remaining, the alert on and not over budget |
| Scenarios.FoodBudgetAccepted | finance_tracker/tests/test_reports.py:28 | the monthly food budget of 200 at the default threshold passes every check of `set_budget` |
| Scenarios.FoodBudgetStored | finance_tracker/tests/test_reports.py:28 | that budget is stored as given with nothing spent |
| Scenarios.FoodBudgetWithSpending | finance_tracker/tests/test_reports.py:28-29 | after `set_budget("Food", 200.0)` and `add_spending("Food", 150.0)` the table holds only `Food_monthly`, with 150 spent |
| Scenarios.OneMonthlyBudgetCompared | finance_tracker/tests/test_reports.py:30-31 | a table holding only the monthly food budget lists exactly that budget for the monthly period |
| Scenarios.BudgetComparisonScenario | finance_tracker/tests/test_reports.py:27-32 | the comparison holds one status, with 50 remaining |
| Scenarios.TwoRecords | finance_tracker/reports.py:25-34 | on a ledger of two records, a key's total is the amounts of the records with that key, the keys are the two records' keys, and the sum is both amounts |
| Scenarios.SummaryFoodRecord | finance_tracker/tests/test_reports.py:20 | the food record of `test_generate_category_summary` is stored with the date it is given |
| Scenarios.SummaryTransportRecord | finance_tracker/tests/test_reports.py:21 | the transport record of that test is stored with the date it is given |
| Scenarios.SummarySetup | finance_tracker/tests/test_reports.py:20-21 | the two adds leave exactly those two records in the ledger |
| Scenarios.SummaryDaysOrdered | finance_tracker/tests/test_reports.py:22 | "2025-01-01" <= "2025-01-02" in Python string order |
| Scenarios.SummaryInRange | finance_tracker/tests/test_reports.py:22 | the range the test asks for covers both records |
| Scenarios.SummaryFigures | finance_tracker/tests/test_reports.py:23-25 | Food totals 50, Transport 30, and the whole is 80 |
| Scenarios.CategorySummaryScenario | finance_tracker/tests/test_reports.py:19-25 | the summary reports Food 50, Transport 30 and a total of 80 |
| Scenarios.TrendLunchRecord | finance_tracker/tests/test_reports.py:37 | the lunch of `test_generate_trend_analysis` is stored with the date it is given |
| Scenarios.TrendDinnerRecord | finance_tracker/tests/test_reports.py:38 | the dinner of that test is stored with the date it is given |
| Scenarios.TrendSetup | finance_tracker/tests/test_reports.py:35-38 | the two adds leave exactly the lunch and the dinner in the ledger |
| Scenarios.TrendInRange | finance_tracker/tests/test_reports.py:39 | both records lie in the range of a two-month trend |
| Scenarios.TrendMonths | finance_tracker/tests/test_reports.py:40-42 | the records' months are the two months of the test, and the lunch's month totals 50 |
| Scenarios.TrendScenario | finance_tracker/tests/test_reports.py:34-42 | both months are keys of the trend, and the month of the lunch holds 50 |
| Scenarios.NewAddressAccepted | finance_tracker/tests/test_users.py:34-37 | "new@example.com" passes the pattern and is stored unchanged |
| Scenarios.TestRegistrationAccepted | finance_tracker/tests/test_users.py:13 | the registration of the unit tests passes every check on an empty registry |
| Scenarios.RegisterScenario | finance_tracker/tests/test_users.py:12-29 | the registered user is stored with address "test@example.com", "password123" authenticates and "wrongpass" does not |
| Scenarios.NewAddressPatch | finance_tracker/tests/test_users.py:34-38 | the update of `test_update_user` writes the new address, merges the currency, and raises nothing |
| Scenarios.UpdateUserScenario | finance_tracker/tests/test_users.py:31-44 | the update returns true, the profile then has the new address and currency "EUR", and after the delete the user is gone |

## Left out

- File persistence is not modelled: `_save_to_file`, `load_from_file`, `_load_from_file`, `_save_users`, `_load_users` and the JSON calls. Saving is I/O, and the constructors start empty instead of loading. The budget reload re-keys entries from the stored, stripped category; that is part of the persistence left out. `User.from_dict` belongs to loading and is left out as well.
- `generate_report_pdf`, `plot_category_distribution` and the report directory the report constructor creates: file writes and plotting.
- `finance_tracker/cli.py`: an interactive shell of printing and argument parsing.
- `IncomeTracker`, `get_net_balance` and `generate_income_summary`: `finance_tracker/income.py` is not part of this model.
- Amounts, spending and thresholds are real numbers. Floating-point rounding, and `float(amount)` on non-numeric input, are not modelled.
- SHA-256 is a function parameter of `UserManager`, so authentication can only be stated relative to hash equality. uuid4 is an `id` argument; the caller supplies fresh ids.
- `datetime.now()` is a parameter: `today` for expenses, `now` for registration and the trend analysis. In the trend analysis, dates are day numbers and `Calendar.day`/`Calendar.month` stand for `strftime("%Y-%m-%d")` and `strftime("%Y-%m")`. Time of day does not affect which seeding steps are at or before now, because every step is a whole number of days from now.
- Text.Lower: lower-cases ASCII letters only, not the full Unicode case mapping of `str.lower`.
- The records the lookups and filters return are the records themselves rather than `to_dict` copies; `ToDict` models the copy.
- The order of preference keys after `preferences.update` is not modelled; preferences are a map of strings to strings.
- Aliasing is not modelled. An expense stores the caller's `tags` list itself (at construction and on update), and `to_dict` hands out that same list; a user's `to_dict` hands out its `preferences` dictionary itself. Records here are values, so a later change to such a list or dictionary through another reference does not reach the stored record.
- Scenarios.TrendScenario: the calendar facts the test relies on are preconditions about `cal`, not proved of a real calendar. They are: a date string is non-empty and starts with its month; date strings are ordered as the days are; days 10 and 45 before now fall in different months.
- Reports.FinancialReport.GenerateCategorySummary: does not state the insertion order of the category keys, only the key set and the values.
- Reports.FinancialReport.GenerateTrendAnalysis: datetime's year range (1 to 9999) is not modelled, because day numbers are unbounded integers. So the model returns a trend where `end_date - timedelta(days=30 * months)` at reports.py:50 raises OverflowError (from 2026, any `months` above about 24,660), and where the 30-day step at reports.py:62 would pass year 9999.
- Reports.FinancialReport.GenerateTrendAnalysis: the order of the month keys is fixed by its ensures, which equates the result with `Accumulated(Seeded(..), ..)`, a dict built key by key; but no lemma states that order directly (the seeded months first, oldest first, then any month seen only on a record, in record order). `SeededKeys` and `AccumulatedKeys` give the key sets only.
- Budgets.BudgetManager.GetAllBudgets: returns the `Budget` records rather than their `to_dict` dictionaries.

## Findings

| source | as written | input that shows it | evidently intended | confidence | as-written member | corrected member |
|---|---|---|---|---|---|---|
| finance_tracker/expenses.py:33-44 | `from_dict` calls the constructor, which draws a new uuid4 and ignores `data["id"]` | a record added with id X, saved and loaded back, gets a fresh id Y ≠ X, so `get_expense_by_id(X)` returns None after reload | the stored id is restored, so ids returned by `add_expense` stay valid across reloads | medium, not executed | Expenses.FromDictLosesId | Expenses.FromDictKeepingIdRoundTrip |
