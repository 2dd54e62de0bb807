/** The expense ledger of `finance_tracker/expenses.py`: the `Expense` record
    and `ExpenseTracker`, an ordered list of records for one user. */
module Expenses {
  import opened Common
  import opened Text

  /** One expense entry. */
  datatype Expense = Expense(
    id: string,
    amount: real,
    category: string,
    description: string,
    date: string,
    tags: seq<string>,
    isRecurring: bool,
    recurrencePeriod: Option<string>)

  /** Fields as the constructor leaves them: stripped text and a non-empty date. */
  predicate Normalised(e: Expense) {
    Strip(e.category) == e.category && Strip(e.description) == e.description && e.date != ""
  }

  /** What every record added or updated through the tracker satisfies. */
  predicate WellFormed(e: Expense) {
    e.amount > 0.0 && (e.isRecurring ==> Given(e.recurrencePeriod))
  }

  /** `Expense(...)`: `id` stands for the fresh uuid4 and `today` for the
      clock's date, used when no date is given. */
  function NewExpense(id: string, amount: real, category: string, description: string,
                      date: Option<string>, tags: Option<seq<string>>, isRecurring: bool,
                      recurrencePeriod: Option<string>, today: string): (e: Expense)
    ensures today != "" ==> Normalised(e)
  {
    StripIdempotent(category);
    StripIdempotent(description);
    Expense(id, amount, Strip(category), Strip(description), OrElse(date, today),
            tags.GetOr([]), isRecurring, recurrencePeriod)
  }

  /** The checks `add_expense` makes before it appends, in the order it makes them. */
  function AddExpenseError(amount: real, category: string, description: string,
                           isRecurring: bool, recurrencePeriod: Option<string>): (err: Option<Error>)
    ensures err.None? <==>
      amount > 0.0 && category != "" && description != "" && (isRecurring ==> Given(recurrencePeriod))
    ensures amount <= 0.0 ==> err == Some(ValueError("Amount must be positive"))
  {
    if amount <= 0.0 then Some(ValueError("Amount must be positive"))
    else if category == "" || description == "" then
      Some(ValueError("Category and description cannot be empty"))
    else if isRecurring && !Given(recurrencePeriod) then
      Some(ValueError("Recurring expenses must specify a period"))
    else None
  }

  /** A record accepted by `add_expense` is well formed. */
  lemma AcceptedIsWellFormed(id: string, amount: real, category: string, description: string,
                             date: Option<string>, tags: Option<seq<string>>, isRecurring: bool,
                             recurrencePeriod: Option<string>, today: string)
    requires AddExpenseError(amount, category, description, isRecurring, recurrencePeriod).None?
    ensures WellFormed(NewExpense(id, amount, category, description, date, tags, isRecurring, recurrencePeriod, today))
  {
  }

  /** Validation looks at the raw text, storage at the stripped text: a
      category made only of spaces is accepted and stored empty. */
  lemma BlankCategoryStoredEmpty(id: string, today: string)
    ensures AddExpenseError(10.0, "  ", "Lunch", false, None).None?
    ensures NewExpense(id, 10.0, "  ", "Lunch", None, None, false, None, today).category == ""
  {
    var blank := "  ";
    assert forall k :: 0 <= k < |blank| ==> IsSpace(blank[k]);
  }

  // ---------------------------------------------------------------------------
  // Serialisation (`to_dict` / `from_dict`)

  /** The dictionary form of a record. In data read back, `date` may be null
      and `tags`, `is_recurring` and `recurrence_period` may be missing or null
      (all of these are `None` here). */
  datatype ExpenseDict = ExpenseDict(
    id: string,
    amount: real,
    category: string,
    description: string,
    date: Option<string>,
    tags: Option<seq<string>>,
    isRecurring: Option<bool>,
    recurrencePeriod: Option<string>)

  /** `Expense.to_dict`: the id and every optional key are written, so reading
      the dictionary back never falls to a default (today's date, no tags,
      not recurring). */
  function ToDict(e: Expense): (d: ExpenseDict)
    ensures d.id == e.id && d.amount == e.amount
    ensures d.date == Some(e.date) && d.tags == Some(e.tags) && d.isRecurring == Some(e.isRecurring)
  {
    ExpenseDict(e.id, e.amount, e.category, e.description, Some(e.date), Some(e.tags),
                Some(e.isRecurring), e.recurrencePeriod)
  }

  /** `Expense.from_dict` as written: it goes through the constructor, which
      draws a fresh id (`freshId`) and ignores `data["id"]`. */
  function FromDict(d: ExpenseDict, freshId: string, today: string): (e: Expense)
    ensures e.id == freshId
  {
    NewExpense(freshId, d.amount, d.category, d.description, d.date, d.tags,
               d.isRecurring.GetOr(false), d.recurrencePeriod, today)
  }

  /** Reading back a written record gives every field back except the id. */
  lemma FromDictRoundTrip(e: Expense, freshId: string, today: string)
    requires Normalised(e)
    ensures FromDict(ToDict(e), freshId, today) == e.(id := freshId)
  {
  }

  /** So a record read back no longer answers to the id `add_expense` returned. */
  lemma FromDictLosesId(e: Expense, freshId: string, today: string)
    requires Normalised(e) && freshId != e.id
    ensures FromDict(ToDict(e), freshId, today) != e
    ensures GetExpenseById([FromDict(ToDict(e), freshId, today)], e.id).None?
  {
  }

  /** `from_dict` keeping the stored id, as the round trip needs. */
  function FromDictKeepingId(d: ExpenseDict, today: string): (e: Expense)
    ensures e.id == d.id
  {
    NewExpense(d.id, d.amount, d.category, d.description, d.date, d.tags,
               d.isRecurring.GetOr(false), d.recurrencePeriod, today)
  }

  /** With the stored id kept, reading back a written record gives it back whole. */
  lemma FromDictKeepingIdRoundTrip(e: Expense, today: string)
    requires Normalised(e)
    ensures FromDictKeepingId(ToDict(e), today) == e
  {
  }

  // ---------------------------------------------------------------------------
  // Queries over the list of records

  /** The position of the first record with the given id. */
  function FirstIndex(es: seq<Expense>, id: string): (k: Option<nat>)
    ensures k.None? <==> forall i :: 0 <= i < |es| ==> es[i].id != id
    ensures k.Some? ==> k.value < |es| && es[k.value].id == id
    ensures k.Some? ==> forall i :: 0 <= i < k.value ==> es[i].id != id
  {
    if es == [] then None
    else if es[0].id == id then Some(0)
    else
      match FirstIndex(es[1..], id)
      case None => None
      case Some(k) => Some(k + 1)
  }

  /** `get_expense_by_id`: the first record with that id, or `None`. */
  function GetExpenseById(es: seq<Expense>, id: string): (r: Option<Expense>)
    ensures r.None? <==> forall i :: 0 <= i < |es| ==> es[i].id != id
    ensures r.Some? ==> r.value.id == id
    ensures r.Some? ==> exists i :: 0 <= i < |es| && es[i] == r.value && forall j :: 0 <= j < i ==> es[j].id != id
  {
    match FirstIndex(es, id)
    case None => None
    case Some(k) => Some(es[k])
  }

  /** `get_expenses_by_category`: the records whose category matches ignoring case. */
  function ExpensesByCategory(es: seq<Expense>, category: string): (r: seq<Expense>)
    ensures forall e :: e in r <==> e in es && SameIgnoringCase(e.category, category)
  {
    SelectMembers(es, (e: Expense) => SameIgnoringCase(e.category, category));
    Select(es, (e: Expense) => SameIgnoringCase(e.category, category))
  }

  /** Some tag of `e` matches `tag` ignoring case. */
  predicate HasTag(e: Expense, tag: string) {
    exists i :: 0 <= i < |e.tags| && SameIgnoringCase(e.tags[i], tag)
  }

  /** `get_expenses_by_tag`: the records with a tag that matches ignoring case. */
  function ExpensesByTag(es: seq<Expense>, tag: string): (r: seq<Expense>)
    ensures forall e :: e in r <==> e in es && HasTag(e, tag)
  {
    SelectMembers(es, (e: Expense) => HasTag(e, tag));
    Select(es, (e: Expense) => HasTag(e, tag))
  }

  /** `get_recurring_expenses` */
  function RecurringExpenses(es: seq<Expense>): (r: seq<Expense>)
    ensures forall e :: e in r <==> e in es && e.isRecurring
  {
    SelectMembers(es, (e: Expense) => e.isRecurring);
    Select(es, (e: Expense) => e.isRecurring)
  }

  /** The filters keep list order: a record appended to the ledger comes last
      in every filter it passes. */
  lemma {:induction false} FiltersAfterAppend(es: seq<Expense>, e: Expense, category: string, tag: string)
    ensures ExpensesByCategory(es + [e], category)
         == ExpensesByCategory(es, category) + (if SameIgnoringCase(e.category, category) then [e] else [])
    ensures ExpensesByTag(es + [e], tag) == ExpensesByTag(es, tag) + (if HasTag(e, tag) then [e] else [])
    ensures RecurringExpenses(es + [e]) == RecurringExpenses(es) + (if e.isRecurring then [e] else [])
  {
    assert (es + [e])[..|es|] == es;
  }

  /** The records `delete_expense` keeps. */
  function Without(es: seq<Expense>, id: string): (r: seq<Expense>)
    ensures forall e :: e in r <==> e in es && e.id != id
  {
    SelectMembers(es, (e: Expense) => e.id != id);
    Select(es, (e: Expense) => e.id != id)
  }

  /** Once deleted, an id is gone: lookup fails and a second delete removes nothing. */
  lemma DeletedIdIsGone(es: seq<Expense>, id: string)
    ensures GetExpenseById(Without(es, id), id).None?
    ensures Without(Without(es, id), id) == Without(es, id)
  {
    var r := Without(es, id);
    assert forall i :: 0 <= i < |r| ==> r[i] in r;
    SelectKeepsAll(r, (e: Expense) => e.id != id);
    var rr := Without(r, id);
    assert |rr| == |r|;
    SelectAll(r, (e: Expense) => e.id != id);
  }

  // ---------------------------------------------------------------------------
  // Totals

  /** The amounts added up in list order. */
  function SumAmounts(es: seq<Expense>): real {
    if es == [] then 0.0 else SumAmounts(es[..|es| - 1]) + es[|es| - 1].amount
  }

  lemma SumAmountsAppend(es: seq<Expense>, e: Expense)
    ensures SumAmounts(es + [e]) == SumAmounts(es) + e.amount
  {
    assert (es + [e])[..|es|] == es;
  }

  /** `start <= date <= end`, Python string order. */
  predicate InRange(date: string, start: string, end: string) {
    LexLe(start, date) && LexLe(date, end)
  }

  /** `[exp for exp in expenses if start <= exp.date <= end]` */
  function WithinDates(es: seq<Expense>, start: string, end: string): seq<Expense> {
    Select(es, (e: Expense) => InRange(e.date, start, end))
  }

  lemma WithinDatesAppend(es: seq<Expense>, e: Expense, start: string, end: string)
    ensures WithinDates(es + [e], start, end)
         == WithinDates(es, start, end) + (if InRange(e.date, start, end) then [e] else [])
  {
    assert (es + [e])[..|es|] == es;
  }

  /** A range of one day covers exactly the records of that day. */
  lemma SingleDayRange(es: seq<Expense>, day: string)
    ensures forall e :: e in WithinDates(es, day, day) <==> e in es && e.date == day
  {
    SelectMembers(es, (e: Expense) => InRange(e.date, day, day));
    LexLeReflexive(day);
    forall e | e in es && InRange(e.date, day, day)
      ensures e.date == day
    {
      LexLeAntisymmetric(day, e.date);
    }
  }

  /** The records a total or a category summary covers: the inclusive date
      range when both bounds are given (non-empty), every record otherwise. */
  function DateFilter(es: seq<Expense>, start: Option<string>, end: Option<string>): seq<Expense> {
    if Given(start) && Given(end) then WithinDates(es, start.value, end.value) else es
  }

  /** A bound on its own is ignored: the whole ledger is covered. */
  lemma PartialRangeIgnored(es: seq<Expense>, start: Option<string>, end: Option<string>)
    requires !Given(start) || !Given(end)
    ensures DateFilter(es, start, end) == es
    ensures SumAmounts(DateFilter(es, start, end)) == SumAmounts(es)
  {
  }

  /** A range whose start comes after its end covers nothing. */
  lemma InvertedRangeIsEmpty(es: seq<Expense>, start: string, end: string)
    requires start != "" && end != "" && !LexLe(start, end)
    ensures DateFilter(es, Some(start), Some(end)) == []
    ensures SumAmounts(DateFilter(es, Some(start), Some(end))) == 0.0
  {
    forall i | 0 <= i < |es|
      ensures !InRange(es[i].date, start, end)
    {
      if InRange(es[i].date, start, end) {
        LexLeTransitive(start, es[i].date, end);
      }
    }
    SelectNone(es, (e: Expense) => InRange(e.date, start, end));
  }

  /** With positive amounts, the total over a range lies between zero and the
      total over the whole ledger. */
  lemma {:induction false} RangeTotalBounded(es: seq<Expense>, start: string, end: string)
    requires forall i :: 0 <= i < |es| ==> WellFormed(es[i])
    ensures 0.0 <= SumAmounts(WithinDates(es, start, end)) <= SumAmounts(es)
  {
    if es != [] {
      var init := es[..|es| - 1];
      assert forall i :: 0 <= i < |init| ==> init[i] == es[i];
      RangeTotalBounded(init, start, end);
      var kept := WithinDates(init, start, end);
      var last := es[|es| - 1];
      if InRange(last.date, start, end) {
        assert WithinDates(es, start, end) == kept + [last];
        assert (kept + [last])[..|kept|] == kept;
      } else {
        assert WithinDates(es, start, end) == kept;
      }
    }
  }

  // ---------------------------------------------------------------------------
  // Field-by-field update

  /** The writes of `update_expense` on one record, in source order: each
      given field is checked and then written, so a rejected field leaves the
      fields before it written and the fields after it untouched. */
  function Patch(e: Expense, amount: Option<real>, category: Option<string>,
                 description: Option<string>, tags: Option<seq<string>>): (p: Patched<Expense>)
    ensures p.record.id == e.id && p.record.date == e.date
    ensures p.record.isRecurring == e.isRecurring && p.record.recurrencePeriod == e.recurrencePeriod
    ensures p.error.None? <==>
      (amount.None? || amount.value > 0.0) && category != Some("") && description != Some("")
    ensures p.record.amount == if amount.Some? && amount.value > 0.0 then amount.value else e.amount
    ensures p.record.category
         == if (amount.Some? && amount.value <= 0.0) || category.None? || category == Some("") then e.category
            else Strip(category.value)
    ensures p.error.None? ==>
      && p.record.description == (if description.Some? then Strip(description.value) else e.description)
      && p.record.tags == (if tags.Some? then tags.value else e.tags)
    ensures p.error.Some? ==> p.record.description == e.description && p.record.tags == e.tags
    ensures WellFormed(e) ==> WellFormed(p.record)
  {
    if amount.Some? && amount.value <= 0.0 then
      Patched(e, Some(ValueError("Amount must be positive")))
    else
      var e1 := if amount.Some? then e.(amount := amount.value) else e;
      if category.Some? && category.value == "" then
        Patched(e1, Some(ValueError("Category cannot be empty")))
      else
        var e2 := if category.Some? then e1.(category := Strip(category.value)) else e1;
        if description.Some? && description.value == "" then
          Patched(e2, Some(ValueError("Description cannot be empty")))
        else
          var e3 := if description.Some? then e2.(description := Strip(description.value)) else e2;
          Patched(if tags.Some? then e3.(tags := tags.value) else e3, None)
  }

  /** A valid new amount is written even when the category given with it is rejected. */
  lemma AmountWrittenBeforeCategoryRejected(e: Expense, a: real, description: Option<string>, tags: Option<seq<string>>)
    requires a > 0.0
    ensures Patch(e, Some(a), Some(""), description, tags).error == Some(ValueError("Category cannot be empty"))
    ensures Patch(e, Some(a), Some(""), description, tags).record == e.(amount := a)
  {
  }

  // ---------------------------------------------------------------------------
  // The tracker

  class ExpenseTracker {
    const userId: string
    var expenses: seq<Expense>

    /** Every stored record is well formed. */
    ghost predicate Valid()
      reads this
    {
      forall i :: 0 <= i < |expenses| ==> WellFormed(expenses[i])
    }

    /** `ExpenseTracker(user_id)` starts empty; it does not read the file. */
    constructor (userId: string)
      ensures this.userId == userId && expenses == [] && Valid()
    {
      this.userId := userId;
      expenses := [];
    }

    /** `add_expense`: all checks run before the append; on success the new
        record goes last and its id is returned. */
    method AddExpense(id: string, today: string, amount: real, category: string, description: string,
                      date: Option<string> := None, tags: Option<seq<string>> := None,
                      isRecurring: bool := false, recurrencePeriod: Option<string> := None)
      returns (r: Result<string>)
      requires Valid()
      modifies this
      ensures Valid()
      ensures var err := AddExpenseError(amount, category, description, isRecurring, recurrencePeriod);
        && (err.Some? ==> r == Raised(err.value) && expenses == old(expenses))
        && (err.None? ==>
              && r == Ok(id)
              && expenses == old(expenses) + [NewExpense(id, amount, category, description, date, tags,
                                                         isRecurring, recurrencePeriod, today)])
    {
      var err := AddExpenseError(amount, category, description, isRecurring, recurrencePeriod);
      if err.Some? {
        return Raised(err.value);
      }
      var expense := NewExpense(id, amount, category, description, date, tags, isRecurring, recurrencePeriod, today);
      expenses := expenses + [expense];
      r := Ok(id);
    }

    /** `get_total_expenses`: the loop checks each record against the range
        only when both bounds are given. */
    method GetTotalExpenses(start: Option<string> := None, end: Option<string> := None) returns (total: real)
      ensures total == SumAmounts(DateFilter(expenses, start, end))
    {
      total := 0.0;
      for i := 0 to |expenses|
        invariant total == SumAmounts(DateFilter(expenses[..i], start, end))
      {
        var expense := expenses[i];
        ghost var done := expenses[..i];
        assert expenses[..i + 1] == done + [expense];
        if Given(start) && Given(end) {
          WithinDatesAppend(done, expense, start.value, end.value);
          ghost var kept := WithinDates(done, start.value, end.value);
          if InRange(expense.date, start.value, end.value) {
            SumAmountsAppend(kept, expense);
            total := total + expense.amount;
          } else {
            assert kept + [] == kept;
          }
        } else {
          SumAmountsAppend(done, expense);
          total := total + expense.amount;
        }
      }
      assert expenses[..|expenses|] == expenses;
    }

    /** `delete_expense`: drops every record with that id, keeps the others in
        order, and reports whether anything was removed. */
    method DeleteExpense(id: string) returns (removed: bool)
      requires Valid()
      modifies this
      ensures Valid()
      ensures expenses == Without(old(expenses), id)
      ensures removed <==> exists i :: 0 <= i < |old(expenses)| && old(expenses)[i].id == id
    {
      var initialLen := |expenses|;
      ghost var before := expenses;
      expenses := Without(expenses, id);
      SelectKeepsAll(before, (e: Expense) => e.id != id);
      removed := |expenses| < initialLen;
    }

    /** `update_expense`: only the first record with that id is written, field
        by field; an unknown id changes nothing and returns false. */
    method UpdateExpense(id: string, amount: Option<real> := None, category: Option<string> := None,
                         description: Option<string> := None, tags: Option<seq<string>> := None)
      returns (r: Result<bool>)
      requires Valid()
      modifies this
      ensures Valid()
      ensures FirstIndex(old(expenses), id).None? ==> r == Ok(false) && expenses == old(expenses)
      ensures FirstIndex(old(expenses), id).Some? ==>
        var k := FirstIndex(old(expenses), id).value;
        var p := Patch(old(expenses)[k], amount, category, description, tags);
        && expenses == old(expenses)[k := p.record]
        && r == (if p.error.Some? then Raised(p.error.value) else Ok(true))
    {
      var i := 0;
      while i < |expenses|
        invariant 0 <= i <= |expenses|
        invariant expenses == old(expenses)
        invariant forall j :: 0 <= j < i ==> expenses[j].id != id
      {
        if expenses[i].id == id {
          var p := Patch(expenses[i], amount, category, description, tags);
          expenses := expenses[i := p.record];
          if p.error.Some? {
            return Raised(p.error.value);
          }
          return Ok(true);
        }
        i := i + 1;
      }
      return Ok(false);
    }
  }

  /** A record added under a fresh id is found by that id with the amount,
      the stripped texts and the tags it was given (`[]` when omitted). */
  lemma AddThenGet(es: seq<Expense>, id: string, today: string, amount: real, category: string,
                   description: string, date: Option<string>, tags: Option<seq<string>>,
                   isRecurring: bool, recurrencePeriod: Option<string>)
    requires forall i :: 0 <= i < |es| ==> es[i].id != id
    ensures var e := NewExpense(id, amount, category, description, date, tags, isRecurring, recurrencePeriod, today);
      var found := GetExpenseById(es + [e], id);
      && found == Some(e)
      && found.value.id == id
      && found.value.amount == amount
      && found.value.category == Strip(category)
      && found.value.description == Strip(description)
      && found.value.date == (if date.Some? && date.value != "" then date.value else today)
      && found.value.tags == (if tags.Some? then tags.value else [])
      && found.value.isRecurring == isRecurring
      && found.value.recurrencePeriod == recurrencePeriod
  {
    var e := NewExpense(id, amount, category, description, date, tags, isRecurring, recurrencePeriod, today);
    var k := FirstIndex(es + [e], id);
    assert (es + [e])[|es|].id == id;
    assert k == Some(|es|);
  }

  /** After a successful update, lookup by the id gives the patched record. */
  lemma UpdateThenGet(es: seq<Expense>, id: string, amount: Option<real>, category: Option<string>,
                      description: Option<string>, tags: Option<seq<string>>)
    requires FirstIndex(es, id).Some?
    ensures var k := FirstIndex(es, id).value;
      var p := Patch(es[k], amount, category, description, tags);
      GetExpenseById(es[k := p.record], id) == Some(p.record)
  {
    var k := FirstIndex(es, id).value;
    var p := Patch(es[k], amount, category, description, tags);
    var es' := es[k := p.record];
    assert es'[k].id == id;
    assert forall i :: 0 <= i < k ==> es'[i] == es[i];
    var f := FirstIndex(es', id);
    assert f.Some? && f.value <= k;
    assert f.value == k;
  }
}
