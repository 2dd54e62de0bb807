/** The budget table of `finance_tracker/budgets.py`: `Budget` records kept
    in a dictionary under the key `category_period`. */
module Budgets {
  import opened Common
  import opened Text

  /** The periods `set_budget` accepts. */
  const Periods: seq<string> := ["daily", "weekly", "monthly", "yearly"]

  /** One budget: a target amount for a period, an alert fraction and the
      spending reported so far. */
  datatype Budget = Budget(
    category: string,
    amount: real,
    period: string,
    alertThreshold: real,
    spending: real)

  /** What every budget set and updated through the manager satisfies. */
  predicate WellFormed(b: Budget) {
    && b.amount > 0.0
    && 0.0 <= b.alertThreshold <= 1.0
    && b.spending >= 0.0
    && b.period in Periods
  }

  /** `Budget(category, amount, period, alert_threshold)`: the category is
      stripped, the period lower-cased and spending starts at zero. */
  function NewBudget(category: string, amount: real, period: string, alertThreshold: real): (b: Budget)
    ensures b.amount == amount && b.alertThreshold == alertThreshold && b.spending == 0.0
  {
    Budget(Strip(category), amount, Lower(period), alertThreshold, 0.0)
  }

  /** A new budget's category has no edge whitespace and its period is
      already lower case. (Stated apart from `NewBudget` so that its callers
      are not handed facts about `Strip` they do not need.) */
  lemma NewBudgetNormalised(category: string, amount: real, period: string, alertThreshold: real)
    ensures var b := NewBudget(category, amount, period, alertThreshold);
      Strip(b.category) == b.category && Lower(b.period) == b.period
  {
    StripIdempotent(category);
    LowerIdempotent(period);
  }

  /** `f"{category}_{period}"`, built from the category as the caller gave it. */
  function KeyOf(category: string, period: string): (key: string)
    ensures |key| == |category| + 1 + |period|
  {
    category + "_" + period
  }

  /** The key is the category, an underscore and the period, in that order. */
  lemma KeyOfParts(category: string, period: string)
    ensures KeyOf(category, period)[..|category|] == category
    ensures KeyOf(category, period)[|category|..] == "_" + period
  {
  }

  /** Two budgets of accepted periods share a key only when they have the
      same category and period: no accepted period ends another one. */
  lemma KeyOfInjective(c1: string, p1: string, c2: string, p2: string)
    requires p1 in Periods && p2 in Periods
    requires KeyOf(c1, p1) == KeyOf(c2, p2)
    ensures c1 == c2 && p1 == p2
  {
    var key := KeyOf(c1, p1);
    KeyOfParts(c1, p1);
    KeyOfParts(c2, p2);
    assert key[|key| - 3] == p1[|p1| - 3] && key[|key| - 3] == p2[|p2| - 3];
    assert p1 == p2;
    assert c1 == key[..|c1|] == c2;
  }

  /** The accepted periods are already lower case. */
  lemma PeriodsAreLowerCase(period: string)
    requires period in Periods
    ensures Lower(period) == period
  {
    forall k | 0 <= k < |period|
      ensures LowerChar(period[k]) == period[k]
    {
      assert 'a' <= period[k] <= 'z';
    }
  }

  /** The checks of `set_budget`, in the order it makes them. */
  function SetBudgetError(category: string, amount: real, period: string, alertThreshold: real): (err: Option<Error>)
    ensures err.None? <==> amount > 0.0 && category != "" && period in Periods && 0.0 <= alertThreshold <= 1.0
    ensures amount <= 0.0 ==> err == Some(ValueError("Budget amount must be positive"))
  {
    if amount <= 0.0 then Some(ValueError("Budget amount must be positive"))
    else if category == "" then Some(ValueError("Category cannot be empty"))
    else if period !in Periods then Some(ValueError("Invalid period. Choose: daily, weekly, monthly, yearly"))
    else if !(0.0 <= alertThreshold <= 1.0) then Some(ValueError("Alert threshold must be between 0 and 1"))
    else None
  }

  /** A budget accepted by `set_budget` is well formed, is stored with the
      period it was keyed by, and starts with no spending. */
  lemma AcceptedBudget(category: string, amount: real, period: string, alertThreshold: real)
    requires SetBudgetError(category, amount, period, alertThreshold).None?
    ensures var b := NewBudget(category, amount, period, alertThreshold);
      WellFormed(b) && b.period == period && b.spending == 0.0
  {
    PeriodsAreLowerCase(period);
  }

  /** What `get_budget_status` returns: an error-only dictionary for a
      missing key, the figures of the budget otherwise. */
  datatype BudgetStatus =
    | NoBudget(error: string)
    | Status(category: string, period: string, budget: real, spent: real, remaining: real,
             overBudget: bool, alertTriggered: bool)

  /** The status figures of one budget. */
  function StatusOf(b: Budget): (s: BudgetStatus)
    ensures s.Status? && s.category == b.category && s.period == b.period
    ensures s.budget == b.amount && s.spent == b.spending
    ensures s.spent + s.remaining == s.budget
    ensures s.overBudget <==> s.remaining < 0.0
    ensures s.alertTriggered <==> s.spent >= s.budget * b.alertThreshold
  {
    var spent := b.spending;
    Status(b.category, b.period, b.amount, spent, b.amount - spent, spent > b.amount,
           spent >= b.amount * b.alertThreshold)
  }

  /** The alert level `amount * alert_threshold` of a well-formed budget lies
      between 0 and the amount, and is 0 only for a threshold of 0. */
  lemma ThresholdScales(amount: real, threshold: real)
    requires amount > 0.0 && 0.0 <= threshold <= 1.0
    ensures 0.0 <= amount * threshold <= amount
    ensures amount * threshold == 0.0 <==> threshold == 0.0
  {
    assert amount - amount * threshold == amount * (1.0 - threshold);
    if threshold > 0.0 {
      assert amount * threshold > 0.0;
    }
  }

  /** For a well-formed budget, being over budget always raises the alert,
      and with nothing spent the alert is raised only by a threshold of 0. */
  lemma OverBudgetAlerts(b: Budget)
    requires WellFormed(b)
    ensures StatusOf(b).overBudget ==> StatusOf(b).alertTriggered
    ensures b.spending == 0.0 ==> (StatusOf(b).alertTriggered <==> b.alertThreshold == 0.0)
  {
    ThresholdScales(b.amount, b.alertThreshold);
  }

  /** The patched budget of `update_budget`: the amount is checked and written
      before the threshold is checked. */
  function PatchBudget(b: Budget, amount: Option<real>, alertThreshold: Option<real>): (p: Patched<Budget>)
    ensures p.record.category == b.category && p.record.period == b.period
    ensures p.record.spending == b.spending
    ensures p.error.None? <==>
      (amount.None? || amount.value > 0.0) && (alertThreshold.None? || 0.0 <= alertThreshold.value <= 1.0)
    ensures p.record.amount == if amount.Some? && amount.value > 0.0 then amount.value else b.amount
    ensures p.record.alertThreshold == if p.error.None? && alertThreshold.Some? then alertThreshold.value else b.alertThreshold
    ensures WellFormed(b) ==> WellFormed(p.record)
  {
    if amount.Some? && amount.value <= 0.0 then
      Patched(b, Some(ValueError("Budget amount must be positive")))
    else
      var b1 := if amount.Some? then b.(amount := amount.value) else b;
      if alertThreshold.Some? && !(0.0 <= alertThreshold.value <= 1.0) then
        Patched(b1, Some(ValueError("Alert threshold must be between 0 and 1")))
      else
        Patched(if alertThreshold.Some? then b1.(alertThreshold := alertThreshold.value) else b1, None)
  }

  /** A valid new amount stays written when the threshold given with it is rejected. */
  lemma AmountWrittenBeforeThresholdRejected(b: Budget, a: real, t: real)
    requires a > 0.0 && !(0.0 <= t <= 1.0)
    ensures PatchBudget(b, Some(a), Some(t)).error == Some(ValueError("Alert threshold must be between 0 and 1"))
    ensures PatchBudget(b, Some(a), Some(t)).record == b.(amount := a)
  {
  }

  /** The figures of the unit test: 170 spent of 200 with a 0.8 threshold. */
  lemma StatusExample()
    ensures StatusOf(Budget("Food", 200.0, "monthly", 0.8, 170.0))
         == Status("Food", "monthly", 200.0, 170.0, 30.0, false, true)
  {
  }

  /** A budget set with whitespace around its category is stored under the raw
      key but carries the stripped category, so looking up its status by its
      stored category finds nothing. */
  lemma PaddedCategoryHasNoStatus(m: BudgetManager, category: string, amount: real, period: string, alertThreshold: real)
    requires Strip(category) != category
    requires m.budgets == map[KeyOf(category, period) := NewBudget(category, amount, period, alertThreshold)]
    ensures m.GetBudgetStatus(NewBudget(category, amount, period, alertThreshold).category, period).NoBudget?
  {
    StripShortens(category);
    assert |KeyOf(Strip(category), period)| < |KeyOf(category, period)|;
  }

  /** The table of a manager: `order` lists each key of `budgets` once, in
      insertion order, and every stored budget is well formed. */
  ghost predicate TableValid(order: seq<string>, budgets: map<string, Budget>) {
    && (forall i, j :: 0 <= i < j < |order| ==> order[i] != order[j])
    && (forall k :: k in budgets <==> k in order)
    && (forall k :: k in budgets ==> WellFormed(budgets[k]))
  }

  /** `d[key] = b` on a key already present: the key keeps its place. */
  lemma StoreKeepsTable(order: seq<string>, budgets: map<string, Budget>, key: string, b: Budget)
    requires TableValid(order, budgets) && WellFormed(b) && key in budgets
    ensures TableValid(order, budgets[key := b])
  {
  }

  /** `d[key] = b` on a new key: the key goes last. */
  lemma AppendKeepsTable(order: seq<string>, budgets: map<string, Budget>, key: string, b: Budget)
    requires TableValid(order, budgets) && WellFormed(b) && key !in budgets
    ensures TableValid(order + [key], budgets[key := b])
  {
    var order' := order + [key];
    forall i, j | 0 <= i < j < |order'|
      ensures order'[i] != order'[j]
    {
      if j == |order| {
        assert order'[i] == order[i];
      }
    }
  }

  /** Every entry sits under the key built from its stored category and period. */
  ghost predicate EntriesMatchKeys(budgets: map<string, Budget>) {
    forall k :: k in budgets ==> k == KeyOf(budgets[k].category, budgets[k].period)
  }

  lemma StoreKeepsKeysMatch(budgets: map<string, Budget>, key: string, b: Budget)
    requires EntriesMatchKeys(budgets) && key == KeyOf(b.category, b.period)
    ensures EntriesMatchKeys(budgets[key := b])
  {
  }

  /** The status lookup of `get_budget_status` on a given table. */
  function StatusIn(budgets: map<string, Budget>, category: string, period: string): BudgetStatus {
    var key := KeyOf(category, period);
    if key in budgets then StatusOf(budgets[key])
    else NoBudget("No budget for " + category + " in " + period + " period")
  }

  class BudgetManager {
    const userId: string
    /** The keys in insertion order, as the dictionary iterates them. */
    var order: seq<string>
    var budgets: map<string, Budget>

    ghost predicate Valid()
      reads this
    {
      TableValid(order, budgets)
    }

    /** Every entry sits under the key built from its stored category and
        period; this holds as long as no category was given with surrounding
        whitespace. */
    ghost predicate KeysMatchEntries()
      reads this
    {
      EntriesMatchKeys(budgets)
    }

    /** `BudgetManager(user_id)`, before anything is loaded from the file. */
    constructor (userId: string)
      ensures this.userId == userId && order == [] && budgets == map[]
      ensures Valid() && KeysMatchEntries()
    {
      this.userId := userId;
      order := [];
      budgets := map[];
    }

    /** `set_budget`: checks, then stores a fresh entry at `category_period`,
        replacing any entry there (which keeps its place in the order). */
    method SetBudget(category: string, amount: real, period: string := "monthly", alertThreshold: real := 0.8)
      returns (r: Result<()>)
      requires Valid()
      modifies this
      ensures Valid()
      ensures var err := SetBudgetError(category, amount, period, alertThreshold);
        && (err.Some? ==> r == Raised(err.value) && budgets == old(budgets) && order == old(order))
        && (err.None? ==>
              var key := KeyOf(category, period);
              && r == Ok(())
              && budgets == old(budgets)[key := NewBudget(category, amount, period, alertThreshold)]
              && order == if key in old(budgets) then old(order) else old(order) + [key])
      ensures old(KeysMatchEntries()) && Strip(category) == category ==> KeysMatchEntries()
    {
      var err := SetBudgetError(category, amount, period, alertThreshold);
      if err.Some? {
        return Raised(err.value);
      }
      var key := KeyOf(category, period);
      var b := NewBudget(category, amount, period, alertThreshold);
      AcceptedBudget(category, amount, period, alertThreshold);
      if KeysMatchEntries() && Strip(category) == category {
        StoreKeepsKeysMatch(budgets, key, b);
      }
      if key in budgets {
        StoreKeepsTable(order, budgets, key, b);
      } else {
        AppendKeepsTable(order, budgets, key, b);
        order := order + [key];
      }
      budgets := budgets[key := b];
      r := Ok(());
    }

    /** `add_spending`: the amount is checked first, then the key; only that
        entry's spending grows, by exactly the amount. */
    method AddSpending(category: string, amount: real, period: string := "monthly") returns (r: Result<()>)
      requires Valid()
      modifies this
      ensures Valid() && order == old(order)
      ensures old(KeysMatchEntries()) ==> KeysMatchEntries()
      ensures var key := KeyOf(category, period);
        && (amount <= 0.0 ==> r == Raised(ValueError("Amount must be positive")) && budgets == old(budgets))
        && (amount > 0.0 && key !in old(budgets) ==>
              && r == Raised(ValueError("No budget set for " + category + " in " + period + " period"))
              && budgets == old(budgets))
        && (amount > 0.0 && key in old(budgets) ==>
              && r == Ok(())
              && budgets == old(budgets)[key := old(budgets)[key].(spending := old(budgets)[key].spending + amount)])
    {
      if amount <= 0.0 {
        return Raised(ValueError("Amount must be positive"));
      }
      var key := KeyOf(category, period);
      if key !in budgets {
        return Raised(ValueError("No budget set for " + category + " in " + period + " period"));
      }
      var b := budgets[key].(spending := budgets[key].spending + amount);
      StoreKeepsTable(order, budgets, key, b);
      if KeysMatchEntries() {
        StoreKeepsKeysMatch(budgets, key, b);
      }
      budgets := budgets[key := b];
      r := Ok(());
    }

    /** `get_budget_status` */
    function GetBudgetStatus(category: string, period: string := "monthly"): (s: BudgetStatus)
      reads this
      ensures s.NoBudget? <==> KeyOf(category, period) !in budgets
      ensures s.NoBudget? ==> s.error == "No budget for " + category + " in " + period + " period"
      ensures s.Status? ==> s == StatusOf(budgets[KeyOf(category, period)])
    {
      StatusIn(budgets, category, period)
    }

    /** `get_all_budgets`: one entry per key, in key order. */
    function GetAllBudgets(): (r: seq<Budget>)
      reads this
      requires Valid()
      ensures |r| == |order|
      ensures forall i :: 0 <= i < |order| ==> r[i] == budgets[order[i]]
      ensures forall b :: b in r <==> exists k :: k in budgets && budgets[k] == b
    {
      var r := seq(|order|, i requires 0 <= i < |order| && order[i] in budgets reads this => budgets[order[i]]);
      assert forall k :: k in budgets ==> exists i :: 0 <= i < |order| && order[i] == k;
      r
    }

    /** `reset_budget`: zeroes the spending of an existing entry. */
    method ResetBudget(category: string, period: string := "monthly") returns (found: bool)
      requires Valid()
      modifies this
      ensures Valid() && order == old(order)
      ensures old(KeysMatchEntries()) ==> KeysMatchEntries()
      ensures var key := KeyOf(category, period);
        && (found <==> key in old(budgets))
        && (found ==> budgets == old(budgets)[key := old(budgets)[key].(spending := 0.0)])
        && (!found ==> budgets == old(budgets))
    {
      var key := KeyOf(category, period);
      if key in budgets {
        var b := budgets[key].(spending := 0.0);
        StoreKeepsTable(order, budgets, key, b);
        if KeysMatchEntries() {
          StoreKeepsKeysMatch(budgets, key, b);
        }
        budgets := budgets[key := b];
        return true;
      }
      return false;
    }

    /** `update_budget`: a missing key returns false; otherwise the amount
        and then the threshold are checked and written in place. */
    method UpdateBudget(category: string, amount: Option<real> := None, period: string := "monthly",
                        alertThreshold: Option<real> := None) returns (r: Result<bool>)
      requires Valid()
      modifies this
      ensures Valid() && order == old(order)
      ensures old(KeysMatchEntries()) ==> KeysMatchEntries()
      ensures var key := KeyOf(category, period);
        && (key !in old(budgets) ==> r == Ok(false) && budgets == old(budgets))
        && (key in old(budgets) ==>
              var p := PatchBudget(old(budgets)[key], amount, alertThreshold);
              && budgets == old(budgets)[key := p.record]
              && r == (if p.error.Some? then Raised(p.error.value) else Ok(true)))
    {
      var key := KeyOf(category, period);
      if key !in budgets {
        return Ok(false);
      }
      var p := PatchBudget(budgets[key], amount, alertThreshold);
      StoreKeepsTable(order, budgets, key, p.record);
      if KeysMatchEntries() {
        StoreKeepsKeysMatch(budgets, key, p.record);
      }
      budgets := budgets[key := p.record];
      if p.error.Some? {
        return Raised(p.error.value);
      }
      return Ok(true);
    }
  }
}
