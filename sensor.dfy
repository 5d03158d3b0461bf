/**
 * The Home Assistant sensors: the names and unique ids of the account and
 * budget sensors, the state and extra attributes of a budget sensor, and the
 * throttled `async_update` of both (custom_components/actualbudget/sensor.py).
 *
 * Time is in integer microseconds and the clock is read once per update; the
 * current month is the "%Y%m" text of the clock, and a month is due when it
 * is not after it.
 */
module Sensor {
  import opened Wrappers
  import opened Text
  import Budgets
  import Client

  /** `MINIMUM_INTERVAL`: one minute, in microseconds. */
  const MINIMUM_INTERVAL: int := 60 * 1_000_000

  // ---------------------------------------------------------------------
  // Names and unique ids

  /** Account sensor `name`: "{prefix}_{name}" when the prefix is truthy. */
  function AccountSensorName(prefix: Option<string>, name: string): string
  {
    if Truthy(prefix) then prefix.value + "_" + name else name
  }

  /** Account sensor `unique_id`, lower-cased; `domain` is the integration's `DOMAIN`. */
  function AccountUniqueId(domain: string, source: string, prefix: Option<string>, name: string): string
  {
    if Truthy(prefix) then ToLower(domain + "-" + source + "-" + prefix.value + "-" + name)
    else ToLower(domain + "-" + source + "-" + name)
  }

  /** Budget sensor `name`: "budget_{name}", after "{prefix}_" when the prefix is truthy. */
  function BudgetSensorName(prefix: Option<string>, name: string): string
  {
    var budgetName := "budget_" + name;
    if Truthy(prefix) then prefix.value + "_" + budgetName else budgetName
  }

  /** Budget sensor `unique_id`, lower-cased, with "-budget-" before the name. */
  function BudgetUniqueId(domain: string, source: string, prefix: Option<string>, name: string): string
  {
    if Truthy(prefix) then ToLower(domain + "-" + source + "-" + prefix.value + "-budget-" + name)
    else ToLower(domain + "-" + source + "-budget-" + name)
  }

  /** What every unique id of one source and prefix starts with, before the lower-casing. */
  function IdHead(domain: string, source: string, prefix: Option<string>): string
  {
    domain + "-" + source + "-" + (if Truthy(prefix) then prefix.value + "-" else "")
  }

  /** A sensor name keeps the account name at its end and the prefix with "_" at its start. */
  lemma AccountSensorNameShape(prefix: Option<string>, name: string)
    ensures EndsWith(AccountSensorName(prefix, name), name)
    ensures Truthy(prefix) ==> StartsWith(AccountSensorName(prefix, name), prefix.value + "_")
    ensures !Truthy(prefix) ==> AccountSensorName(prefix, name) == name
  {
    var r := AccountSensorName(prefix, name);
    if Truthy(prefix) {
      assert r == (prefix.value + "_") + name;
      assert r[|r| - |name|..] == name;
    }
  }

  /** A unique id is the lower-cased head of its source and prefix followed by the lower-cased name. */
  lemma AccountUniqueIdSplits(domain: string, source: string, prefix: Option<string>, name: string)
    ensures AccountUniqueId(domain, source, prefix, name) == ToLower(IdHead(domain, source, prefix)) + ToLower(name)
  {
    var head := IdHead(domain, source, prefix);
    if Truthy(prefix) {
      assert domain + "-" + source + "-" + prefix.value + "-" + name == head + name;
    } else {
      assert domain + "-" + source + "-" + name == head + name;
    }
    ToLowerConcat(head, name);
  }

  /**
   * A unique id is lower case, starts with the lower-cased domain and
   * source, and ends with the lower-cased name.
   */
  lemma AccountUniqueIdShape(domain: string, source: string, prefix: Option<string>, name: string)
    ensures var r := AccountUniqueId(domain, source, prefix, name);
            && ToLower(r) == r
            && StartsWith(r, ToLower(domain + "-" + source + "-"))
            && EndsWith(r, ToLower(name))
  {
    var r := AccountUniqueId(domain, source, prefix, name);
    var front := domain + "-" + source + "-";
    var rest := if Truthy(prefix) then prefix.value + "-" else "";
    AccountUniqueIdSplits(domain, source, prefix, name);
    ToLowerConcat(front, rest);
    assert r == ToLower(front) + (ToLower(rest) + ToLower(name));
    ToLowerIdempotent(IdHead(domain, source, prefix) + name);
    ToLowerConcat(IdHead(domain, source, prefix), name);
  }

  /**
   * Two accounts of one source and prefix share a unique id exactly when
   * their names agree once lower-cased: "Cash" and "cash" collide.
   */
  lemma AccountUniqueIdsCollide(domain: string, source: string, prefix: Option<string>, a: string, b: string)
    ensures AccountUniqueId(domain, source, prefix, a) == AccountUniqueId(domain, source, prefix, b)
            <==> ToLower(a) == ToLower(b)
  {
    var head := ToLower(IdHead(domain, source, prefix));
    AccountUniqueIdSplits(domain, source, prefix, a);
    AccountUniqueIdSplits(domain, source, prefix, b);
    if head + ToLower(a) == head + ToLower(b) {
      assert ToLower(a) == (head + ToLower(a))[|head|..];
      assert ToLower(b) == (head + ToLower(b))[|head|..];
    }
  }

  /**
   * A budget sensor is named and identified as an account sensor of the
   * name with "budget_" (for the name) or "budget-" (for the id) in front.
   */
  lemma BudgetSensorIsAccountShaped(domain: string, source: string, prefix: Option<string>, name: string)
    ensures BudgetSensorName(prefix, name) == AccountSensorName(prefix, "budget_" + name)
    ensures BudgetUniqueId(domain, source, prefix, name) == AccountUniqueId(domain, source, prefix, "budget-" + name)
  {
    var front := domain + "-" + source + "-";
    if Truthy(prefix) {
      assert front + prefix.value + "-budget-" + name == front + prefix.value + "-" + ("budget-" + name);
    } else {
      assert front + "budget-" + name == front + ("budget-" + name);
    }
  }

  // ---------------------------------------------------------------------
  // Budget state and attributes

  /** `strptime(month, '%Y%m') <= now`: the month is not after the current one. */
  predicate Due(month: string, currentMonth: string)
  {
    LexLe(month, currentMonth)
  }

  /** What one entry adds to a total: `amount.amount if amount.amount else 0`. */
  function AmountValue(a: Budgets.BudgetAmount): int
  {
    if a.amount.Some? then a.amount.value else 0
  }

  /** The sum of the entries' amounts, an absent amount counting as 0. */
  function Total(amounts: seq<Budgets.BudgetAmount>): int
    decreases |amounts|
  {
    if |amounts| == 0 then 0 else Total(amounts[..|amounts| - 1]) + AmountValue(amounts[|amounts| - 1])
  }

  /** The entries of due months, in their order. */
  function DueAmounts(amounts: seq<Budgets.BudgetAmount>, currentMonth: string): seq<Budgets.BudgetAmount>
    decreases |amounts|
  {
    if |amounts| == 0 then []
    else
      var init, last := amounts[..|amounts| - 1], amounts[|amounts| - 1];
      DueAmounts(init, currentMonth) + (if Due(last.month, currentMonth) then [last] else [])
  }

  /** The due entries are exactly the entries of due months. */
  lemma {:induction false} DueAmountsMembers(amounts: seq<Budgets.BudgetAmount>, currentMonth: string)
    ensures |DueAmounts(amounts, currentMonth)| <= |amounts|
    ensures forall x :: x in DueAmounts(amounts, currentMonth) <==> x in amounts && Due(x.month, currentMonth)
    decreases |amounts|
  {
    if |amounts| > 0 {
      var init, last := amounts[..|amounts| - 1], amounts[|amounts| - 1];
      assert amounts == init + [last];
      DueAmountsMembers(init, currentMonth);
    }
  }

  /** A budget sensor's `state`: the balance plus the amounts of due months. */
  function BudgetState(balance: int, amounts: seq<Budgets.BudgetAmount>, currentMonth: string): int
  {
    balance + Total(DueAmounts(amounts, currentMonth))
  }

  lemma {:induction false} TotalConcat(a: seq<Budgets.BudgetAmount>, b: seq<Budgets.BudgetAmount>)
    ensures Total(a + b) == Total(a) + Total(b)
    decreases |b|
  {
    if |b| > 0 {
      assert (a + b)[..|a + b| - 1] == a + b[..|b| - 1];
      TotalConcat(a, b[..|b| - 1]);
    } else {
      assert a + b == a;
    }
  }

  lemma {:induction false} DueAmountsConcat(a: seq<Budgets.BudgetAmount>, b: seq<Budgets.BudgetAmount>, currentMonth: string)
    ensures DueAmounts(a + b, currentMonth) == DueAmounts(a, currentMonth) + DueAmounts(b, currentMonth)
    decreases |b|
  {
    if |b| > 0 {
      assert (a + b)[..|a + b| - 1] == a + b[..|b| - 1];
      DueAmountsConcat(a, b[..|b| - 1], currentMonth);
    } else {
      assert a + b == a;
    }
  }

  /** The due part and the total of one entry. */
  lemma OneAmount(x: Budgets.BudgetAmount, currentMonth: string)
    ensures DueAmounts([x], currentMonth) == if Due(x.month, currentMonth) then [x] else []
    ensures Total([x]) == AmountValue(x)
  {
    assert [x][..0] == [];
  }

  /** The due total of one more entry of a list. */
  lemma DueTotalStep(amounts: seq<Budgets.BudgetAmount>, i: nat, currentMonth: string)
    requires i < |amounts|
    ensures Total(DueAmounts(amounts[..i + 1], currentMonth))
            == Total(DueAmounts(amounts[..i], currentMonth)) + (if Due(amounts[i].month, currentMonth) then AmountValue(amounts[i]) else 0)
  {
    var done := DueAmounts(amounts[..i], currentMonth);
    assert amounts[..i + 1][..i] == amounts[..i];
    if Due(amounts[i].month, currentMonth) {
      assert (done + [amounts[i]])[..|done|] == done;
    } else {
      assert done + [] == done;
    }
  }

  /** Entries of months after the current one never change the state, wherever they stand. */
  lemma FutureMonthDoesNotCount(balance: int, before: seq<Budgets.BudgetAmount>, x: Budgets.BudgetAmount,
                                after: seq<Budgets.BudgetAmount>, currentMonth: string)
    requires !Due(x.month, currentMonth)
    ensures BudgetState(balance, before + [x] + after, currentMonth) == BudgetState(balance, before + after, currentMonth)
  {
    DueAmountsConcat(before + [x], after, currentMonth);
    DueAmountsConcat(before, [x], currentMonth);
    DueAmountsConcat(before, after, currentMonth);
    OneAmount(x, currentMonth);
    assert DueAmounts(before + [x], currentMonth) == DueAmounts(before, currentMonth);
  }

  /** When every month is due the state is the balance plus every amount. */
  lemma {:induction false} AllDueCounts(balance: int, amounts: seq<Budgets.BudgetAmount>, currentMonth: string)
    requires forall k :: 0 <= k < |amounts| ==> Due(amounts[k].month, currentMonth)
    ensures BudgetState(balance, amounts, currentMonth) == balance + Total(amounts)
  {
    AllDueKept(amounts, currentMonth);
  }

  lemma {:induction false} AllDueKept(amounts: seq<Budgets.BudgetAmount>, currentMonth: string)
    requires forall k :: 0 <= k < |amounts| ==> Due(amounts[k].month, currentMonth)
    ensures DueAmounts(amounts, currentMonth) == amounts
    decreases |amounts|
  {
    if |amounts| > 0 {
      var init := amounts[..|amounts| - 1];
      assert forall k :: 0 <= k < |init| ==> init[k] == amounts[k];
      AllDueKept(init, currentMonth);
      assert amounts == init + [amounts[|amounts| - 1]];
    }
  }

  /** The due entries of a list sorted by month are sorted too. */
  lemma {:induction false} DueAmountsSorted(amounts: seq<Budgets.BudgetAmount>, currentMonth: string)
    requires Budgets.SortedByMonth(amounts)
    ensures Budgets.SortedByMonth(DueAmounts(amounts, currentMonth))
    decreases |amounts|
  {
    if |amounts| > 0 {
      var init, last := amounts[..|amounts| - 1], amounts[|amounts| - 1];
      assert Budgets.SortedByMonth(init);
      DueAmountsSorted(init, currentMonth);
      var d := DueAmounts(init, currentMonth);
      if Due(last.month, currentMonth) && |d| > 0 {
        DueAmountsMembers(init, currentMonth);
        assert d[|d| - 1] in init;
        SortedBeforeLast(amounts);
      }
    }
  }

  /** In a list sorted by month no entry's month comes after the last one's. */
  lemma {:induction false} SortedBeforeLast(s: seq<Budgets.BudgetAmount>)
    requires Budgets.SortedByMonth(s) && |s| > 0
    ensures forall x :: x in s ==> LexLe(x.month, s[|s| - 1].month)
    decreases |s|
  {
    var init, last := s[..|s| - 1], s[|s| - 1];
    assert s == init + [last];
    LexLeReflexive(last.month);
    if |init| > 0 {
      assert Budgets.SortedByMonth(init);
      SortedBeforeLast(init);
      forall x | x in init
        ensures LexLe(x.month, last.month)
      {
        LexLeTransitive(x.month, init[|init| - 1].month, last.month);
      }
    }
  }

  /** `extra_state_attributes`; each field present as its key is. */
  datatype Attributes = Attributes(current: Option<Budgets.BudgetAmount>, previous: Option<Budgets.BudgetAmount>,
                                   total: Option<int>)

  /** `amounts[-1]` of an empty list raises `IndexError`. */
  datatype AttributeError = IndexError

  /**
   * `extra_state_attributes` over the due entries: the current month and
   * amount from the last one when its month is not empty; the previous
   * month and amount and the total when there are at least two.
   */
  function AttributesOf(amounts: seq<Budgets.BudgetAmount>, currentMonth: string): (r: Result<Attributes, AttributeError>)
    ensures r.Failure? <==> forall x :: x in amounts ==> !Due(x.month, currentMonth)
    ensures r.Success? && r.value.current.Some? ==> r.value.current.value in amounts && Due(r.value.current.value.month, currentMonth)
    ensures r.Success? ==> (r.value.previous.Some? <==> |DueAmounts(amounts, currentMonth)| >= 2)
    ensures r.Success? ==> (r.value.total.Some? <==> |DueAmounts(amounts, currentMonth)| >= 2)
    ensures r.Success? && r.value.previous.Some? ==>
              r.value.previous.value in amounts && Due(r.value.previous.value.month, currentMonth)
  {
    DueAmountsMembers(amounts, currentMonth);
    var due := DueAmounts(amounts, currentMonth);
    if |due| == 0 then Failure(IndexError)
    else
      assert due[0] in due;
      var last := due[|due| - 1];
      Success(Attributes(if last.month != "" then Some(last) else None,
                         if |due| > 1 then Some(due[|due| - 2]) else None,
                         if |due| > 1 then Some(Total(due)) else None))
  }

  /** The last due entry stands at an index of a due month after which no month is due. */
  lemma {:induction false} LastDueIndex(amounts: seq<Budgets.BudgetAmount>, currentMonth: string) returns (k: nat)
    requires |DueAmounts(amounts, currentMonth)| > 0
    ensures k < |amounts| && Due(amounts[k].month, currentMonth)
    ensures amounts[k] == DueAmounts(amounts, currentMonth)[|DueAmounts(amounts, currentMonth)| - 1]
    ensures forall l :: k < l < |amounts| ==> !Due(amounts[l].month, currentMonth)
    decreases |amounts|
  {
    var n := |amounts|;
    var init, last := amounts[..n - 1], amounts[n - 1];
    if Due(last.month, currentMonth) {
      k := n - 1;
    } else {
      assert DueAmounts(amounts, currentMonth) == DueAmounts(init, currentMonth) + [];
      k := LastDueIndex(init, currentMonth);
      assert init[k] == amounts[k];
      assert forall l :: k < l < |init| ==> init[l] == amounts[l];
    }
  }

  /**
   * The current attributes come from the last entry of a due month: no
   * later entry is due, and they are shown exactly when its month is not empty.
   */
  lemma CurrentIsLastDue(amounts: seq<Budgets.BudgetAmount>, currentMonth: string)
    requires AttributesOf(amounts, currentMonth).Success?
    ensures var a := AttributesOf(amounts, currentMonth).value;
            exists k :: && 0 <= k < |amounts| && Due(amounts[k].month, currentMonth)
                        && (forall l :: k < l < |amounts| ==> !Due(amounts[l].month, currentMonth))
                        && (a.current.Some? <==> amounts[k].month != "")
                        && (a.current.Some? ==> a.current.value == amounts[k])
  {
    var k := LastDueIndex(amounts, currentMonth);
  }

  /**
   * The last two due entries stand at indices of due months with no due
   * month between them and none after the second.
   */
  lemma {:induction false} LastTwoDueIndices(amounts: seq<Budgets.BudgetAmount>, currentMonth: string)
    returns (j: nat, k: nat)
    requires |DueAmounts(amounts, currentMonth)| >= 2
    ensures j < k < |amounts| && Due(amounts[j].month, currentMonth) && Due(amounts[k].month, currentMonth)
    ensures amounts[j] == DueAmounts(amounts, currentMonth)[|DueAmounts(amounts, currentMonth)| - 2]
    ensures amounts[k] == DueAmounts(amounts, currentMonth)[|DueAmounts(amounts, currentMonth)| - 1]
    ensures forall l :: j < l < |amounts| && l != k ==> !Due(amounts[l].month, currentMonth)
    decreases |amounts|
  {
    var n := |amounts|;
    var init, last := amounts[..n - 1], amounts[n - 1];
    if Due(last.month, currentMonth) {
      assert DueAmounts(amounts, currentMonth) == DueAmounts(init, currentMonth) + [last];
      j := LastDueIndex(init, currentMonth);
      k := n - 1;
      assert init[j] == amounts[j];
      assert forall l :: j < l < |init| ==> init[l] == amounts[l];
    } else {
      assert DueAmounts(amounts, currentMonth) == DueAmounts(init, currentMonth) + [];
      j, k := LastTwoDueIndices(init, currentMonth);
      assert init[j] == amounts[j] && init[k] == amounts[k];
      assert forall l :: j < l < |init| ==> init[l] == amounts[l];
    }
  }

  /**
   * The previous attributes come from the due entry just before the last
   * one: no month between the two is due.
   */
  lemma PreviousIsSecondLastDue(amounts: seq<Budgets.BudgetAmount>, currentMonth: string)
    requires AttributesOf(amounts, currentMonth).Success?
    ensures var a := AttributesOf(amounts, currentMonth).value;
            a.previous.Some? ==>
              exists j, k :: && 0 <= j < k < |amounts|
                             && Due(amounts[j].month, currentMonth) && Due(amounts[k].month, currentMonth)
                             && (forall l :: j < l < |amounts| && l != k ==> !Due(amounts[l].month, currentMonth))
                             && a.previous.value == amounts[j]
                             && (a.current.Some? ==> a.current.value == amounts[k])
  {
    if |DueAmounts(amounts, currentMonth)| >= 2 {
      var j, k := LastTwoDueIndices(amounts, currentMonth);
      var a := AttributesOf(amounts, currentMonth).value;
      assert a.previous.value == amounts[j];
      assert a.current.Some? ==> a.current.value == amounts[k];
    }
  }

  /** The attributes' total plus the balance is the state, when the total is shown. */
  lemma AttributesTotalIsState(balance: int, amounts: seq<Budgets.BudgetAmount>, currentMonth: string)
    requires AttributesOf(amounts, currentMonth).Success?
    ensures var a := AttributesOf(amounts, currentMonth).value;
            a.total.Some? ==> balance + a.total.value == BudgetState(balance, amounts, currentMonth)
    ensures var a := AttributesOf(amounts, currentMonth).value;
            a.total.Some? <==> a.previous.Some?
  {
  }

  /**
   * For entries sorted by month, as the client returns them, the current
   * month is the latest due month and the previous month is not after it.
   */
  lemma LatestDueIsCurrent(amounts: seq<Budgets.BudgetAmount>, currentMonth: string)
    requires Budgets.SortedByMonth(amounts)
    requires AttributesOf(amounts, currentMonth).Success?
    ensures var a := AttributesOf(amounts, currentMonth).value;
            a.current.Some? ==> forall x :: x in amounts && Due(x.month, currentMonth) ==> LexLe(x.month, a.current.value.month)
    ensures var a := AttributesOf(amounts, currentMonth).value;
            a.current.Some? && a.previous.Some? ==> LexLe(a.previous.value.month, a.current.value.month)
  {
    var due := DueAmounts(amounts, currentMonth);
    DueAmountsMembers(amounts, currentMonth);
    DueAmountsSorted(amounts, currentMonth);
    SortedBeforeLast(due);
  }

  // ---------------------------------------------------------------------
  // Updates

  /** `now - balance_last_updated < MINIMUM_INTERVAL`: too soon to fetch again. */
  predicate Throttled(lastUpdated: int, now: int)
  {
    now - lastUpdated < MINIMUM_INTERVAL
  }

  /** What `async_update` of an account sensor changes. */
  datatype AccountView = AccountView(balance: int, available: bool, lastUpdated: int)

  /**
   * `async_update` of an account sensor at `now`; `fetched` is what
   * `get_account` delivered (a failure is the exception it raised).
   */
  function AccountUpdate(v: AccountView, now: int, fetched: Result<Option<Budgets.Account>, Client.Error>): (r: AccountView)
    ensures Throttled(v.lastUpdated, now) ==> r == v
    ensures r.available ==> v.available
    ensures fetched.Failure? ==> r.balance == v.balance && r.lastUpdated == v.lastUpdated
    ensures r.balance != v.balance ==> fetched.Success? && fetched.value.Some? && r.balance == fetched.value.value.balance
    ensures !Throttled(v.lastUpdated, now) && fetched.Success? ==> r.lastUpdated == now
    ensures r.lastUpdated == v.lastUpdated || r.lastUpdated >= v.lastUpdated + MINIMUM_INTERVAL
  {
    if Throttled(v.lastUpdated, now) then v
    else match fetched
      case Failure(_) => v.(available := false)
      case Success(None) => v.(lastUpdated := now)
      case Success(Some(account)) => v.(balance := account.balance, lastUpdated := now)
  }

  /** One call of `async_update`: the clock reading and what the fetch delivered. */
  datatype AccountPoll = AccountPoll(now: int, fetched: Result<Option<Budgets.Account>, Client.Error>)

  function AccountUpdates(v: AccountView, polls: seq<AccountPoll>): AccountView
    decreases |polls|
  {
    if |polls| == 0 then v
    else
      var last := polls[|polls| - 1];
      AccountUpdate(AccountUpdates(v, polls[..|polls| - 1]), last.now, last.fetched)
  }

  /**
   * Over any run of updates an unavailable account sensor stays
   * unavailable, and its timestamp never goes back.
   */
  lemma {:induction false} AccountUpdatesKeep(v: AccountView, polls: seq<AccountPoll>)
    ensures AccountUpdates(v, polls).available ==> v.available
    ensures AccountUpdates(v, polls).lastUpdated >= v.lastUpdated
    decreases |polls|
  {
    if |polls| > 0 {
      AccountUpdatesKeep(v, polls[..|polls| - 1]);
    }
  }

  /** What `async_update` of a budget sensor changes. */
  datatype BudgetView = BudgetView(amounts: seq<Budgets.BudgetAmount>, balance: int, available: bool, lastUpdated: int)

  /**
   * `async_update` of a budget sensor at `now`; `fetched` is what
   * `get_budget` delivered. A fetched budget replaces amounts and balance
   * together.
   */
  function BudgetUpdate(v: BudgetView, now: int, fetched: Result<Option<Budgets.Budget>, Client.Error>): (r: BudgetView)
    ensures Throttled(v.lastUpdated, now) ==> r == v
    ensures r.available ==> v.available
    ensures fetched.Failure? ==> r.amounts == v.amounts && r.balance == v.balance && r.lastUpdated == v.lastUpdated
    ensures r.amounts != v.amounts || r.balance != v.balance ==>
              fetched.Success? && fetched.value.Some?
              && r.amounts == fetched.value.value.amounts && r.balance == fetched.value.value.balance
    ensures !Throttled(v.lastUpdated, now) && fetched.Success? ==> r.lastUpdated == now
    ensures r.lastUpdated == v.lastUpdated || r.lastUpdated >= v.lastUpdated + MINIMUM_INTERVAL
  {
    if Throttled(v.lastUpdated, now) then v
    else match fetched
      case Failure(_) => v.(available := false)
      case Success(None) => v.(lastUpdated := now)
      case Success(Some(budget)) => v.(lastUpdated := now, amounts := budget.amounts, balance := budget.balance)
  }

  datatype BudgetPoll = BudgetPoll(now: int, fetched: Result<Option<Budgets.Budget>, Client.Error>)

  function BudgetUpdates(v: BudgetView, polls: seq<BudgetPoll>): BudgetView
    decreases |polls|
  {
    if |polls| == 0 then v
    else
      var last := polls[|polls| - 1];
      BudgetUpdate(BudgetUpdates(v, polls[..|polls| - 1]), last.now, last.fetched)
  }

  /**
   * Over any run of updates an unavailable budget sensor stays unavailable,
   * and its timestamp never goes back.
   */
  lemma {:induction false} BudgetUpdatesKeep(v: BudgetView, polls: seq<BudgetPoll>)
    ensures BudgetUpdates(v, polls).available ==> v.available
    ensures BudgetUpdates(v, polls).lastUpdated >= v.lastUpdated
    decreases |polls|
  {
    if |polls| > 0 {
      BudgetUpdatesKeep(v, polls[..|polls| - 1]);
    }
  }

  // ---------------------------------------------------------------------
  // The sensor entities

  /** `actualbudgetAccountSensor`. */
  class AccountSensor {
    const name: string
    const prefix: Option<string>
    const uniqueSourceId: string
    var balance: int
    var available: bool
    var balanceLastUpdated: int

    function View(): AccountView
      reads this
    {
      AccountView(balance, available, balanceLastUpdated)
    }

    constructor (name: string, balance: int, uniqueSourceId: string, prefix: Option<string>, lastUpdate: int)
      ensures this.name == name && this.prefix == prefix && this.uniqueSourceId == uniqueSourceId
      ensures View() == AccountView(balance, true, lastUpdate)
    {
      this.name := name;
      this.prefix := prefix;
      this.uniqueSourceId := uniqueSourceId;
      this.balance := balance;
      this.available := true;
      this.balanceLastUpdated := lastUpdate;
    }

    function Name(): string
    {
      AccountSensorName(prefix, name)
    }

    function UniqueId(domain: string): string
    {
      AccountUniqueId(domain, uniqueSourceId, prefix, name)
    }

    /** `async_update` (lines 196-215). */
    method AsyncUpdate(now: int, fetched: Result<Option<Budgets.Account>, Client.Error>)
      modifies this
      ensures View() == AccountUpdate(old(View()), now, fetched)
    {
      if now - balanceLastUpdated < MINIMUM_INTERVAL {
        return;
      }
      match fetched {
        case Failure(_) =>
          available := false;
        case Success(account) =>
          if account.Some? {
            balance := account.value.balance;
          }
          balanceLastUpdated := now;
      }
    }
  }

  /** `actualbudgetBudgetSensor`. */
  class BudgetSensor {
    const name: string
    const prefix: Option<string>
    const uniqueSourceId: string
    var amounts: seq<Budgets.BudgetAmount>
    var balance: int
    var available: bool
    var balanceLastUpdated: int

    function View(): BudgetView
      reads this
    {
      BudgetView(amounts, balance, available, balanceLastUpdated)
    }

    constructor (name: string, amounts: seq<Budgets.BudgetAmount>, balance: int, uniqueSourceId: string,
                 prefix: Option<string>, lastUpdate: int)
      ensures this.name == name && this.prefix == prefix && this.uniqueSourceId == uniqueSourceId
      ensures View() == BudgetView(amounts, balance, true, lastUpdate)
    {
      this.name := name;
      this.prefix := prefix;
      this.uniqueSourceId := uniqueSourceId;
      this.amounts := amounts;
      this.balance := balance;
      this.available := true;
      this.balanceLastUpdated := lastUpdate;
    }

    function Name(): string
    {
      BudgetSensorName(prefix, name)
    }

    function UniqueId(domain: string): string
    {
      BudgetUniqueId(domain, uniqueSourceId, prefix, name)
    }

    /** `state` (lines 295-301): the balance plus the amounts of due months. */
    method State(currentMonth: string) returns (r: int)
      ensures r == BudgetState(balance, amounts, currentMonth)
    {
      var entries := amounts;
      var total := 0;
      for i := 0 to |entries|
        invariant total == Total(DueAmounts(entries[..i], currentMonth))
      {
        var amount := entries[i];
        DueTotalStep(entries, i, currentMonth);
        if Due(amount.month, currentMonth) {
          total := total + (if amount.amount.Some? then amount.amount.value else 0);
        }
      }
      assert entries[..|entries|] == entries;
      r := balance + total;
    }

    /** `extra_state_attributes` (lines 303-320). */
    method ExtraStateAttributes(currentMonth: string) returns (r: Result<Attributes, AttributeError>)
      ensures r == AttributesOf(amounts, currentMonth)
    {
      var due := DueAmounts(amounts, currentMonth);
      if |due| == 0 {
        return Failure(IndexError);
      }
      var current: Option<Budgets.BudgetAmount> := None;
      var previous: Option<Budgets.BudgetAmount> := None;
      var total: Option<int> := None;
      if due[|due| - 1].month != "" {
        current := Some(due[|due| - 1]);
      }
      if |due| > 1 {
        previous := Some(due[|due| - 2]);
        var sum := 0;
        for i := 0 to |due|
          invariant sum == Total(due[..i])
        {
          assert due[..i + 1][..i] == due[..i];
          sum := sum + (if due[i].amount.Some? then due[i].amount.value else 0);
        }
        assert due[..|due|] == due;
        total := Some(sum);
      }
      r := Success(Attributes(current, previous, total));
    }

    /** `async_update` (lines 322-342). */
    method AsyncUpdate(now: int, fetched: Result<Option<Budgets.Budget>, Client.Error>)
      modifies this
      ensures View() == BudgetUpdate(old(View()), now, fetched)
    {
      if now - balanceLastUpdated < MINIMUM_INTERVAL {
        return;
      }
      match fetched {
        case Failure(_) =>
          available := false;
        case Success(budget) =>
          balanceLastUpdated := now;
          if budget.Some? {
            amounts := budget.value.amounts;
            balance := budget.value.balance;
          }
      }
    }
  }
}
