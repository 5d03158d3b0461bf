/**
 * Budgets and accounts as the integration reports them: the budget rows of
 * the budget file grouped by category, each category's amounts sorted by
 * month, and the category balance looked up beside them (`get_budgets_sync`
 * and `get_budget_sync` in custom_components/actualbudget/actualbudget.py),
 * and the single-account lookup of `get_account_sync`.
 *
 * Amounts are integers in minor units (cents); the division by 100 into a
 * float is not part of this model.
 */
module Budgets {
  import opened Wrappers
  import opened Text

  // ---------------------------------------------------------------------
  // Rows and budgets

  /**
   * One budget row of the budget file: the name of its category (`None` when
   * the row has no category), the raw amount in cents and the month, already
   * turned into text.
   */
  datatype BudgetRow = BudgetRow(category: Option<string>, amount: Option<int>, month: string)

  /** The amount budgeted for one month; `None` when nothing (or zero) is budgeted. */
  datatype BudgetAmount = BudgetAmount(month: string, amount: Option<int>)

  /** One category's budget: its amounts by month and the category balance. */
  datatype Budget = Budget(name: string, amounts: seq<BudgetAmount>, balance: int)

  datatype LookupError = BudgetNotFound(name: string) | AccountNotFound(name: string)

  /** Balances the category lookup finds, by category name. */
  type Balances = map<string, int>

  /** A raw amount that is missing or zero (both falsy) is reported as no amount. */
  function AmountOf(raw: Option<int>): (r: Option<int>)
    ensures r.None? <==> (raw.None? || raw.value == 0)
    ensures r.Some? ==> r == raw
  {
    if raw.None? || raw.value == 0 then None else raw
  }

  function AmountOfRow(row: BudgetRow): BudgetAmount
  {
    BudgetAmount(row.month, AmountOf(row.amount))
  }

  /** A category the lookup does not find has balance zero. */
  function BalanceOf(balances: Balances, category: string): (r: int)
    ensures category !in balances ==> r == 0
    ensures category in balances ==> r == balances[category]
  {
    if category in balances then balances[category] else 0
  }

  // ---------------------------------------------------------------------
  // Sorting by month (Python's `sorted`, which is stable)

  /** Months never decrease along the list. */
  predicate SortedByMonth(s: seq<BudgetAmount>)
  {
    forall i :: 0 < i < |s| ==> LexLe(s[i - 1].month, s[i].month)
  }

  /** The entries of one month, in the order the list holds them. */
  function OfMonth(s: seq<BudgetAmount>, month: string): (r: seq<BudgetAmount>)
    ensures |r| <= |s|
  {
    if |s| == 0 then []
    else OfMonth(s[..|s| - 1], month) + (if s[|s| - 1].month == month then [s[|s| - 1]] else [])
  }

  /**
   * Places `x` after the entries at the end of `sorted` whose month is later
   * than its own: into a sorted list, after every entry of a month not later
   * than `x`'s, so that entries of equal months keep their order.
   */
  function InsertLast(sorted: seq<BudgetAmount>, x: BudgetAmount): (r: seq<BudgetAmount>)
    ensures |r| == |sorted| + 1
    decreases |sorted|
  {
    if |sorted| == 0 || LexLe(sorted[|sorted| - 1].month, x.month) then sorted + [x]
    else InsertLast(sorted[..|sorted| - 1], x) + [sorted[|sorted| - 1]]
  }

  /** Insertion keeps a sorted list sorted and ends it with `x` or with the former last entry. */
  lemma {:induction false} InsertLastSorted(sorted: seq<BudgetAmount>, x: BudgetAmount)
    requires SortedByMonth(sorted)
    ensures SortedByMonth(InsertLast(sorted, x))
    ensures var r := InsertLast(sorted, x); r[|r| - 1] == x || (|sorted| > 0 && r[|r| - 1] == sorted[|sorted| - 1])
    decreases |sorted|
  {
    if |sorted| > 0 && !LexLe(sorted[|sorted| - 1].month, x.month) {
      var init := sorted[..|sorted| - 1];
      var last := sorted[|sorted| - 1];
      assert SortedByMonth(init);
      InsertLastSorted(init, x);
      LexLeTotal(last.month, x.month);
      var r0 := InsertLast(init, x);
      if |init| > 0 {
        assert LexLe(init[|init| - 1].month, last.month);
      }
      assert LexLe(r0[|r0| - 1].month, last.month);
    }
  }

  /** Insertion adds `x` and nothing else. */
  lemma {:induction false} InsertLastPermutes(sorted: seq<BudgetAmount>, x: BudgetAmount)
    ensures multiset(InsertLast(sorted, x)) == multiset(sorted) + multiset{x}
    decreases |sorted|
  {
    if |sorted| > 0 && !LexLe(sorted[|sorted| - 1].month, x.month) {
      var init := sorted[..|sorted| - 1];
      InsertLastPermutes(init, x);
      assert sorted == init + [sorted[|sorted| - 1]];
    }
  }

  /** Insertion into a sorted list adds the entry to its month and changes no other month. */
  lemma {:induction false} InsertLastKeepsMonths(sorted: seq<BudgetAmount>, x: BudgetAmount, month: string)
    ensures OfMonth(InsertLast(sorted, x), month) == OfMonth(sorted, month) + (if x.month == month then [x] else [])
    decreases |sorted|
  {
    var r := InsertLast(sorted, x);
    if |sorted| == 0 || LexLe(sorted[|sorted| - 1].month, x.month) {
      assert r == sorted + [x];
      assert r[..|r| - 1] == sorted;
      assert OfMonth(r, month) == OfMonth(sorted, month) + (if x.month == month then [x] else []);
    } else {
      var init := sorted[..|sorted| - 1];
      var last := sorted[|sorted| - 1];
      var r0 := InsertLast(init, x);
      assert r == r0 + [last];
      InsertLastKeepsMonths(init, x, month);
      assert r[..|r| - 1] == r0;
      LexLeReflexive(x.month);
      assert last.month != x.month;
      assert OfMonth(r, month) == OfMonth(r0, month) + (if last.month == month then [last] else []);
      assert OfMonth(sorted, month) == OfMonth(init, month) + (if last.month == month then [last] else []);
      if x.month == month {
        assert OfMonth(r, month) == OfMonth(init, month) + [x];
      } else if last.month == month {
        assert OfMonth(r, month) == OfMonth(init, month) + [last];
      } else {
        assert OfMonth(r, month) == OfMonth(init, month);
      }
    }
  }

  /** `sorted(amounts, key=lambda x: x.month)`: an insertion sort. */
  function SortByMonth(s: seq<BudgetAmount>): (r: seq<BudgetAmount>)
    ensures SortedByMonth(r)
    ensures multiset(r) == multiset(s)
    ensures |r| == |s|
    decreases |s|
  {
    if |s| == 0 then []
    else
      var init := s[..|s| - 1];
      var sortedInit := SortByMonth(init);
      InsertLastSorted(sortedInit, s[|s| - 1]);
      InsertLastPermutes(sortedInit, s[|s| - 1]);
      assert s == init + [s[|s| - 1]];
      InsertLast(sortedInit, s[|s| - 1])
  }

  /** The sort is stable: the entries of each month stay in their original order. */
  lemma {:induction false} SortByMonthIsStable(s: seq<BudgetAmount>, month: string)
    ensures OfMonth(SortByMonth(s), month) == OfMonth(s, month)
    decreases |s|
  {
    if |s| > 0 {
      var init := s[..|s| - 1];
      SortByMonthIsStable(init, month);
      InsertLastKeepsMonths(SortByMonth(init), s[|s| - 1], month);
    }
  }

  /** Sorting a list whose months already never decrease leaves it as it is. */
  lemma {:induction false} SortByMonthOfSorted(s: seq<BudgetAmount>)
    requires SortedByMonth(s)
    ensures SortByMonth(s) == s
    decreases |s|
  {
    if |s| > 0 {
      var init, last := s[..|s| - 1], s[|s| - 1];
      assert s == init + [last];
      forall i | 0 < i < |init| ensures LexLe(init[i - 1].month, init[i].month) {
        assert init[i - 1] == s[i - 1] && init[i] == s[i];
      }
      SortByMonthOfSorted(init);
      if |init| > 0 {
        assert LexLe(init[|init| - 1].month, last.month);
      }
      assert SortByMonth(s) == InsertLast(init, last);
    }
  }

  // ---------------------------------------------------------------------
  // All budgets (get_budgets_sync, lines 159-187)

  /** The category names of the rows, each once, in the order they first occur. */
  function Categories(rows: seq<BudgetRow>): (r: seq<string>)
    decreases |rows|
  {
    if |rows| == 0 then []
    else
      var init := Categories(rows[..|rows| - 1]);
      var row := rows[|rows| - 1];
      if row.category.Some? && row.category.value !in init then init + [row.category.value] else init
  }

  /** Each category name is listed once, and exactly the names some row carries are listed. */
  lemma {:induction false} CategoriesDistinct(rows: seq<BudgetRow>)
    ensures forall i, j :: 0 <= i < j < |Categories(rows)| ==> Categories(rows)[i] != Categories(rows)[j]
    ensures forall c :: c in Categories(rows) <==> Some(c) in CategoriesOf(rows)
    decreases |rows|
  {
    if |rows| > 0 {
      var init := rows[..|rows| - 1];
      CategoriesDistinct(init);
      assert CategoriesOf(rows) == CategoriesOf(init) + [rows[|rows| - 1].category];
    }
  }

  /**
   * Categories are listed in the order they are first seen: a row carrying
   * a later-listed category comes after some row carrying each earlier one.
   */
  lemma {:induction false} CategoriesFirstSeenOrder(rows: seq<BudgetRow>)
    ensures forall i, j, k :: 0 <= i < j < |Categories(rows)| && 0 <= k < |rows| &&
                              rows[k].category == Some(Categories(rows)[j]) ==>
                                Some(Categories(rows)[i]) in CategoriesOf(rows[..k])
    decreases |rows|
  {
    if |rows| > 0 {
      var init := rows[..|rows| - 1];
      var cs, before := Categories(rows), Categories(init);
      CategoriesFirstSeenOrder(init);
      CategoriesDistinct(init);
      forall i, j, k | 0 <= i < j < |cs| && 0 <= k < |rows| && rows[k].category == Some(cs[j])
        ensures Some(cs[i]) in CategoriesOf(rows[..k])
      {
        assert i < |before| && cs[i] == before[i];
        if k < |init| {
          assert init[k] == rows[k] && init[..k] == rows[..k];
        } else {
          assert rows[..k] == init;
          assert before[i] in before;
        }
      }
    }
  }

  /** Taking one more row lists its category if it is new. */
  lemma CategoriesNext(rows: seq<BudgetRow>, i: nat)
    requires i < |rows|
    ensures var init := Categories(rows[..i]);
            Categories(rows[..i + 1])
            == if rows[i].category.Some? && rows[i].category.value !in init then init + [rows[i].category.value] else init
  {
    assert rows[..i + 1][..i] == rows[..i];
  }

  /** The category of every row, in row order. */
  function CategoriesOf(rows: seq<BudgetRow>): (r: seq<Option<string>>)
    ensures |r| == |rows| && forall i :: 0 <= i < |rows| ==> r[i] == rows[i].category
  {
    seq(|rows|, i requires 0 <= i < |rows| => rows[i].category)
  }

  /** The rows of one category, in row order. */
  function RowsIn(rows: seq<BudgetRow>, category: string): (r: seq<BudgetRow>)
    ensures |r| <= |rows|
    ensures forall row :: row in r <==> row in rows && row.category == Some(category)
    decreases |rows|
  {
    if |rows| == 0 then []
    else
      var row := rows[|rows| - 1];
      assert rows == rows[..|rows| - 1] + [row];
      RowsIn(rows[..|rows| - 1], category) + (if row.category == Some(category) then [row] else [])
  }

  /** The amounts of a list of rows, in row order. */
  function AmountsOf(rows: seq<BudgetRow>): (r: seq<BudgetAmount>)
    ensures |r| == |rows| && forall i :: 0 <= i < |rows| ==> r[i] == AmountOfRow(rows[i])
  {
    seq(|rows|, i requires 0 <= i < |rows| => AmountOfRow(rows[i]))
  }

  /** The budget of one category as `get_budgets_sync` builds it. */
  function BudgetOf(rows: seq<BudgetRow>, balances: Balances, category: string): Budget
  {
    Budget(category, SortByMonth(AmountsOf(RowsIn(rows, category))), BalanceOf(balances, category))
  }

  /** What `get_budgets_sync` returns: one budget per category, in first-seen order. */
  function AllBudgets(rows: seq<BudgetRow>, balances: Balances): (r: seq<Budget>)
    ensures |r| == |Categories(rows)|
  {
    var categories := Categories(rows);
    seq(|categories|, i requires 0 <= i < |categories| => BudgetOf(rows, balances, categories[i]))
  }

  /** Taking one more row adds it to its own category's rows and to no other. */
  lemma RowsInNext(rows: seq<BudgetRow>, i: nat, category: string)
    requires i < |rows|
    ensures RowsIn(rows[..i + 1], category)
            == RowsIn(rows[..i], category) + (if rows[i].category == Some(category) then [rows[i]] else [])
  {
    assert rows[..i + 1][..i] == rows[..i];
  }

  lemma AmountsOfSnoc(rows: seq<BudgetRow>, row: BudgetRow)
    ensures AmountsOf(rows + [row]) == AmountsOf(rows) + [AmountOfRow(row)]
  {
  }

  /** The state of the grouping loop after the first `i` rows. */
  ghost predicate GroupedUpTo(rows: seq<BudgetRow>, i: nat, order: seq<string>, groups: map<string, seq<BudgetAmount>>)
    requires i <= |rows|
  {
    && order == Categories(rows[..i])
    && (forall c :: c in groups <==> c in order)
    && (forall c :: c in groups ==> groups[c] == AmountsOf(RowsIn(rows[..i], c)))
  }

  /** A row without a category leaves the grouping as it is. */
  lemma GroupSkip(rows: seq<BudgetRow>, i: nat, order: seq<string>, groups: map<string, seq<BudgetAmount>>)
    requires i < |rows| && rows[i].category.None? && GroupedUpTo(rows, i, order, groups)
    ensures GroupedUpTo(rows, i + 1, order, groups)
  {
    CategoriesNext(rows, i);
    forall c | c in groups ensures groups[c] == AmountsOf(RowsIn(rows[..i + 1], c)) {
      RowsInNext(rows, i, c);
    }
  }

  /** A row with a category is appended to that category's group, opened if new. */
  lemma GroupAdd(rows: seq<BudgetRow>, i: nat, order: seq<string>, groups: map<string, seq<BudgetAmount>>)
    requires i < |rows| && rows[i].category.Some? && GroupedUpTo(rows, i, order, groups)
    ensures var c := rows[i].category.value;
            var order' := if c in groups then order else order + [c];
            var group := if c in groups then groups[c] else [];
            GroupedUpTo(rows, i + 1, order', groups[c := group + [AmountOfRow(rows[i])]])
  {
    var c := rows[i].category.value;
    CategoriesNext(rows, i);
    var group := if c in groups then groups[c] else [];
    var groups' := groups[c := group + [AmountOfRow(rows[i])]];
    forall d | d in groups' ensures groups'[d] == AmountsOf(RowsIn(rows[..i + 1], d)) {
      RowsInNext(rows, i, d);
      if d == c {
        if c !in groups {
          RowsInOfOther(rows[..i], c);
        }
        AmountsOfSnoc(RowsIn(rows[..i], d), rows[i]);
      }
    }
  }

  /** A name no row carries has no rows. */
  lemma RowsInOfOther(rows: seq<BudgetRow>, category: string)
    requires category !in Categories(rows)
    ensures RowsIn(rows, category) == []
  {
    CategoriesDistinct(rows);
  }

  /** After the last row, the groups are those of all rows. */
  lemma GroupedAll(rows: seq<BudgetRow>, order: seq<string>, groups: map<string, seq<BudgetAmount>>)
    requires GroupedUpTo(rows, |rows|, order, groups)
    ensures order == Categories(rows) && forall c :: c in order ==> c in groups && groups[c] == AmountsOf(RowsIn(rows, c))
  {
    assert rows[..|rows|] == rows;
  }

  /**
   * The two loops of `get_budgets_sync`: the first groups the amounts of
   * the rows with a category under that category, in the order categories
   * first appear (a dictionary keeps insertion order); the second sorts each
   * category's amounts by month and looks up its balance.
   */
  method GroupBudgets(rows: seq<BudgetRow>, balances: Balances) returns (budgets: seq<Budget>)
    ensures budgets == AllBudgets(rows, balances)
  {
    var order: seq<string> := [];
    var groups: map<string, seq<BudgetAmount>> := map[];
    for i := 0 to |rows|
      invariant GroupedUpTo(rows, i, order, groups)
    {
      var row := rows[i];
      if row.category.None? {
        GroupSkip(rows, i, order, groups);
        continue;
      }
      GroupAdd(rows, i, order, groups);
      var category := row.category.value;
      var amount := AmountOf(row.amount);
      if category !in groups {
        order := order + [category];
        groups := groups[category := []];
      }
      groups := groups[category := groups[category] + [BudgetAmount(row.month, amount)]];
    }
    GroupedAll(rows, order, groups);
    budgets := [];
    for k := 0 to |order|
      invariant |budgets| == k && BudgetsUpTo(rows, balances, order, budgets)
    {
      var category := order[k];
      assert category in order;
      var budget := Budget(category, SortByMonth(groups[category]), BalanceOf(balances, category));
      NextBudget(rows, balances, order, budgets, budget);
      budgets := budgets + [budget];
    }
    AllBudgetsOf(rows, balances, budgets);
  }

  /** The first budgets of the second loop, one per category in `order`. */
  ghost predicate BudgetsUpTo(rows: seq<BudgetRow>, balances: Balances, order: seq<string>, budgets: seq<Budget>)
  {
    |budgets| <= |order| && forall j :: 0 <= j < |budgets| ==> budgets[j] == BudgetOf(rows, balances, order[j])
  }

  lemma NextBudget(rows: seq<BudgetRow>, balances: Balances, order: seq<string>, budgets: seq<Budget>, budget: Budget)
    requires BudgetsUpTo(rows, balances, order, budgets) && |budgets| < |order|
    requires budget == BudgetOf(rows, balances, order[|budgets|])
    ensures BudgetsUpTo(rows, balances, order, budgets + [budget])
  {
    var next := budgets + [budget];
    forall j | 0 <= j < |next| ensures next[j] == BudgetOf(rows, balances, order[j]) {
      if j < |budgets| {
        assert next[j] == budgets[j];
      }
    }
  }

  lemma AllBudgetsOf(rows: seq<BudgetRow>, balances: Balances, budgets: seq<Budget>)
    requires |budgets| == |Categories(rows)| && BudgetsUpTo(rows, balances, Categories(rows), budgets)
    ensures budgets == AllBudgets(rows, balances)
  {
  }

  /** Every category with a row gets a budget, no other budget is made, and no two share a name. */
  lemma AllBudgetsCoverCategories(rows: seq<BudgetRow>, balances: Balances)
    ensures forall c :: Some(c) in CategoriesOf(rows) ==>
              exists i :: 0 <= i < |AllBudgets(rows, balances)| && AllBudgets(rows, balances)[i].name == c
    ensures forall i :: 0 <= i < |AllBudgets(rows, balances)| ==> Some(AllBudgets(rows, balances)[i].name) in CategoriesOf(rows)
    ensures forall i, j :: 0 <= i < j < |AllBudgets(rows, balances)| ==>
              AllBudgets(rows, balances)[i].name != AllBudgets(rows, balances)[j].name
  {
    var categories := Categories(rows);
    var budgets := AllBudgets(rows, balances);
    CategoriesDistinct(rows);
    forall c | Some(c) in CategoriesOf(rows)
      ensures exists i :: 0 <= i < |budgets| && budgets[i].name == c
    {
      var i :| 0 <= i < |categories| && categories[i] == c;
      assert budgets[i].name == c;
    }
    forall i | 0 <= i < |budgets| ensures Some(budgets[i].name) in CategoriesOf(rows) {
      assert budgets[i].name == categories[i] && categories[i] in categories;
    }
    forall i, j | 0 <= i < j < |budgets| ensures budgets[i].name != budgets[j].name {
      assert budgets[i].name == categories[i] && budgets[j].name == categories[j];
    }
  }

  /**
   * The amounts of each budget are those of its category's rows (never
   * none), sorted by month, each month's entries in row order.
   */
  lemma AllBudgetsShape(rows: seq<BudgetRow>, balances: Balances, i: nat)
    requires i < |AllBudgets(rows, balances)|
    ensures var b := AllBudgets(rows, balances)[i];
            && SortedByMonth(b.amounts)
            && multiset(b.amounts) == multiset(AmountsOf(RowsIn(rows, b.name)))
            && 0 < |b.amounts|
            && (forall m :: OfMonth(b.amounts, m) == OfMonth(AmountsOf(RowsIn(rows, b.name)), m))
            && b.balance == BalanceOf(balances, b.name)
  {
    var category := Categories(rows)[i];
    CategoriesDistinct(rows);
    var amounts := AmountsOf(RowsIn(rows, category));
    var k :| 0 <= k < |rows| && CategoriesOf(rows)[k] == Some(category);
    assert rows[k] in RowsIn(rows, category);
    forall m { SortByMonthIsStable(amounts, m); }
  }

  // ---------------------------------------------------------------------
  // One budget (get_budget_sync, lines 195-216)

  /** What `get_budget_sync` returns for the rows the library finds under `name`. */
  function OneBudget(name: string, rows: seq<BudgetRow>, balances: Balances): Result<Budget, LookupError>
  {
    if |rows| == 0 then Failure(BudgetNotFound(name))
    else Success(Budget(name, SortByMonth(AmountsOf(rows)), BalanceOf(balances, name)))
  }

  /**
   * The loop of `get_budget_sync`: no rows is an error naming the budget;
   * otherwise the amounts of all rows, sorted by month, with the balance
   * of the category of that name.
   */
  method ShapeBudget(name: string, rows: seq<BudgetRow>, balances: Balances)
    returns (r: Result<Budget, LookupError>)
    ensures r == OneBudget(name, rows, balances)
  {
    if |rows| == 0 {
      return Failure(BudgetNotFound(name));
    }
    var amounts: seq<BudgetAmount> := [];
    for i := 0 to |rows|
      invariant amounts == AmountsOf(rows[..i])
    {
      amounts := amounts + [BudgetAmount(rows[i].month, AmountOf(rows[i].amount))];
    }
    assert rows[..|rows|] == rows;
    r := Success(Budget(name, SortByMonth(amounts), BalanceOf(balances, name)));
  }

  /** One budget is found exactly when there are rows; its amounts are theirs, sorted by month. */
  lemma OneBudgetShape(name: string, rows: seq<BudgetRow>, balances: Balances)
    ensures OneBudget(name, rows, balances).Failure? <==> |rows| == 0
    ensures OneBudget(name, rows, balances).Failure? ==> OneBudget(name, rows, balances).error == BudgetNotFound(name)
    ensures OneBudget(name, rows, balances).Success? ==>
      var b := OneBudget(name, rows, balances).value;
      && b.name == name && b.balance == BalanceOf(balances, name)
      && SortedByMonth(b.amounts) && multiset(b.amounts) == multiset(AmountsOf(rows))
  {
  }

  /**
   * Fetching one category's rows and shaping them with `get_budget_sync`
   * gives the same budget as `get_budgets_sync` gives for that category.
   */
  lemma OneBudgetAgreesWithAll(rows: seq<BudgetRow>, balances: Balances, i: nat)
    requires i < |Categories(rows)|
    ensures OneBudget(Categories(rows)[i], RowsIn(rows, Categories(rows)[i]), balances)
            == Success(AllBudgets(rows, balances)[i])
  {
    var category := Categories(rows)[i];
    CategoriesDistinct(rows);
    var k :| 0 <= k < |rows| && CategoriesOf(rows)[k] == Some(category);
    assert rows[k] in RowsIn(rows, category);
  }

  // ---------------------------------------------------------------------
  // One account (get_account_sync, lines 144-153)

  /** An account as the library reports it: its name (possibly absent) and its balance. */
  datatype Account = Account(name: Option<string>, balance: int)

  /**
   * `get_account_sync` once the library has looked the name up: an account
   * that is not found is an error naming it; a found one is copied as it is.
   */
  function AccountLookup(name: string, found: Option<Account>): (r: Result<Account, LookupError>)
    ensures r.Failure? <==> found.None?
    ensures r.Failure? ==> r.error == AccountNotFound(name)
    ensures r.Success? ==> r.value == found.value
  {
    match found
    case None => Failure(AccountNotFound(name))
    case Some(account) => Success(Account(account.name, account.balance))
  }
}
