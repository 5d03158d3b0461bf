# ha-actualbudget in Dafny

A model of the Home Assistant integration for Actual Budget. It covers two
files:

- the `ActualBudget` client (`actualbudget.py`). This is its session cache
  with a 30-minute lifetime, together with account and budget lookups, the
  grouping of budget rows into budgets sorted by month, and the Akahu
  bank-feed import. The import pages through each feed account with a
  cursor, shapes every transaction into payee, notes and category, creates
  only the transactions whose (date, account, imported id) key is new, and
  commits once all accounts are done.
- the sensors (`sensor.py`). This covers the names and unique ids of the
  account and budget sensors, a budget's state (balance plus the amounts of
  months that are due) and its extra attributes, and the `async_update` of
  both sensors, which is throttled to once a minute.

Files:

- `wrappers.dfy`: `Option` and `Result`.
- `text.dfy`: what Python's string operations mean on ASCII text. This
  covers truthiness of an optional string, `str.lower`, `in`,
  `str.strip`, `str.join`, string ordering and `int(str)`.
- `akahu.dfy`: `cleanup_meta`, the merchant and meta summaries, the notes,
  the payee, the `sync_days` setting, per-transaction shaping,
  match-or-create, and the cursor loop over one feed account and over all
  accounts.
- `budgets.dfy`: the grouping and stable sort of `get_budgets_sync`, the
  single budget of `get_budget_sync`, and the account lookup of
  `get_account_sync`.
- `client.dfy`: the class `ActualBudget`, with `get_session` as a state
  machine, the `*_sync` operations on top of it, and
  `run_akahu_bank_sync_sync` with its commit.
- `sensor.dfy`: sensor naming, the budget state and attributes, and the two
  sensor classes with their `async_update`.

Conventions:

- Money is in integer minor units.
- Time is in integer microseconds.
- A month is its `%Y%m` text. A month is due when, as a string, it is not
  after the current month.
- What the `actual` library, the HTTP endpoints and the clock deliver are
  parameters of the operations:
  - whether a session validates;
  - how creating a session ends;
  - the rows and balances the queries return;
  - the pages the transactions endpoint answers with;
  - the time `now`, and for the Akahu start date the clock's day `today`,
    counted from 1 January of year 1.
- The budget file is a `Store` value. It holds the account names, the keys
  of imported transactions, the transactions created and a log of
  rule-set runs.

## Model

| member | source | states |
|---|---|---|
| Text.ToLower | custom_components/actualbudget/actualbudget.py:236-239 | `str.lower` keeps the length and lower-cases each ASCII letter in place |
| Text.ToLowerIdempotent | custom_components/actualbudget/sensor.py:165-168 | lower-casing twice is lower-casing once |
| Text.ContainsOccurs | custom_components/actualbudget/actualbudget.py:236-239 | `pattern in s` holds exactly when the pattern occurs at some index of `s` |
| Text.Strip | custom_components/actualbudget/actualbudget.py:358 | `str.strip` is the slice between the leading and the trailing whitespace: it starts and ends with a non-space, and it is empty exactly when the text is all whitespace |
| Text.StripUnchanged | custom_components/actualbudget/actualbudget.py:358 | text that starts and ends with a non-space strips to itself |
| Text.ParseInt | custom_components/actualbudget/actualbudget.py:281-282 | `int(s)` succeeds only on text that is not blank once stripped and holds none of the separators 0x1C-0x1F, which `int` does not skip |
| Text.ParseIntOfPadded | custom_components/actualbudget/actualbudget.py:281-282 | `int` reads an optional "+" or "-" and a numeral between whitespace it skips as the signed value, and fails when the numeral has more than 4300 digits |
| Text.ParseIntOfNumeral | custom_components/actualbudget/actualbudget.py:281-282 | `int` reads an unsigned numeral, underscores included, as its value, and fails beyond 4300 digits |
| Text.ParseIntOfNegative | custom_components/actualbudget/actualbudget.py:281-282 | `int` reads "-" followed by a numeral as the negated value, and fails beyond 4300 digits |
| Text.ParseIntRoundTrip | custom_components/actualbudget/actualbudget.py:281-282 | `int` reads the decimal text of any integer of at most 4300 digits back as that integer, and fails on a longer one |
| Text.LexLeTotal | custom_components/actualbudget/actualbudget.py:180-182 | the string order used for months is total |
| Text.LexLeTransitive | custom_components/actualbudget/actualbudget.py:180-182 | the string order used for months is transitive |
| Akahu.CleanupMeta | custom_components/actualbudget/actualbudget.py:234-241 | a value holding "cdn." or "akahu" in any case is blanked, any other value is returned unchanged, and the result never needs blanking again |
| Akahu.CleanupMetaBlanksAt | custom_components/actualbudget/actualbudget.py:236-240 | an occurrence of "cdn." or "akahu" at any index of the lower-cased value blanks it |
| Akahu.CleanupMetaKeepsWithout | custom_components/actualbudget/actualbudget.py:234-241 | a value whose lower case has no 'd' and no 'k' is kept |
| Akahu.CleanupMetaBlanksUpperCaseLink | custom_components/actualbudget/actualbudget.py:236-237 | an upper-case CDN link is blanked, because the test is on the lower-cased value |
| Akahu.Contributions | custom_components/actualbudget/actualbudget.py:318-321 | one cleaned value per key other than `_id`, so never more parts than keys |
| Akahu.ContributionsEmpty | custom_components/actualbudget/actualbudget.py:317-325 | no part is contributed exactly when every key is `_id` |
| Akahu.ContributionsOfIdAndThree | custom_components/actualbudget/actualbudget.py:318-325 | after an `_id` key, three other keys contribute their three cleaned values in order |
| Akahu.ContributionsExample | custom_components/actualbudget/actualbudget.py:317-325 | a merchant with an id, a name, a CDN logo and a website contributes "Cafe", "" and the website |
| Akahu.BuildSummary | custom_components/actualbudget/actualbudget.py:317-325 | the accumulator loop over a merchant or meta object yields the summary: the cleaned values joined by two spaces, or `None` when only `_id` is present |
| Akahu.SummaryShape | custom_components/actualbudget/actualbudget.py:317-325 | the summary is `None` exactly when every key is `_id`; otherwise its length is the parts' lengths plus two per separator |
| Akahu.SummaryKeepsSeparatorOfRedactedValue | custom_components/actualbudget/actualbudget.py:321-325 | a blanked value still adds its separator, so the summary shows four spaces around it |
| Akahu.Notes | custom_components/actualbudget/actualbudget.py:346-353 | the notes end with the description; they equal it exactly when meta, merchant and category are all falsy; otherwise they start with the first truthy one of those, followed by a space |
| Akahu.NotesOrder | custom_components/actualbudget/actualbudget.py:346-353 | the notes are the meta summary, then the merchant summary, then the category name, each present exactly when truthy and followed by a space, then the description |
| Akahu.TrailingDigits | custom_components/actualbudget/actualbudget.py:358 | the length of the maximal run of digits that ends the text |
| Akahu.RemoveTrailingNumberCutsAtLeftmostMatch | custom_components/actualbudget/actualbudget.py:355-358 | the cut is that of `re.sub(r'\d{3,}$', '', s)`, where `$` matches at the end or before a final newline: nothing when `\d{3,}$` matches nowhere, else from the leftmost index where it matches up to that line end, a final newline staying |
| Akahu.Payee | custom_components/actualbudget/actualbudget.py:355-358 | the payee has no surrounding whitespace and occurs in the description; with fewer than three digits before the line end it is the stripped description |
| Akahu.TrailingDigitsOf | custom_components/actualbudget/actualbudget.py:358 | digits after a non-digit are exactly the trailing digit run |
| Akahu.PayeeDropsNumber | custom_components/actualbudget/actualbudget.py:355-358 | three or more digits after a text not ending in a digit are removed, also before a final newline, and the payee is that text stripped |
| Akahu.PayeeKeepsShortNumber | custom_components/actualbudget/actualbudget.py:355-358 | one or two digits at the end are kept, and the payee is the whole description stripped |
| Akahu.StartFor | custom_components/actualbudget/actualbudget.py:275-285 | 20 days back is computed first and fails when that date does not exist; then "all" in any case means no start date, an integer `int` reads means that many days back and fails when that date does not exist, anything else or no setting means 20 days back; a failure is the date-out-of-range error |
| Akahu.StartForRoundTrip | custom_components/actualbudget/actualbudget.py:275-285 | a number of days written as text fails when the date 20 days back does not exist; otherwise a number of more than 4300 digits means 20 days back, and a shorter one means that many days back when that date exists and the date-out-of-range error when it does not |
| Akahu.Shape | custom_components/actualbudget/actualbudget.py:305-374 | shaping fails exactly when categories are synced and the transaction's category has no group; the failure is that error; a shaped transaction carries the transaction's (date, account, id) key |
| Akahu.ShapeTransaction | custom_components/actualbudget/actualbudget.py:305-374 | the per-transaction code computes the shaping function |
| Akahu.ShapeContents | custom_components/actualbudget/actualbudget.py:309-374 | a shaped transaction has the payee of the description, notes ending in the description, the feed amount and not cleared; it has a category exactly when categories are synced and the transaction has one, and then that category's first group |
| Akahu.ShapeAll | custom_components/actualbudget/actualbudget.py:305-374 | one shaped result per transaction, in order |
| Akahu.ShapedFromIsShapeAll | custom_components/actualbudget/actualbudget.py:305-374 | the per-index description of shaped transactions determines them uniquely |
| Akahu.Record | custom_components/actualbudget/actualbudget.py:376-389 | the key ends up in the file and the rule set runs on it; a known key creates nothing; an unknown key creates exactly that transaction; accounts are untouched |
| Akahu.RecordTransaction | custom_components/actualbudget/actualbudget.py:376-389 | match-or-create computes `Record`, reports a creation exactly for a new key, and adds one transaction exactly then |
| Akahu.ImportTransaction | custom_components/actualbudget/actualbudget.py:305-389 | one transaction is shaped then recorded; the only error is a missing category group; the created count grows by one exactly for a new key |
| Akahu.ImportPage | custom_components/actualbudget/actualbudget.py:305-389 | the loop over one page processes its transactions in order up to the first error; without error it has processed every transaction and counted the creations |
| Akahu.ErrorStopsRun | custom_components/actualbudget/actualbudget.py:305-389 | after the first error, further transactions change nothing |
| Akahu.RunCreatesFresh | custom_components/actualbudget/actualbudget.py:376-382 | processing transactions only appends transactions, each under a key new to the file, never one key twice, and loses no account |
| Akahu.CreatesFreshTransitive | custom_components/actualbudget/actualbudget.py:376-382 | creating only fresh transactions composes over consecutive runs |
| Akahu.StepCountsNewKeys | custom_components/actualbudget/actualbudget.py:380-382 | one transaction adds as many keys as transactions created |
| Akahu.RunCountsNewKeys | custom_components/actualbudget/actualbudget.py:376-389 | the created count equals the number of new keys, which is the imported count that is logged |
| Akahu.Keys | custom_components/actualbudget/actualbudget.py:377 | the match key of each shaped transaction, in order |
| Akahu.RunRunsRulesOnEveryTransaction | custom_components/actualbudget/actualbudget.py:387-389 | a run has no error exactly when every transaction is shaped; then the rule set has run on each of them in order, new or matched |
| Akahu.RunKnowsEveryKey | custom_components/actualbudget/actualbudget.py:376-382 | after a run without error every processed key is in the file |
| Akahu.RunOfKnownKeysCreatesNothing | custom_components/actualbudget/actualbudget.py:376-382 | transactions whose keys are all known create nothing and add no key |
| Akahu.RunTwiceCreatesNothing | custom_components/actualbudget/actualbudget.py:376-382 | importing the same transactions a second time creates nothing |
| Akahu.ShapedKeys | custom_components/actualbudget/actualbudget.py:305-377 | all transactions shape exactly when each one can be shaped; then their keys are the feed transactions' keys |
| Akahu.FinalPage | custom_components/actualbudget/actualbudget.py:391-395 | the first page whose next cursor is absent, empty or "none" in any case; no earlier page ends the loop |
| Akahu.FinalPageAtMost | custom_components/actualbudget/actualbudget.py:391-395 | a page that ends pagination is not before the final page |
| Akahu.AccountOutcomeOnError | custom_components/actualbudget/actualbudget.py:305-333 | an error part-way through a page is the outcome of the whole account |
| Akahu.AccountOutcomeOfShaped | custom_components/actualbudget/actualbudget.py:287-395 | an account's outcome is the run over every transaction read; a request beyond the replies fails |
| Akahu.ImportAccount | custom_components/actualbudget/actualbudget.py:287-395 | the cursor loop of one account has that account's outcome; request k carries the start date and the cursor of page k - 1; without error it requests every page up to the final one and reports transactions read, created and pages; a failed request comes after the last reply |
| Akahu.ImportAllNext | custom_components/actualbudget/actualbudget.py:265-395 | one more account, added by name, given its start date and then imported, extends the run over the feed by its outcome and report |
| Akahu.ImportAllWithoutStart | custom_components/actualbudget/actualbudget.py:265-285 | when the start date cannot be computed the run stops at the first account, which has been created, with nothing imported and no report |
| Akahu.ImportAllStops | custom_components/actualbudget/actualbudget.py:263-395 | after the first failing account no further account is touched |
| Akahu.ImportAllCreatesFresh | custom_components/actualbudget/actualbudget.py:263-395 | across all accounts only fresh transactions are created, none twice |
| Budgets.AmountOf | custom_components/actualbudget/actualbudget.py:168-170 | an absent or zero amount becomes `None`; any other amount is kept |
| Budgets.BalanceOf | custom_components/actualbudget/actualbudget.py:183-186 | a category's balance, or 0 when the category lookup finds nothing |
| Budgets.SortByMonth | custom_components/actualbudget/actualbudget.py:180-182 | `sorted(..., key=month)` yields a list sorted by month that is a permutation of its input |
| Budgets.InsertLastSorted | custom_components/actualbudget/actualbudget.py:180-182 | inserting after the last entry of a month that is not later keeps the list sorted |
| Budgets.InsertLastPermutes | custom_components/actualbudget/actualbudget.py:180-182 | the insertion adds exactly that entry |
| Budgets.InsertLastKeepsMonths | custom_components/actualbudget/actualbudget.py:180-182 | the insertion puts the entry after the entries of its own month |
| Budgets.SortByMonthIsStable | custom_components/actualbudget/actualbudget.py:180-182 | the sort is stable: entries of one month keep their order |
| Budgets.SortByMonthOfSorted | custom_components/actualbudget/actualbudget.py:180-182 | a sorted list sorts to itself |
| Budgets.OfMonth | custom_components/actualbudget/actualbudget.py:180-182 | the entries of one month, never more than the list |
| Budgets.CategoriesDistinct | custom_components/actualbudget/actualbudget.py:164-178 | budgets are keyed by category: no category twice, and exactly the categories of the rows that have one |
| Budgets.CategoriesFirstSeenOrder | custom_components/actualbudget/actualbudget.py:164-178 | budgets are listed in the order their categories are first seen: before any row of a later-listed category there is a row of each earlier one |
| Budgets.CategoriesOf | custom_components/actualbudget/actualbudget.py:164-167 | the category of every row, in order |
| Budgets.RowsIn | custom_components/actualbudget/actualbudget.py:164-178 | the rows of one category are exactly the rows carrying that category |
| Budgets.AmountsOf | custom_components/actualbudget/actualbudget.py:168-178 | one month and amount per row, in order |
| Budgets.AllBudgets | custom_components/actualbudget/actualbudget.py:159-187 | one budget per category |
| Budgets.RowsInOfOther | custom_components/actualbudget/actualbudget.py:164-178 | a name that is no row's category has no rows |
| Budgets.GroupBudgets | custom_components/actualbudget/actualbudget.py:159-187 | the two loops of `get_budgets_sync` compute `AllBudgets` |
| Budgets.AllBudgetsCoverCategories | custom_components/actualbudget/actualbudget.py:159-187 | every category of the rows has a budget, every budget is named after a category of the rows, and no two budgets share a name |
| Budgets.AllBudgetsShape | custom_components/actualbudget/actualbudget.py:159-187 | each budget's amounts are its category's rows sorted by month, stably and as a permutation; there is at least one; its balance is the category's |
| Budgets.ShapeBudget | custom_components/actualbudget/actualbudget.py:195-216 | the loop of `get_budget_sync` computes `OneBudget` |
| Budgets.OneBudgetShape | custom_components/actualbudget/actualbudget.py:201-215 | the lookup fails, as budget not found, exactly when there are no rows; otherwise the budget has the requested name, the category's balance, and the rows' amounts sorted by month as a permutation |
| Budgets.OneBudgetAgreesWithAll | custom_components/actualbudget/actualbudget.py:159-216 | looking up a category alone gives the same budget as the full grouping |
| Budgets.AccountLookup | custom_components/actualbudget/actualbudget.py:150-153 | the lookup fails, as account not found, exactly when the library finds no account; otherwise it copies name and balance |
| Client.ExpiredSessionIsClosed | custom_components/actualbudget/actualbudget.py:77-85 | an expired session is closed, dropped and never returned |
| Client.InvalidSessionIsDropped | custom_components/actualbudget/actualbudget.py:87-97 | a live session that fails validation is dropped without being closed, and never returned |
| Client.StartResetOnlyOnCreation | custom_components/actualbudget/actualbudget.py:99-103 | a new session is made exactly when the cached one is not kept and opening succeeds; only then is the start time reset, to now; a kept session is returned unchanged |
| Client.SessionHeldOnReturn | custom_components/actualbudget/actualbudget.py:74-126 | after `get_session` the state is consistent; a returned session is the cached one and is not expired; it fails exactly when nothing is kept and creation fails, and then no session is cached |
| Client.ActualBudget.constructor | custom_components/actualbudget/actualbudget.py:52-64 | no session, no file id, start time set to now |
| Client.ActualBudget.GetSession | custom_components/actualbudget/actualbudget.py:74-126 | the object's new session fields and result are `NextSession` of the old ones; a newly opened session works on the file as last committed, so uncommitted changes of the dropped session are lost; otherwise the file is kept |
| Client.ActualBudget.GetUniqueId | custom_components/actualbudget/actualbudget.py:70-72 | once a session is taken the file id is known and returned |
| Client.ActualBudget.GetAccount | custom_components/actualbudget/actualbudget.py:144-153 | a session failure is returned as such; otherwise the account lookup's result |
| Client.ActualBudget.GetBudgets | custom_components/actualbudget/actualbudget.py:159-187 | a session failure is returned as such; otherwise all budgets |
| Client.ActualBudget.GetBudget | custom_components/actualbudget/actualbudget.py:195-216 | a session failure is returned as such; otherwise the single-budget lookup's result |
| Client.ActualBudget.RunAkahuBankSync | custom_components/actualbudget/actualbudget.py:243-397 | a session failure leaves the file alone; otherwise the import over the whole feed starts from the file the session sees (the committed one when the session is new), with the start date of `sync_days` and today, and is committed and reported only when no account failed |
| Client.ActualBudget.TestConnection | custom_components/actualbudget/actualbudget.py:412-431 | the session is taken as `get_session` would and the result is always `None` |
| Client.ImportedOnError | custom_components/actualbudget/actualbudget.py:263-397 | a failing account ends the run without committing and returns its error |
| Client.ImportedAll | custom_components/actualbudget/actualbudget.py:396-397 | a run without error commits the file and returns the reports |
| Client.ImportedCreatesFresh | custom_components/actualbudget/actualbudget.py:243-397 | a bank sync only creates fresh transactions; the committed file is the new file on success and the old one on failure; with a start date out of range it only creates the first account and returns that error |
| Sensor.AccountSensorNameShape | custom_components/actualbudget/sensor.py:152-158 | the sensor name ends with the account name; with a truthy prefix it starts with the prefix and "_", otherwise it is the account name |
| Sensor.AccountUniqueIdShape | custom_components/actualbudget/sensor.py:160-168 | a unique id is lower case, starts with the lower-cased domain and source id, and ends with the lower-cased name |
| Sensor.AccountUniqueIdsCollide | custom_components/actualbudget/sensor.py:160-168 | two accounts of one source and prefix share a unique id exactly when their names agree once lower-cased |
| Sensor.BudgetSensorIsAccountShaped | custom_components/actualbudget/sensor.py:257-271 | a budget sensor's name and id are those of an account sensor named "budget_" or "budget-" followed by the budget name |
| Sensor.DueAmountsMembers | custom_components/actualbudget/sensor.py:306-307 | the due entries are exactly the entries whose month is not after the current month |
| Sensor.FutureMonthDoesNotCount | custom_components/actualbudget/sensor.py:297-301 | an entry for a month after the current one never changes the state, wherever it stands |
| Sensor.AllDueCounts | custom_components/actualbudget/sensor.py:297-301 | when every month is due, the state is the balance plus every amount, an absent one counting as 0 |
| Sensor.DueAmountsSorted | custom_components/actualbudget/sensor.py:306-307 | the due entries of a month-sorted list are sorted |
| Sensor.AttributesOf | custom_components/actualbudget/sensor.py:303-320 | the attributes fail with an index error exactly when no month is due; the previous entry and the total are shown exactly when at least two entries are due; the current and previous entries are due entries of the list |
| Sensor.PreviousIsSecondLastDue | custom_components/actualbudget/sensor.py:305-314 | a shown previous entry is the due entry just before the last due one: no month between them or after the last is due, and the current entry, when shown, is that last one |
| Sensor.CurrentIsLastDue | custom_components/actualbudget/sensor.py:305-311 | the current entry is the last entry of a due month, no later month being due, and it is shown exactly when its month is not empty |
| Sensor.AttributesTotalIsState | custom_components/actualbudget/sensor.py:295-320 | the total attribute plus the balance is the state; the total is shown exactly when the previous month is |
| Sensor.LatestDueIsCurrent | custom_components/actualbudget/sensor.py:306-314 | for month-sorted entries the current month is the latest due month and the previous month is not after it |
| Sensor.AccountUpdate | custom_components/actualbudget/sensor.py:196-215 | within a minute of the last update nothing changes; availability is never restored; a failure keeps balance and timestamp; the balance changes only to a fetched account's balance; a successful fetch sets the timestamp to now; the timestamp stays or moves forward by at least a minute |
| Sensor.AccountUpdatesKeep | custom_components/actualbudget/sensor.py:196-215 | over any run of updates an unavailable account sensor stays unavailable and its timestamp never goes back |
| Sensor.BudgetUpdate | custom_components/actualbudget/sensor.py:322-342 | within a minute nothing changes; availability is never restored; a failure keeps the data and timestamp; amounts and balance change only together, to a fetched budget's; a successful fetch sets the timestamp to now; the timestamp stays or moves forward by at least a minute |
| Sensor.BudgetUpdatesKeep | custom_components/actualbudget/sensor.py:322-342 | over any run of updates an unavailable budget sensor stays unavailable and its timestamp never goes back |
| Sensor.AccountSensor.constructor | custom_components/actualbudget/sensor.py:117-150 | a new sensor is available, with the given balance and timestamp |
| Sensor.AccountSensor.AsyncUpdate | custom_components/actualbudget/sensor.py:196-215 | the sensor's new balance, availability and timestamp are `AccountUpdate` of the old ones |
| Sensor.BudgetSensor.constructor | custom_components/actualbudget/sensor.py:221-255 | a new sensor is available, with the given amounts, balance and timestamp |
| Sensor.BudgetSensor.State | custom_components/actualbudget/sensor.py:295-301 | the summing loop computes the balance plus the amounts of due months |
| Sensor.BudgetSensor.ExtraStateAttributes | custom_components/actualbudget/sensor.py:303-320 | the filtering and summing code computes `AttributesOf` |
| Sensor.BudgetSensor.AsyncUpdate | custom_components/actualbudget/sensor.py:322-342 | the sensor's new amounts, balance, availability and timestamp are `BudgetUpdate` of the old ones |

## Left out

- HTTP and JSON are left out. This covers `requests.get`, `json.loads`,
  the headers and the Akahu account list. The accounts and the pages of
  each feed account are inputs, and a request beyond the pages given is a
  failed request.
- The `actual` library is left out. Its calls are parameters or `Store`
  operations:
  - validation, sync and session creation;
  - the queries;
  - `get_or_create_account`, `match_transaction` and `create_transaction`;
  - `ruleset.run`, which is logged and not interpreted;
  - `commit`.
  The data directory path and the session handle's contents are not
  modelled.
- The thread lock is left out. Every operation runs to completion before
  the next one starts.
- Floating point is left out. Amounts are integer minor units, and the
  `/ 100` conversion and `round(…, 2)` are not modelled.
- `strptime` is left out. Transaction dates are opaque strings, and a month
  is compared as its `%Y%m` text. That order is the calendar order only for
  well-formed six-digit months. A malformed month, which makes `strptime`
  raise, is not modelled.
- Text handling is narrower than Python's:
  - `str.lower`, `\d` and whitespace are ASCII only;
  - `int()` reads decimal numerals with underscores but not other Unicode
    digits.
- Text.ParseInt uses CPython's default limit of 4300 digits. A limit set
  through `sys.set_int_max_str_digits` or `PYTHONINTMAXSTRDIGITS` is not
  modelled.
- The clock is read once per operation. The model does not separate the two
  reads in `get_session` or in the sensors' `async_update`.
- Logging is left out.
- `get_accounts_sync`, `run_bank_sync_sync` and `run_budget_sync_sync` are
  left out. Each only takes a session and calls the library.
- The `async` wrappers and `async_setup_entry` are left out. They hand work
  to an executor or build the entities.
- Properties such as `icon` and `unit_of_measurement` are left out. They
  return constants or constructor arguments.
- `DOMAIN` comes from `const.py`, which is not part of this model. It is a
  parameter of the unique-id functions.
- Client.ActualBudget.GetSession: a session whose creation fails after it
  was opened is not closed. The model records only that no session is
  cached, and it does not track the leaked handle.
- Client.ActualBudget.TestConnection follows the code and not the
  documented behaviour. The exception mapping is commented out, and a
  session handle is never falsy, so the result is always `None`.
- Sensor.AccountSensor.AsyncUpdate and Sensor.BudgetSensor.AsyncUpdate
  still keep the branch for a falsy fetch result. `get_account_sync` and
  `get_budget_sync` raise instead of returning nothing, and their dataclass
  results are always truthy, so with this client every success carries a
  value.
- Akahu.ImportAccount: the date parsing and `astimezone()` of each feed
  transaction are not modelled. A transaction's date is given as the text
  it is keyed by.
- Budgets.OneBudgetShape: the test `not budgets_raw[0]` is not modelled
  separately. A row the library returns is an object, and objects are
  always truthy, so only an empty result counts as "not found".
- Sensor.AccountUpdate and Sensor.BudgetUpdate do not model the truthiness
  test on `_balance_last_updated`. The timestamp is set at construction to a
  `datetime`, which is always truthy, so only the one-minute comparison
  decides.
- Sensor.AccountSensorName, Sensor.AccountUniqueId and the
  Sensor.AccountSensor constructor take the account name as text. The
  library's `Account.name` may be `None`, which the f-strings would render
  as "None"; that case is not modelled.
