/**
 * The `ActualBudget` client of custom_components/actualbudget/actualbudget.py:
 * the cached session with its start time and 30-minute lifetime
 * (`get_session`, `create_session`), and the synchronous operations that
 * take a session before working on the budget file.
 *
 * The clock is the parameter `now` (microseconds), and the library's
 * replies are parameters too: whether the cached session still validates
 * and syncs, what creating a session meets, the rows a query returns.
 */
module Client {
  import opened Wrappers
  import Akahu
  import Budgets

  /** `SESSION_TIMEOUT`, 30 minutes, in microseconds. */
  const SESSION_TIMEOUT: int := 30 * 60 * 1_000_000

  // ---------------------------------------------------------------------
  // The session state machine (get_session, lines 74-105)

  /** An open library session, numbered in the order sessions were created. */
  datatype Handle = Handle(serial: nat)

  /** What `create_session` meets (lines 107-126). */
  datatype Creation =
    | Opened(fileId: string)    // the file id is read, the session opens and validates
    | Rejected(fileId: string)  // the file id is read, then opening or validation fails
    | Unreachable               // the library client cannot be built; no file id is read

  datatype Error =
    | SessionFailed                     // `create_session` raised
    | Lookup(lookup: Budgets.LookupError)
    | Import(failure: Akahu.ImportError)

  /**
   * The fields `get_session` works on: the cached session, when it was
   * started, the remote file id, and (for the model) how many sessions were
   * created and which were closed, in order.
   */
  datatype SessionState = SessionState(actual: Option<Handle>, startedAt: int, fileId: Option<string>,
                                       created: nat, closed: seq<Handle>)

  /** What one call to `get_session` leaves and returns. */
  datatype SessionStep = SessionStep(state: SessionState, result: Result<Handle, Error>)

  /** A cached session is numbered below the count of created ones and comes with a file id. */
  predicate SessionValid(s: SessionState)
  {
    s.actual.Some? ==> s.actual.value.serial < s.created && s.fileId.Some?
  }

  /** The cached session has outlived its lifetime (the comparison is strict). */
  predicate Expired(s: SessionState, now: int)
  {
    s.actual.Some? && s.startedAt + SESSION_TIMEOUT < now
  }

  /** The cached session is returned as it is: it has not expired and still validates. */
  predicate Kept(s: SessionState, now: int, validated: bool)
  {
    s.actual.Some? && !Expired(s, now) && validated
  }

  /**
   * `get_session`: an expired session is closed and dropped; a remaining one
   * that fails validation or sync is dropped; when none is left a new one is
   * created, its start time set to `now`. Creation records the file id as
   * soon as it is read, even when opening then fails.
   */
  function NextSession(s: SessionState, now: int, validated: bool, creation: Creation): SessionStep
  {
    var closed := if Expired(s, now) then s.closed + [s.actual.value] else s.closed;
    if Kept(s, now, validated) then SessionStep(s, Success(s.actual.value))
    else
      match creation
      case Unreachable => SessionStep(s.(actual := None, closed := closed), Failure(SessionFailed))
      case Rejected(id) =>
        SessionStep(s.(actual := None, fileId := Some(id), closed := closed), Failure(SessionFailed))
      case Opened(id) =>
        var h := Handle(s.created);
        SessionStep(SessionState(Some(h), now, Some(id), s.created + 1, closed), Success(h))
  }

  /** A new session is opened: none is kept and creating one succeeds. */
  predicate Reopens(s: SessionState, now: int, validated: bool, creation: Creation)
  {
    !Kept(s, now, validated) && creation.Opened?
  }

  /**
   * The budget file as the session sees it after `get_session`: a new
   * session downloads the file as last committed, so what a dropped session
   * had not committed is lost; a kept session keeps its file.
   */
  function FileAfterSession(s: SessionState, now: int, validated: bool, creation: Creation,
                            file: Akahu.Store, committed: Akahu.Store): Akahu.Store
  {
    if Reopens(s, now, validated, creation) then committed else file
  }

  /** A session that has expired is closed and is not what `get_session` returns. */
  lemma ExpiredSessionIsClosed(s: SessionState, now: int, validated: bool, creation: Creation)
    requires SessionValid(s) && Expired(s, now)
    ensures var step := NextSession(s, now, validated, creation);
            && step.state.closed == s.closed + [s.actual.value]
            && (step.result.Success? ==> step.result.value != s.actual.value)
            && step.state.actual != s.actual
  {
  }

  /** A live session that fails validation or sync is dropped and not returned. */
  lemma InvalidSessionIsDropped(s: SessionState, now: int, creation: Creation)
    requires SessionValid(s) && s.actual.Some? && !Expired(s, now)
    ensures var step := NextSession(s, now, false, creation);
            && step.state.closed == s.closed
            && (step.result.Success? ==> step.result.value != s.actual.value)
            && step.state.actual != s.actual
  {
  }

  /**
   * A session is created exactly when none is kept, and only then is the
   * start time reset, to `now`; a kept session leaves every field as it was.
   */
  lemma StartResetOnlyOnCreation(s: SessionState, now: int, validated: bool, creation: Creation)
    requires SessionValid(s)
    ensures var step := NextSession(s, now, validated, creation);
            && (step.state.created == s.created + 1 <==> !Kept(s, now, validated) && creation.Opened?)
            && (step.state.created != s.created + 1 ==> step.state.created == s.created && step.state.startedAt == s.startedAt)
            && (step.state.created == s.created + 1 ==> step.state.startedAt == now)
            && (Kept(s, now, validated) ==> step == SessionStep(s, Success(s.actual.value)))
  {
  }

  /**
   * On a normal return a session is held, it is the one returned, and it has
   * not expired; on an error no session is held.
   */
  lemma SessionHeldOnReturn(s: SessionState, now: int, validated: bool, creation: Creation)
    requires SessionValid(s)
    ensures var step := NextSession(s, now, validated, creation);
            && SessionValid(step.state)
            && (step.result.Success? ==> step.state.actual == Some(step.result.value) && !Expired(step.state, now))
            && (step.result.Failure? <==> !Kept(s, now, validated) && !creation.Opened?)
            && (step.result.Failure? ==> step.state.actual.None?)
  {
  }

  // ---------------------------------------------------------------------
  // The client

  class ActualBudget {
    var actual: Option<Handle>
    var sessionStartedAt: int
    var fileId: Option<string>
    var created: nat
    var closed: seq<Handle>
    /** The budget file as the session sees it, and as last committed. */
    var file: Akahu.Store
    var committed: Akahu.Store

    function Session(): SessionState
      reads this`actual, this`sessionStartedAt, this`fileId, this`created, this`closed
    {
      SessionState(actual, sessionStartedAt, fileId, created, closed)
    }

    ghost predicate Valid()
      reads this`actual, this`sessionStartedAt, this`fileId, this`created, this`closed
    {
      SessionValid(Session())
    }

    /** `__init__` (lines 52-64): no session, no file id, the start time set to `now`. */
    constructor(now: int, file: Akahu.Store)
      ensures Valid()
      ensures Session() == SessionState(None, now, None, 0, [])
      ensures this.file == file && committed == file
    {
      actual := None;
      sessionStartedAt := now;
      fileId := None;
      created := 0;
      closed := [];
      this.file := file;
      committed := file;
    }

    /** `get_session` and `create_session`, step by step. */
    method GetSession(now: int, validated: bool, creation: Creation) returns (r: Result<Handle, Error>)
      requires Valid()
      modifies this
      ensures Valid()
      ensures SessionStep(Session(), r) == NextSession(old(Session()), now, validated, creation)
      ensures file == FileAfterSession(old(Session()), now, validated, creation, old(file), old(committed))
      ensures committed == old(committed)
    {
      if actual.Some? && sessionStartedAt + SESSION_TIMEOUT < now {
        // `__exit__`; an error while closing is only logged
        closed := closed + [actual.value];
        actual := None;
      }
      if actual.Some? && !validated {
        actual := None;
      }
      if actual.None? {
        match creation {
          case Unreachable =>
            return Failure(SessionFailed);
          case Rejected(id) =>
            fileId := Some(id);
            return Failure(SessionFailed);
          case Opened(id) =>
            fileId := Some(id);
            file := committed;
            actual := Some(Handle(created));
            created := created + 1;
            sessionStartedAt := now;
        }
      }
      r := Success(actual.value);
    }

    /** `get_unique_id_sync` (lines 70-72): after a session is taken the file id is always known. */
    method GetUniqueId(now: int, validated: bool, creation: Creation) returns (r: Result<Option<string>, Error>)
      requires Valid()
      modifies this
      ensures Valid()
      ensures var step := NextSession(old(Session()), now, validated, creation);
              && Session() == step.state
              && (step.result.Failure? ==> r == Failure(SessionFailed))
              && (step.result.Success? ==> r == Success(fileId) && fileId.Some?)
      ensures file == FileAfterSession(old(Session()), now, validated, creation, old(file), old(committed))
      ensures committed == old(committed)
    {
      var session := GetSession(now, validated, creation);
      if session.Failure? {
        return Failure(session.error);
      }
      r := Success(fileId);
    }

    /**
     * `get_account_sync` (lines 144-153): `found` is what the library's
     * lookup by name returns.
     */
    method GetAccount(now: int, validated: bool, creation: Creation, name: string, found: Option<Budgets.Account>)
      returns (r: Result<Budgets.Account, Error>)
      requires Valid()
      modifies this
      ensures Valid()
      ensures var step := NextSession(old(Session()), now, validated, creation);
              && Session() == step.state
              && (step.result.Failure? ==> r == Failure(SessionFailed))
              && (step.result.Success? ==> r == LiftLookup(Budgets.AccountLookup(name, found)))
      ensures file == FileAfterSession(old(Session()), now, validated, creation, old(file), old(committed))
      ensures committed == old(committed)
    {
      var session := GetSession(now, validated, creation);
      if session.Failure? {
        return Failure(session.error);
      }
      if found.None? {
        return Failure(Lookup(Budgets.AccountNotFound(name)));
      }
      r := Success(Budgets.Account(found.value.name, found.value.balance));
    }

    /**
     * `get_budgets_sync` (lines 159-187): `rows` are all budget rows of the
     * file and `balances` what the category lookup finds.
     */
    method GetBudgets(now: int, validated: bool, creation: Creation, rows: seq<Budgets.BudgetRow>,
                      balances: Budgets.Balances)
      returns (r: Result<seq<Budgets.Budget>, Error>)
      requires Valid()
      modifies this
      ensures Valid()
      ensures var step := NextSession(old(Session()), now, validated, creation);
              && Session() == step.state
              && (step.result.Failure? ==> r == Failure(SessionFailed))
              && (step.result.Success? ==> r == Success(Budgets.AllBudgets(rows, balances)))
      ensures file == FileAfterSession(old(Session()), now, validated, creation, old(file), old(committed))
      ensures committed == old(committed)
    {
      var session := GetSession(now, validated, creation);
      if session.Failure? {
        return Failure(session.error);
      }
      var budgets := Budgets.GroupBudgets(rows, balances);
      r := Success(budgets);
    }

    /**
     * `get_budget_sync` (lines 195-216): `rows` are the rows the library
     * returns for the category `name`.
     */
    method GetBudget(now: int, validated: bool, creation: Creation, name: string, rows: seq<Budgets.BudgetRow>,
                     balances: Budgets.Balances)
      returns (r: Result<Budgets.Budget, Error>)
      requires Valid()
      modifies this
      ensures Valid()
      ensures var step := NextSession(old(Session()), now, validated, creation);
              && Session() == step.state
              && (step.result.Failure? ==> r == Failure(SessionFailed))
              && (step.result.Success? ==> r == LiftLookup(Budgets.OneBudget(name, rows, balances)))
      ensures file == FileAfterSession(old(Session()), now, validated, creation, old(file), old(committed))
      ensures committed == old(committed)
    {
      var session := GetSession(now, validated, creation);
      if session.Failure? {
        return Failure(session.error);
      }
      var budget := Budgets.ShapeBudget(name, rows, balances);
      r := LiftLookup(budget);
    }

    /**
     * `run_akahu_bank_sync_sync` (lines 243-397): after a session is taken,
     * each feed account is looked up or created by name, its start date is
     * computed from `sync_days` and `today` (the clock's day), and its
     * transactions are imported over the file the session sees; the file is
     * committed only when every account was imported. The result lists the
     * per-account reports the code logs.
     */
    method RunAkahuBankSync(now: int, today: int, validated: bool, creation: Creation, feed: seq<Akahu.FeedAccount>,
                            syncDays: Option<string>, syncCategories: bool)
      returns (r: Result<seq<Akahu.Report>, Error>)
      requires Valid()
      modifies this
      ensures Valid()
      ensures var step := NextSession(old(Session()), now, validated, creation);
              var seen := FileAfterSession(old(Session()), now, validated, creation, old(file), old(committed));
              && Session() == step.state
              && (step.result.Failure? ==> r == Failure(SessionFailed) && file == seen && committed == old(committed))
              && (step.result.Success? ==>
                    Imported(seen, old(committed), feed, Akahu.StartFor(syncDays, today), syncCategories, file, committed, r))
    {
      var session := GetSession(now, validated, creation);
      if session.Failure? {
        return Failure(session.error);
      }
      ghost var session0 := Session();
      ghost var file0 := file;
      ghost var committed0 := committed;
      ghost var start0 := Akahu.StartFor(syncDays, today);
      var store := file;
      var reports: seq<Akahu.Report> := [];
      for i := 0 to |feed|
        invariant Akahu.ImportAll(file0, feed[..i], start0, syncCategories)
                  == Akahu.Progress(store, None, reports)
        invariant Session() == session0 && file == file0 && committed == committed0
      {
        var account := feed[i];
        var before := store;
        store := store.(accounts := store.accounts + {account.name});
        var start := Akahu.StartFor(syncDays, today);
        if start.Failure? {
          file := store;
          r := Failure(Import(start.error));
          Akahu.ImportAllNextWithoutStart(file0, feed, i, start, syncCategories, before, reports);
          ImportedOnError(file0, committed, feed, i + 1, start, syncCategories, file, r);
          return;
        }
        var o, requests, report := Akahu.ImportAccount(store, account, start.value, syncCategories);
        Akahu.ImportAllNext(file0, feed, i, start, syncCategories, before, reports, o, requests, report);
        if o.error.Some? {
          file := o.store;
          r := Failure(Import(o.error.value));
          ImportedOnError(file0, committed, feed, i + 1, start, syncCategories, file, r);
          return;
        }
        store := o.store;
        reports := reports + [report];
      }
      file := store;
      committed := store;
      r := Success(reports);
      ImportedAll(file0, feed, start0, syncCategories, file, r);
    }

    /**
     * `test_connection_sync` (lines 412-431): the session handle is never
     * falsy, and an error while taking it is only logged, so the result is
     * always `None`.
     */
    method TestConnection(now: int, validated: bool, creation: Creation) returns (r: Option<string>)
      requires Valid()
      modifies this
      ensures Valid()
      ensures Session() == NextSession(old(Session()), now, validated, creation).state
      ensures r == None
      ensures file == FileAfterSession(old(Session()), now, validated, creation, old(file), old(committed))
      ensures committed == old(committed)
    {
      var session := GetSession(now, validated, creation);
      r := None;
    }
  }

  function LiftLookup<T>(r: Result<T, Budgets.LookupError>): Result<T, Error>
  {
    match r
    case Success(v) => Success(v)
    case Failure(e) => Failure(Lookup(e))
  }

  /**
   * What a run over the feed leaves: the file after `ImportAll`; when no
   * account failed, that file committed and the reports returned; otherwise
   * the commit not made and the import error returned.
   */
  ghost predicate Imported(file0: Akahu.Store, committed0: Akahu.Store, feed: seq<Akahu.FeedAccount>,
                           start: Result<Akahu.StartDate, Akahu.ImportError>, syncCategories: bool,
                           file: Akahu.Store, committed: Akahu.Store, r: Result<seq<Akahu.Report>, Error>)
  {
    var p := Akahu.ImportAll(file0, feed, start, syncCategories);
    && file == p.store
    && (p.error.None? ==> committed == file && r == Success(p.reports))
    && (p.error.Some? ==> committed == committed0 && r == Failure(Import(p.error.value)))
  }

  /** The run stops at the first account whose import fails, without committing. */
  lemma ImportedOnError(file0: Akahu.Store, committed: Akahu.Store, feed: seq<Akahu.FeedAccount>, n: nat,
                        start: Result<Akahu.StartDate, Akahu.ImportError>, syncCategories: bool,
                        file: Akahu.Store, r: Result<seq<Akahu.Report>, Error>)
    requires n <= |feed|
    requires var p := Akahu.ImportAll(file0, feed[..n], start, syncCategories);
             p.error.Some? && file == p.store && r == Failure(Import(p.error.value))
    ensures Imported(file0, committed, feed, start, syncCategories, file, committed, r)
  {
    Akahu.ImportAllStops(file0, feed, n, start, syncCategories);
  }

  /** The run reaches the end of the feed without error and commits. */
  lemma ImportedAll(file0: Akahu.Store, feed: seq<Akahu.FeedAccount>, start: Result<Akahu.StartDate, Akahu.ImportError>,
                    syncCategories: bool, file: Akahu.Store, r: Result<seq<Akahu.Report>, Error>)
    requires r.Success? && Akahu.ImportAll(file0, feed[..|feed|], start, syncCategories) == Akahu.Progress(file, None, r.value)
    ensures forall committed0 :: Imported(file0, committed0, feed, start, syncCategories, file, file, r)
  {
    assert feed[..|feed|] == feed;
  }

  /**
   * A run over the feed commits only fresh transactions on top of the file
   * it started from; with a start date out of range it creates the first
   * account and nothing else, and commits nothing.
   */
  lemma ImportedCreatesFresh(file0: Akahu.Store, committed0: Akahu.Store, feed: seq<Akahu.FeedAccount>,
                             start: Result<Akahu.StartDate, Akahu.ImportError>, syncCategories: bool,
                             file: Akahu.Store, committed: Akahu.Store, r: Result<seq<Akahu.Report>, Error>)
    requires Imported(file0, committed0, feed, start, syncCategories, file, committed, r)
    ensures Akahu.CreatesFresh(file0, file)
    ensures r.Success? ==> committed == file
    ensures r.Failure? ==> committed == committed0
    ensures start.Failure? && |feed| > 0 ==>
              file == file0.(accounts := file0.accounts + {feed[0].name}) && r == Failure(Import(start.error))
  {
    Akahu.ImportAllCreatesFresh(file0, feed, start, syncCategories);
    if start.Failure? && |feed| > 0 {
      Akahu.ImportAllWithoutStart(file0, feed, start, syncCategories);
    }
  }
}
