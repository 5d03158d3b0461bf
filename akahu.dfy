/**
 * The Akahu bank-feed import (`run_akahu_bank_sync_sync` and `cleanup_meta`
 * in actualbudget.py): how a feed transaction is turned into the parameters
 * of a new budget transaction, and the cursor loop that pages through one
 * feed account and creates each transaction that has no match yet.
 *
 * The HTTP replies are inputs: a feed account carries the pages the
 * transactions endpoint answers with, in order. The budget file that the
 * `actual` library manages is a `Store` value: `match_transaction` is a
 * lookup of the (date, account, imported id) key, `create_transaction`
 * records the new transaction and its key, `ruleset.run` is logged.
 */
module Akahu {
  import opened Wrappers
  import opened Text

  // ---------------------------------------------------------------------
  // Redaction of merchant and meta values

  /** Values that name a CDN link or Akahu's own metadata, in any letter case. */
  predicate MustRedact(value: string)
  {
    Contains(ToLower(value), "cdn.") || Contains(ToLower(value), "akahu")
  }

  /** `cleanup_meta`: blanks a value that must be redacted, keeps any other value as it is. */
  function CleanupMeta(value: string): (r: string)
    ensures MustRedact(value) ==> r == ""
    ensures !MustRedact(value) ==> r == value
    ensures !MustRedact(r)
  {
    if Contains(ToLower(value), "cdn.") then ""
    else if Contains(ToLower(value), "akahu") then ""
    else value
  }

  /** A value is blanked when its lower case holds "cdn." or "akahu" at some position. */
  lemma CleanupMetaBlanksAt(value: string, i: nat)
    requires OccursAt(ToLower(value), "cdn.", i) || OccursAt(ToLower(value), "akahu", i)
    ensures CleanupMeta(value) == ""
  {
    ContainsOccurs(ToLower(value), "cdn.");
    ContainsOccurs(ToLower(value), "akahu");
  }

  /** A value whose lower case has neither a 'd' nor a 'k' is kept as it is. */
  lemma CleanupMetaKeepsWithout(value: string)
    requires 'd' !in ToLower(value) && 'k' !in ToLower(value)
    ensures CleanupMeta(value) == value
  {
    NotContainedWithoutChar(ToLower(value), "cdn.", 'd');
    NotContainedWithoutChar(ToLower(value), "akahu", 'k');
  }

  /** Upper-case patterns are caught as well: a CDN image link is blanked. */
  lemma CleanupMetaBlanksUpperCaseLink()
    ensures CleanupMeta("HTTPS://CDN.Example/logo.png") == ""
  {
    var raw := "HTTPS://CDN.Example/logo.png";
    var link := ToLower(raw);
    assert link[8] == LowerChar(raw[8]) == 'c';
    assert link[9] == LowerChar(raw[9]) == 'd';
    assert link[10] == LowerChar(raw[10]) == 'n';
    assert link[11] == LowerChar(raw[11]) == '.';
    assert link[8..12] == "cdn.";
    CleanupMetaBlanksAt(raw, 8);
  }

  // ---------------------------------------------------------------------
  // Merchant and meta summaries

  /** A merchant or meta object: each key with the `str` of its value, in iteration order. */
  type Fields = seq<(string, string)>

  const ID_KEY := "_id"
  const SUMMARY_SEPARATOR := "  "

  /** The cleaned value of every key other than `_id`, in order. */
  function Contributions(fields: Fields): (parts: seq<string>)
    ensures |parts| <= |fields|
    decreases |fields|
  {
    if |fields| == 0 then []
    else
      var init := Contributions(fields[..|fields| - 1]);
      var (key, value) := fields[|fields| - 1];
      if key != ID_KEY then init + [CleanupMeta(value)] else init
  }

  /** The merchant or meta summary, `None` when no key other than `_id` is present. */
  function Summary(fields: Fields): Option<string>
  {
    var parts := Contributions(fields);
    if parts == [] then None else Some(Join(SUMMARY_SEPARATOR, parts))
  }

  /** The accumulator loop over a merchant or meta object (lines 317-325 and 335-343). */
  method BuildSummary(fields: Fields) returns (summary: Option<string>)
    ensures summary == Summary(fields)
  {
    summary := None;
    for i := 0 to |fields|
      invariant summary == Summary(fields[..i])
    {
      assert fields[..i + 1][..i] == fields[..i];
      var (key, value) := fields[i];
      if key != ID_KEY {
        var cleaned := CleanupMeta(value);
        ghost var parts := Contributions(fields[..i]);
        assert Contributions(fields[..i + 1]) == parts + [cleaned];
        if summary.None? {
          summary := Some(cleaned);
        } else {
          assert (parts + [cleaned])[..|parts|] == parts;
          summary := Some(summary.value + SUMMARY_SEPARATOR + cleaned);
        }
      }
    }
    assert fields[..|fields|] == fields;
  }

  lemma {:induction false} ContributionsEmpty(fields: Fields)
    ensures Contributions(fields) == [] <==> forall i :: 0 <= i < |fields| ==> fields[i].0 == ID_KEY
    decreases |fields|
  {
    if |fields| > 0 {
      var init := fields[..|fields| - 1];
      ContributionsEmpty(init);
      assert forall i :: 0 <= i < |init| ==> init[i] == fields[i];
    }
  }

  /**
   * The summary is absent exactly when every key is `_id`; otherwise it
   * holds every contributing value and one separator between any two of
   * them, a blanked value included.
   */
  lemma SummaryShape(fields: Fields)
    ensures Summary(fields).None? <==> forall i :: 0 <= i < |fields| ==> fields[i].0 == ID_KEY
    ensures Summary(fields).Some? ==>
      |Summary(fields).value| + 2 == TotalLength(Contributions(fields)) + 2 * |Contributions(fields)|
  {
    ContributionsEmpty(fields);
    if Contributions(fields) != [] {
      JoinLength(SUMMARY_SEPARATOR, Contributions(fields));
    }
  }

  // The three values of `ContributionsExample`, one by one.

  lemma CleanupMetaKeepsCafe()
    ensures CleanupMeta("Cafe") == "Cafe"
  {
    assert ToLower("Cafe") == "cafe";
    CleanupMetaKeepsWithout("Cafe");
  }

  lemma CleanupMetaBlanksCdnLink()
    ensures CleanupMeta("https://cdn.x/y") == ""
  {
    ToLowerOfLowerCase("https://cdn.x/y");
    assert "https://cdn.x/y"[8..12] == "cdn.";
    CleanupMetaBlanksAt("https://cdn.x/y", 8);
  }

  lemma CleanupMetaKeepsSite()
    ensures CleanupMeta("cafe.nz") == "cafe.nz"
  {
    ToLowerOfLowerCase("cafe.nz");
    CleanupMetaKeepsWithout("cafe.nz");
  }

  /** An object with an id and three other keys contributes the three cleaned values, in order. */
  lemma ContributionsOfIdAndThree(id: string, k1: string, v1: string, k2: string, v2: string, k3: string, v3: string)
    requires k1 != ID_KEY && k2 != ID_KEY && k3 != ID_KEY
    ensures Contributions([(ID_KEY, id), (k1, v1), (k2, v2), (k3, v3)])
            == [CleanupMeta(v1), CleanupMeta(v2), CleanupMeta(v3)]
  {
    var f := [(ID_KEY, id), (k1, v1), (k2, v2), (k3, v3)];
    assert f[..1][..0] == [];
    assert f[..2][..1] == f[..1];
    assert f[..3][..2] == f[..2];
    assert f[..4][..3] == f[..3];
    assert f[..4] == f;
    assert Contributions(f[..1]) == [];
    assert Contributions(f[..2]) == [CleanupMeta(v1)];
    assert Contributions(f[..3]) == [CleanupMeta(v1), CleanupMeta(v2)];
  }

  /** The contributions of a merchant object with an id, a kept name, a redacted logo link and a kept site. */
  lemma ContributionsExample()
    ensures Contributions([("_id", "m1"), ("name", "Cafe"), ("logo", "https://cdn.x/y"), ("web", "cafe.nz")])
            == ["Cafe", "", "cafe.nz"]
  {
    ContributionsOfIdAndThree("m1", "name", "Cafe", "logo", "https://cdn.x/y", "web", "cafe.nz");
    CleanupMetaKeepsCafe();
    CleanupMetaBlanksCdnLink();
    CleanupMetaKeepsSite();
  }

  /** A redacted value between two kept ones leaves its two separators behind. */
  lemma SummaryKeepsSeparatorOfRedactedValue()
    ensures Summary([("_id", "m1"), ("name", "Cafe"), ("logo", "https://cdn.x/y"), ("web", "cafe.nz")])
            == Some("Cafe" + SUMMARY_SEPARATOR + SUMMARY_SEPARATOR + "cafe.nz")
  {
    ContributionsExample();
    var parts := ["Cafe", "", "cafe.nz"];
    assert parts[..2][..1] == ["Cafe"];
    assert Join(SUMMARY_SEPARATOR, parts[..2]) == "Cafe" + SUMMARY_SEPARATOR + "";
    assert "Cafe" + SUMMARY_SEPARATOR + "" == "Cafe" + SUMMARY_SEPARATOR;
  }

  // ---------------------------------------------------------------------
  // Notes

  function NotePart(s: Option<string>): string
  {
    if Truthy(s) then s.value + " " else ""
  }

  /**
   * The notes of an imported transaction: meta summary, merchant summary
   * and category name, each followed by a space when non-empty, then the
   * original description.
   */
  function Notes(meta: Option<string>, merchant: Option<string>, category: Option<string>,
                 description: string): (r: string)
    ensures EndsWith(r, description)
    ensures r == description <==> !Truthy(meta) && !Truthy(merchant) && !Truthy(category)
    ensures Truthy(meta) ==> StartsWith(r, meta.value + " ")
    ensures !Truthy(meta) && Truthy(merchant) ==> StartsWith(r, merchant.value + " ")
    ensures !Truthy(meta) && !Truthy(merchant) && Truthy(category) ==> StartsWith(r, category.value + " ")
  {
    var r := NotePart(meta) + NotePart(merchant) + NotePart(category) + description;
    assert r[|r| - |description|..] == description;
    r
  }

  /**
   * The parts of the notes come in the order meta summary, merchant summary,
   * category name, each one that is truthy followed by a space.
   */
  lemma NotesOrder(meta: Option<string>, merchant: Option<string>, category: Option<string>,
                   description: string)
    ensures Truthy(meta) ==>
              Notes(meta, merchant, category, description)
              == meta.value + " " + Notes(None, merchant, category, description)
    ensures Truthy(merchant) ==>
              Notes(None, merchant, category, description)
              == merchant.value + " " + Notes(None, None, category, description)
    ensures Truthy(category) ==>
              Notes(None, None, category, description) == category.value + " " + description
    ensures !Truthy(meta) ==>
              Notes(meta, merchant, category, description) == Notes(None, merchant, category, description)
    ensures !Truthy(merchant) ==>
              Notes(None, merchant, category, description) == Notes(None, None, category, description)
    ensures !Truthy(category) ==> Notes(None, None, category, description) == description
  {
    var x := NotePart(category) + description;
    var y := NotePart(merchant) + x;
    NotesOfParts(meta, merchant, category, description);
    NotesOfParts(None, merchant, category, description);
    NotesOfParts(None, None, category, description);
    assert NotePart(None) == "";
    assert Notes(None, merchant, category, description) == y by {
      assert "" + y == y;
    }
    assert Notes(None, None, category, description) == x by {
      assert "" + ("" + x) == x;
    }
  }

  lemma NotesOfParts(meta: Option<string>, merchant: Option<string>, category: Option<string>,
                     description: string)
    ensures Notes(meta, merchant, category, description)
            == NotePart(meta) + (NotePart(merchant) + (NotePart(category) + description))
  {
    var a, b, c := NotePart(meta), NotePart(merchant), NotePart(category);
    assert a + b + c + description == a + (b + (c + description));
  }

  // ---------------------------------------------------------------------
  // Payee

  /** Length of the longest run of ASCII digits that ends `s`. */
  function TrailingDigits(s: string): (n: nat)
    ensures n <= |s|
    ensures forall k :: |s| - n <= k < |s| ==> IsDigit(s[k])
    ensures n < |s| ==> !IsDigit(s[|s| - n - 1])
    decreases |s|
  {
    if |s| == 0 || !IsDigit(s[|s| - 1]) then 0
    else 1 + TrailingDigits(s[..|s| - 1])
  }

  /**
   * Where `$` lets a match end: just before a final newline, or else at the
   * end of `s`. A match of `\d{3,}` ends in a digit, so it cannot end after
   * a final newline.
   */
  function LineEnd(s: string): (e: nat)
    ensures e <= |s|
    ensures e < |s| <==> |s| > 0 && s[|s| - 1] == '\n'
  {
    if |s| > 0 && s[|s| - 1] == '\n' then |s| - 1 else |s|
  }

  /** The pattern `\d{3,}$` matches `s` from index `i` onwards: up to the end, or up to a final newline. */
  predicate PatternMatchesAt(s: string, i: nat)
  {
    || (i + 3 <= |s| && AllDigits(s[i..]))
    || (|s| > 0 && s[|s| - 1] == '\n' && i + 3 <= |s| - 1 && AllDigits(s[i..|s| - 1]))
  }

  /** Where the substitution cuts: the start of the digit run before the line end when it has three digits or more. */
  function CutPoint(s: string): (k: nat)
    ensures k <= LineEnd(s)
  {
    var n := TrailingDigits(s[..LineEnd(s)]);
    if n >= 3 then LineEnd(s) - n else LineEnd(s)
  }

  /**
   * `re.sub(r'\d{3,}$', '', s)`: drops the digit run that ends at the line
   * end when it has three digits or more, and keeps a final newline.
   */
  function RemoveTrailingNumber(s: string): string
  {
    s[..CutPoint(s)] + s[LineEnd(s)..]
  }

  /** The removal is exactly the regex substitution: it cuts at the leftmost match, if any. */
  lemma RemoveTrailingNumberCutsAtLeftmostMatch(s: string)
    ensures (forall i: nat :: i <= |s| ==> !PatternMatchesAt(s, i)) ==> RemoveTrailingNumber(s) == s
    ensures forall i: nat :: i <= |s| && PatternMatchesAt(s, i) ==>
      CutPoint(s) <= i && PatternMatchesAt(s, CutPoint(s)) && RemoveTrailingNumber(s) == s[..CutPoint(s)] + s[LineEnd(s)..]
  {
    var e := LineEnd(s);
    var t := s[..e];
    var n := TrailingDigits(t);
    var k := e - n;
    forall i: nat | i <= |s| && PatternMatchesAt(s, i) ensures i + 3 <= e && AllDigits(s[i..e]) {
      if e == |s| {
        assert s[i..e] == s[i..];
      }
    }
    forall i: nat | i < k ensures !AllDigits(s[i..e]) {
      assert s[i..e][k - 1 - i] == t[k - 1];
    }
    if n >= 3 {
      assert AllDigits(s[k..e]) by {
        forall j | 0 <= j < n ensures IsDigit(s[k..e][j]) {
          assert s[k..e][j] == t[k + j];
        }
      }
      if e == |s| {
        assert s[k..e] == s[k..];
      }
      assert PatternMatchesAt(s, k);
    } else {
      assert s[..e] + s[e..] == s;
    }
  }

  /** The stripped result of the removal is a piece of the description. */
  lemma RemovedNumberStripContained(s: string)
    ensures Contains(s, Strip(RemoveTrailingNumber(s)))
  {
    var prefix := s[..CutPoint(s)];
    assert StartsWith(s, prefix);
    if LineEnd(s) == |s| {
      assert s[LineEnd(s)..] == [];
      assert RemoveTrailingNumber(s) == prefix;
      StripOfPrefixContained(s, prefix);
    } else {
      assert RemoveTrailingNumber(s) == prefix + ['\n'];
      StripOfPrefixAndSpaceContained(s, prefix, '\n');
    }
  }

  /** The payee: the description without its trailing number, then stripped. */
  function Payee(description: string): (r: string)
    ensures r != [] ==> !IsSpace(r[0]) && !IsSpace(r[|r| - 1])
    ensures TrailingDigits(description[..LineEnd(description)]) < 3 ==> r == Strip(description)
    ensures Contains(description, r)
  {
    RemovedNumberStripContained(description);
    assert description[..LineEnd(description)] + description[LineEnd(description)..] == description;
    Strip(RemoveTrailingNumber(description))
  }

  lemma {:induction false} TrailingDigitsOf(p: string, d: string)
    requires AllDigits(d) && (p == [] || !IsDigit(p[|p| - 1]))
    ensures TrailingDigits(p + d) == |d|
    decreases |d|
  {
    if |d| == 0 {
      assert p + d == p;
    } else {
      var s := p + d;
      assert s[..|s| - 1] == p + d[..|d| - 1];
      TrailingDigitsOf(p, d[..|d| - 1]);
    }
  }

  /**
   * A number of three digits or more after a text that does not end in a
   * digit is dropped, also before a final newline: the payee is the text
   * stripped.
   */
  lemma PayeeDropsNumber(p: string, d: string)
    requires AllDigits(d) && |d| >= 3 && (p == [] || !IsDigit(p[|p| - 1]))
    ensures Payee(p + d) == Strip(p)
    ensures Payee(p + d + "\n") == Strip(p)
  {
    var s := p + d;
    assert s[|s| - 1] == d[|d| - 1];
    assert LineEnd(s) == |s| && s[..|s|] == s;
    TrailingDigitsOf(p, d);
    assert CutPoint(s) == |p| && s[..|p|] == p && s[|s|..] == [];
    assert RemoveTrailingNumber(s) == p;
    var line := s + "\n";
    assert LineEnd(line) == |s| && line[..|s|] == s;
    assert CutPoint(line) == |p| && line[..|p|] == p && line[|s|..] == "\n";
    assert RemoveTrailingNumber(line) == p + "\n";
    StripDropsTrailingSpace(p, '\n');
  }

  /** One or two digits at the end are kept: the payee is the stripped description. */
  lemma PayeeKeepsShortNumber(p: string, d: string)
    requires AllDigits(d) && 0 < |d| < 3 && (p == [] || !IsDigit(p[|p| - 1]))
    ensures Payee(p + d) == Strip(p + d)
  {
    var s := p + d;
    assert s[|s| - 1] == d[|d| - 1];
    assert LineEnd(s) == |s| && s[..|s|] == s;
    TrailingDigitsOf(p, d);
    assert s[|s|..] == [];
    assert RemoveTrailingNumber(s) == s;
  }

  // ---------------------------------------------------------------------
  // How far back to sync

  /** The `start` query parameter: none, or a number of days before now. */
  datatype StartDate = Unbounded | DaysBack(days: int)

  const DEFAULT_SYNC_DAYS := 20

  /** The largest number of days a `timedelta` holds. */
  const MAX_DELTA_DAYS := 999_999_999

  /** 31 December 9999, the last day a `datetime` holds, counted from 1 January of year 1 as day 0. */
  const LAST_DAY := 3_652_058

  /**
   * `now - timedelta(days=days)` exists, `today` being the clock's day:
   * otherwise Python raises `OverflowError`.
   */
  predicate DaysBackInRange(today: int, days: int)
  {
    -MAX_DELTA_DAYS <= days <= MAX_DELTA_DAYS && 0 <= today - days <= LAST_DAY
  }

  /**
   * The start date of one feed account: 20 days back, computed first in any
   * case; then "all" in any case is unbounded, an integer `int` reads is
   * that many days back, anything else keeps the 20 days. Only a `ValueError` of `int` is
   * caught, so a date out of range stops the run.
   */
  function StartFor(syncDays: Option<string>, today: int): (r: Result<StartDate, ImportError>)
    ensures r.Failure? ==> r.error == DateOutOfRange
    ensures r.Success? && r.value.Unbounded? <==>
              DaysBackInRange(today, DEFAULT_SYNC_DAYS) && syncDays.Some? && ToLower(syncDays.value) == "all"
    ensures r.Failure? <==>
              || !DaysBackInRange(today, DEFAULT_SYNC_DAYS)
              || (&& syncDays.Some? && ToLower(syncDays.value) != "all" && ParseInt(syncDays.value).Some?
                  && !DaysBackInRange(today, ParseInt(syncDays.value).value))
    ensures r.Success? && r.value.DaysBack? && syncDays.Some? && ParseInt(syncDays.value).Some? ==>
              r.value.days == ParseInt(syncDays.value).value
    ensures DaysBackInRange(today, DEFAULT_SYNC_DAYS) &&
            (syncDays.None? || (ParseInt(syncDays.value).None? && ToLower(syncDays.value) != "all")) ==>
              r == Success(DaysBack(DEFAULT_SYNC_DAYS))
  {
    if !DaysBackInRange(today, DEFAULT_SYNC_DAYS) then Failure(DateOutOfRange)
    else if syncDays.None? || syncDays.value == "" then Success(DaysBack(DEFAULT_SYNC_DAYS))
    else if ToLower(syncDays.value) == "all" then Success(Unbounded)
    else match ParseInt(syncDays.value)
      case Some(n) => if DaysBackInRange(today, n) then Success(DaysBack(n)) else Failure(DateOutOfRange)
      case None => Success(DaysBack(DEFAULT_SYNC_DAYS))
  }

  /**
   * A number of days written as text means that many days back when the
   * date exists, and stops the run otherwise; a number too long for `int`
   * keeps the 20 days.
   */
  lemma StartForRoundTrip(days: int, today: int)
    ensures StartFor(Some(IntToString(days)), today)
            == if !DaysBackInRange(today, DEFAULT_SYNC_DAYS) then Failure(DateOutOfRange)
               else if |NatToString(if days < 0 then -days else days)| > MAX_STR_DIGITS
               then Success(DaysBack(DEFAULT_SYNC_DAYS))
               else if DaysBackInRange(today, days) then Success(DaysBack(days))
               else Failure(DateOutOfRange)
  {
    ParseIntRoundTrip(days);
    var s := IntToString(days);
    IntToStringStart(days);
    assert ToLower(s)[0] == LowerChar(s[0]);
  }

  function StartParam(start: StartDate): Option<int>
  {
    match start
    case Unbounded => None
    case DaysBack(n) => Some(n)
  }

  // ---------------------------------------------------------------------
  // Feed data and the budget file

  datatype Category = Category(name: string, groupNames: seq<string>)

  datatype FeedTransaction = FeedTransaction(
    id: string,
    date: string,        // the local calendar date of the feed timestamp
    description: string,
    amount: int,
    merchant: Fields,    // empty when the feed gives none
    meta: Fields,        // empty when the feed gives none
    category: Option<Category>)

  /** One reply of the transactions endpoint: its items and `cursor.next`. */
  datatype Page = Page(items: seq<FeedTransaction>, next: Option<string>)

  /** A feed account with the replies its transactions endpoint gives, in order. */
  datatype FeedAccount = FeedAccount(id: string, name: string, pages: seq<Page>)

  /** The parameters passed to `create_transaction` once `None` values are dropped. */
  datatype NewTransaction = NewTransaction(
    date: string, account: string, importedId: string, payee: string, notes: string,
    category: Option<string>, amount: int, cleared: bool)

  datatype Key = Key(date: string, account: string, importedId: string)

  function KeyOf(account: string, tx: FeedTransaction): Key
  {
    Key(tx.date, account, tx.id)
  }

  function KeyOfNew(t: NewTransaction): Key
  {
    Key(t.date, t.account, t.importedId)
  }

  /**
   * The budget file as the import sees it: account names, the keys by which
   * existing imports are matched, the transactions created, and the key of
   * every transaction the rule set was run on.
   */
  datatype Store = Store(accounts: set<string>, transactions: set<Key>,
                         created: seq<NewTransaction>, ruleRuns: seq<Key>)

  datatype ImportError =
    | MissingCategoryGroup   // `group_names[0]` on a category without groups
    | RequestFailed          // the transactions endpoint gave no reply
    | DateOutOfRange         // the start date is before year 1 or after year 9999

  // ---------------------------------------------------------------------
  // One transaction

  /** Whether the category settings let a transaction be shaped (the parent group exists). */
  predicate Shapeable(tx: FeedTransaction, syncCategories: bool)
  {
    !(syncCategories && tx.category.Some? && tx.category.value.groupNames == [])
  }

  /** The transaction parameters built from one feed transaction (lines 306-374). */
  function Shape(tx: FeedTransaction, account: string, syncCategories: bool): (r: Result<NewTransaction, ImportError>)
    ensures r.Failure? <==> !Shapeable(tx, syncCategories)
    ensures r.Failure? ==> r.error == MissingCategoryGroup
    ensures r.Success? ==> KeyOfNew(r.value) == KeyOf(account, tx)
  {
    var category := if syncCategories then tx.category else None;
    if category.Some? && category.value.groupNames == [] then Failure(MissingCategoryGroup)
    else
      var name := if category.Some? then Some(category.value.name) else None;
      var parent := if category.Some? then Some(category.value.groupNames[0]) else None;
      Success(NewTransaction(tx.date, account, tx.id, Payee(tx.description),
                             Notes(Summary(tx.meta), Summary(tx.merchant), name, tx.description),
                             parent, tx.amount, false))
  }

  /** One `trans_notes += part + " "` step, taken when the part is truthy. */
  lemma NotePartAppended(notes: string, part: Option<string>)
    ensures (if Truthy(part) then notes + part.value + " " else notes) == notes + NotePart(part)
  {
    if !Truthy(part) {
      assert notes + "" == notes;
    }
  }

  /** The statements that build the notes, payee and parameters of one transaction. */
  method ShapeTransaction(tx: FeedTransaction, account: string, syncCategories: bool)
    returns (r: Result<NewTransaction, ImportError>)
    ensures r == Shape(tx, account, syncCategories)
  {
    var merchantSummary := BuildSummary(tx.merchant);
    var category: Option<string> := None;
    var categoryParent: Option<string> := None;
    if syncCategories && tx.category.Some? {
      category := Some(tx.category.value.name);
      var groupNames := tx.category.value.groupNames;
      if |groupNames| == 0 {
        return Failure(MissingCategoryGroup);
      }
      categoryParent := Some(groupNames[0]);
    }
    var metaSummary := BuildSummary(tx.meta);
    var notes := "";
    NotePartAppended(notes, metaSummary);
    if Truthy(metaSummary) {
      notes := notes + metaSummary.value + " ";
    }
    assert notes == NotePart(metaSummary);
    NotePartAppended(notes, merchantSummary);
    if Truthy(merchantSummary) {
      notes := notes + merchantSummary.value + " ";
    }
    NotePartAppended(notes, category);
    if Truthy(category) {
      notes := notes + category.value + " ";
    }
    notes := notes + tx.description;
    assert notes == Notes(metaSummary, merchantSummary, category, tx.description);
    var payee := Strip(RemoveTrailingNumber(tx.description));
    assert payee == Payee(tx.description);
    r := Success(NewTransaction(tx.date, account, tx.id, payee, notes, categoryParent, tx.amount, false));
  }

  /**
   * What a shaped transaction holds: the cleaned payee, notes ending in the
   * description, the amount, not cleared, and the parent group as category
   * exactly when categories are synchronised and the transaction has one.
   */
  lemma ShapeContents(tx: FeedTransaction, account: string, syncCategories: bool)
    requires Shape(tx, account, syncCategories).Success?
    ensures var t := Shape(tx, account, syncCategories).value;
      && t.payee == Payee(tx.description)
      && EndsWith(t.notes, tx.description)
      && t.amount == tx.amount && !t.cleared
      && (t.category.Some? <==> syncCategories && tx.category.Some?)
      && (t.category.Some? ==> t.category.value == tx.category.value.groupNames[0])
  {
  }

  /** A transaction as shaped for the budget file, or the error shaping it raised. */
  type Shaped = Result<NewTransaction, ImportError>

  /**
   * `shaped` holds the shaped form of each of `txs`, in order. Each equation
   * is used only where the shaped form of that feed transaction is
   * mentioned, which keeps transaction contents out of proofs about the loops.
   */
  ghost predicate ShapedFrom(shaped: seq<Shaped>, account: string, txs: seq<FeedTransaction>, syncCategories: bool)
  {
    && |shaped| == |txs|
    && forall k {:trigger Shape(txs[k], account, syncCategories)} :: 0 <= k < |txs| ==>
         shaped[k] == Shape(txs[k], account, syncCategories)
  }

  /** The feed transactions of one account, each shaped on its own. */
  function ShapeAll(account: string, txs: seq<FeedTransaction>, syncCategories: bool): (r: seq<Shaped>)
    ensures |r| == |txs|
    ensures forall i :: 0 <= i < |txs| ==> r[i] == Shape(txs[i], account, syncCategories)
  {
    seq(|txs|, i requires 0 <= i < |txs| => Shape(txs[i], account, syncCategories))
  }

  lemma ShapeAllConcat(account: string, a: seq<FeedTransaction>, b: seq<FeedTransaction>, syncCategories: bool)
    ensures ShapeAll(account, a + b, syncCategories) == ShapeAll(account, a, syncCategories) + ShapeAll(account, b, syncCategories)
  {
  }

  /** The shaped forms of feed transactions are exactly those `ShapeAll` computes. */
  lemma ShapedFromIsShapeAll(shaped: seq<Shaped>, account: string, txs: seq<FeedTransaction>, syncCategories: bool)
    ensures ShapedFrom(shaped, account, txs, syncCategories) <==> shaped == ShapeAll(account, txs, syncCategories)
  {
    if ShapedFrom(shaped, account, txs, syncCategories) {
      forall k | 0 <= k < |txs| ensures shaped[k] == ShapeAll(account, txs, syncCategories)[k] {
        assert shaped[k] == Shape(txs[k], account, syncCategories);
      }
    }
  }

  /** Every sequence of feed transactions has its shaped forms. */
  lemma ShapedOf(account: string, txs: seq<FeedTransaction>, syncCategories: bool) returns (shaped: seq<Shaped>)
    ensures ShapedFrom(shaped, account, txs, syncCategories)
  {
    shaped := ShapeAll(account, txs, syncCategories);
    ShapedFromIsShapeAll(shaped, account, txs, syncCategories);
  }

  lemma ShapedExist(account: string, txs: seq<FeedTransaction>, syncCategories: bool)
    ensures exists shaped :: ShapedFrom(shaped, account, txs, syncCategories)
  {
    var shaped := ShapedOf(account, txs, syncCategories);
  }

  lemma ShapedFromConcat(a: seq<Shaped>, b: seq<Shaped>, account: string, xs: seq<FeedTransaction>,
                         ys: seq<FeedTransaction>, syncCategories: bool)
    requires ShapedFrom(a, account, xs, syncCategories) && ShapedFrom(b, account, ys, syncCategories)
    ensures ShapedFrom(a + b, account, xs + ys, syncCategories)
  {
    ShapedFromIsShapeAll(a, account, xs, syncCategories);
    ShapedFromIsShapeAll(b, account, ys, syncCategories);
    ShapeAllConcat(account, xs, ys, syncCategories);
    ShapedFromIsShapeAll(a + b, account, xs + ys, syncCategories);
  }

  /**
   * Match or create (lines 376-385): a shaped transaction is created unless
   * its key is already in the file; the rule set runs on it either way (lines 387-389).
   */
  function Record(store: Store, key: Key, t: NewTransaction): (after: Store)
    ensures key in after.transactions && after.ruleRuns == store.ruleRuns + [key]
    ensures key in store.transactions ==> after.transactions == store.transactions && after.created == store.created
    ensures key !in store.transactions ==>
      after.transactions == store.transactions + {key} && after.created == store.created + [t]
    ensures after.accounts == store.accounts
  {
    var s := if key in store.transactions then store
             else store.(transactions := store.transactions + {key}, created := store.created + [t]);
    s.(ruleRuns := s.ruleRuns + [key])
  }

  datatype Outcome = Outcome(store: Store, error: Option<ImportError>)

  /** One transaction of the loop: a shaping error stops the import, anything else is recorded. */
  function Step(store: Store, shaped: Shaped): Outcome
  {
    match shaped
    case Failure(e) => Outcome(store, Some(e))
    case Success(t) => Outcome(Record(store, KeyOfNew(t), t), None)
  }

  /** The transactions processed in order; the first error stops the import. */
  function Run(store: Store, shaped: seq<Shaped>): Outcome
    decreases |shaped|
  {
    if |shaped| == 0 then Outcome(store, None)
    else
      var o := Run(store, shaped[..|shaped| - 1]);
      if o.error.Some? then o else Step(o.store, shaped[|shaped| - 1])
  }

  lemma RunSnoc(store: Store, shaped: seq<Shaped>, s: Shaped)
    ensures Run(store, shaped + [s]) ==
      var o := Run(store, shaped);
      if o.error.Some? then o else Step(o.store, s)
  {
    assert (shaped + [s])[..|shaped|] == shaped;
  }

  /** Once an error occurred, later transactions change nothing. */
  lemma {:induction false} ErrorStopsRun(store: Store, shaped: seq<Shaped>, rest: seq<Shaped>)
    requires Run(store, shaped).error.Some?
    ensures Run(store, shaped + rest) == Run(store, shaped)
    decreases |rest|
  {
    if |rest| == 0 {
      assert shaped + rest == shaped;
    } else {
      var init := rest[..|rest| - 1];
      ErrorStopsRun(store, shaped, init);
      assert shaped + rest == (shaped + init) + [rest[|rest| - 1]];
      RunSnoc(store, shaped + init, rest[|rest| - 1]);
    }
  }

  /**
   * `after` extends `before` by transactions that are each created under a
   * key new to the file, no key twice; no account name is lost.
   */
  ghost predicate CreatesFresh(before: Store, after: Store)
  {
    && before.accounts <= after.accounts
    && |before.created| <= |after.created|
    && after.created[..|before.created|] == before.created
    && before.transactions <= after.transactions
    && (forall i :: |before.created| <= i < |after.created| ==>
          KeyOfNew(after.created[i]) in after.transactions && KeyOfNew(after.created[i]) !in before.transactions)
    && (forall i, j :: |before.created| <= i < j < |after.created| ==>
          KeyOfNew(after.created[i]) != KeyOfNew(after.created[j]))
  }

  lemma CreatesFreshTransitive(a: Store, b: Store, c: Store)
    requires CreatesFresh(a, b) && CreatesFresh(b, c)
    ensures CreatesFresh(a, c)
  {
    assert c.created[..|a.created|] == c.created[..|b.created|][..|a.created|];
    forall i | |a.created| <= i < |b.created| ensures c.created[i] == b.created[i] {
      assert c.created[..|b.created|][i] == c.created[i];
    }
  }

  /** No transaction is created twice, and none whose key was already in the file. */
  lemma {:induction false} RunCreatesFresh(store: Store, shaped: seq<Shaped>)
    ensures CreatesFresh(store, Run(store, shaped).store)
    decreases |shaped|
  {
    if |shaped| > 0 {
      var init := shaped[..|shaped| - 1];
      RunCreatesFresh(store, init);
      var o := Run(store, init);
      if o.error.None? {
        var after := Step(o.store, shaped[|shaped| - 1]).store;
        assert CreatesFresh(o.store, after);
        CreatesFreshTransitive(store, o.store, after);
      }
    }
  }

  /** One step creates a transaction exactly when it adds a key to the file. */
  lemma StepCountsNewKeys(store: Store, shaped: Shaped)
    ensures var after := Step(store, shaped).store;
      |after.transactions| - |store.transactions| == |after.created| - |store.created|
  {
    if shaped.Success? && KeyOfNew(shaped.value) !in store.transactions {
      assert |store.transactions + {KeyOfNew(shaped.value)}| == |store.transactions| + 1;
    }
  }

  /** The number of transactions created equals the number of keys added to the file. */
  lemma {:induction false} RunCountsNewKeys(store: Store, shaped: seq<Shaped>)
    ensures var after := Run(store, shaped).store;
      |after.transactions| - |store.transactions| == |after.created| - |store.created|
    decreases |shaped|
  {
    if |shaped| > 0 {
      var init := shaped[..|shaped| - 1];
      RunCountsNewKeys(store, init);
      var o := Run(store, init);
      if o.error.None? {
        StepCountsNewKeys(o.store, shaped[|shaped| - 1]);
      }
    }
  }

  predicate AllShaped(shaped: seq<Shaped>)
  {
    forall i :: 0 <= i < |shaped| ==> shaped[i].Success?
  }

  /** The keys of shaped transactions, in order. */
  function Keys(shaped: seq<Shaped>): (keys: seq<Key>)
    requires AllShaped(shaped)
    ensures |keys| == |shaped|
    ensures forall i :: 0 <= i < |shaped| ==> keys[i] == KeyOfNew(shaped[i].value)
  {
    seq(|shaped|, i requires 0 <= i < |shaped| && AllShaped(shaped) => KeyOfNew(shaped[i].value))
  }

  /**
   * The import of one account's transactions ends without error exactly when
   * every one of them could be shaped; then the rule set ran once on every
   * transaction, in feed order, whether it was matched or created.
   */
  lemma {:induction false} RunRunsRulesOnEveryTransaction(store: Store, shaped: seq<Shaped>)
    ensures Run(store, shaped).error.None? <==> AllShaped(shaped)
    ensures AllShaped(shaped) ==> Run(store, shaped).store.ruleRuns == store.ruleRuns + Keys(shaped)
    decreases |shaped|
  {
    if |shaped| > 0 {
      var init := shaped[..|shaped| - 1];
      var last := shaped[|shaped| - 1];
      RunRunsRulesOnEveryTransaction(store, init);
      assert AllShaped(shaped) <==> AllShaped(init) && last.Success?;
      if AllShaped(shaped) {
        var k := KeyOfNew(last.value);
        assert Keys(shaped) == Keys(init) + [k];
        assert (store.ruleRuns + Keys(init)) + [k] == store.ruleRuns + (Keys(init) + [k]);
      }
    }
  }

  /** Without an error, the key of every transaction is known to the file afterwards. */
  lemma {:induction false} RunKnowsEveryKey(store: Store, shaped: seq<Shaped>)
    requires Run(store, shaped).error.None?
    ensures forall i :: 0 <= i < |shaped| ==>
      shaped[i].Success? && KeyOfNew(shaped[i].value) in Run(store, shaped).store.transactions
    decreases |shaped|
  {
    if |shaped| > 0 {
      var init := shaped[..|shaped| - 1];
      RunKnowsEveryKey(store, init);
      RunCreatesFresh(Run(store, init).store, [shaped[|shaped| - 1]]);
      var after := Run(store, shaped).store;
      assert Run(store, init).store.transactions <= after.transactions;
      forall i | 0 <= i < |shaped|
        ensures shaped[i].Success? && KeyOfNew(shaped[i].value) in after.transactions
      {
        if i < |shaped| - 1 {
          assert shaped[i] == init[i];
        }
      }
    }
  }

  lemma {:induction false} RunOfKnownKeysCreatesNothing(store: Store, shaped: seq<Shaped>)
    requires forall i :: 0 <= i < |shaped| ==>
      shaped[i].Success? && KeyOfNew(shaped[i].value) in store.transactions
    ensures Run(store, shaped).error.None?
    ensures Run(store, shaped).store.created == store.created
    ensures Run(store, shaped).store.transactions == store.transactions
    decreases |shaped|
  {
    if |shaped| > 0 {
      var init := shaped[..|shaped| - 1];
      forall i | 0 <= i < |init| ensures init[i] == shaped[i] { }
      RunOfKnownKeysCreatesNothing(store, init);
    }
  }

  /** Importing the same transactions a second time creates nothing: a repeated import is harmless. */
  lemma RunTwiceCreatesNothing(store: Store, shaped: seq<Shaped>)
    requires Run(store, shaped).error.None?
    ensures var first := Run(store, shaped).store;
      var second := Run(first, shaped);
      second.error.None? && second.store.created == first.created && second.store.transactions == first.transactions
  {
    RunKnowsEveryKey(store, shaped);
    RunOfKnownKeysCreatesNothing(Run(store, shaped).store, shaped);
  }

  /**
   * Feed transactions all shape exactly when each has its parent group (or
   * categories are off); the keys they are matched by are the feed keys.
   */
  lemma ShapedKeys(shaped: seq<Shaped>, account: string, txs: seq<FeedTransaction>, syncCategories: bool)
    requires ShapedFrom(shaped, account, txs, syncCategories)
    ensures AllShaped(shaped) <==> forall i :: 0 <= i < |txs| ==> Shapeable(txs[i], syncCategories)
    ensures AllShaped(shaped) ==> forall i :: 0 <= i < |txs| ==> Keys(shaped)[i] == KeyOf(account, txs[i])
  {
    forall i | 0 <= i < |txs| ensures shaped[i] == Shape(txs[i], account, syncCategories) { }
  }

  // ---------------------------------------------------------------------
  // Pagination of one feed account

  /** The loop stops after a page whose next cursor is absent, empty or "none" in any case. */
  predicate EndsPagination(next: Option<string>)
  {
    !Truthy(next) || ToLower(next.value) == "none"
  }

  /** Index of the first page that ends pagination, or the number of pages if none does. */
  function FinalPage(pages: seq<Page>): (n: nat)
    ensures n <= |pages|
    ensures n < |pages| ==> EndsPagination(pages[n].next)
    ensures forall k :: 0 <= k < n ==> !EndsPagination(pages[k].next)
    decreases |pages|
  {
    if |pages| == 0 then 0
    else if EndsPagination(pages[0].next) then 0
    else 1 + FinalPage(pages[1..])
  }

  /** No page after one that ends pagination is final. */
  lemma {:induction false} FinalPageAtMost(pages: seq<Page>, n: nat)
    requires n < |pages| && EndsPagination(pages[n].next)
    ensures FinalPage(pages) <= n
    decreases n
  {
    if !EndsPagination(pages[0].next) {
      assert n != 0;
      assert pages[1..][n - 1] == pages[n];
      FinalPageAtMost(pages[1..], n - 1);
    }
  }

  /** A page at or before the final one that does not end pagination is not the final one. */
  lemma NotFinalPage(pages: seq<Page>, n: nat)
    requires n < |pages| && n <= FinalPage(pages) && !EndsPagination(pages[n].next)
    ensures n + 1 <= FinalPage(pages)
  {
  }

  /** The pages the loop reads: up to and including the final one. */
  function Consumed(pages: seq<Page>): seq<Page>
  {
    var n := FinalPage(pages);
    if n < |pages| then pages[..n + 1] else pages
  }

  function Items(pages: seq<Page>): seq<FeedTransaction>
    decreases |pages|
  {
    if |pages| == 0 then [] else Items(pages[..|pages| - 1]) + pages[|pages| - 1].items
  }

  lemma {:induction false} ItemsConcat(a: seq<Page>, b: seq<Page>)
    ensures Items(a + b) == Items(a) + Items(b)
    decreases |b|
  {
    if |b| == 0 {
      assert a + b == a;
    } else {
      var init := b[..|b| - 1];
      ItemsConcat(a, init);
      assert (a + b)[..|a + b| - 1] == a + init;
      assert (a + b)[|a + b| - 1] == b[|b| - 1];
      assert Items(a + b) == Items(a + init) + b[|b| - 1].items;
    }
  }

  lemma ItemsSnoc(pages: seq<Page>, n: nat)
    requires n < |pages|
    ensures Items(pages[..n + 1]) == Items(pages[..n]) + pages[n].items
  {
    assert pages[..n + 1][..n] == pages[..n];
  }

  lemma ConsumedAround(pages: seq<Page>, n: nat)
    requires n < |pages| && n <= FinalPage(pages)
    ensures Items(Consumed(pages)) == Items(pages[..n]) + pages[n].items + Items(Consumed(pages)[n + 1..])
  {
    ConsumedPrefix(pages, n);
    ItemsAround(Consumed(pages), pages, n);
  }

  /** Every page up to the final one is consumed. */
  lemma ConsumedPrefix(pages: seq<Page>, n: nat)
    requires n < |pages| && n <= FinalPage(pages)
    ensures n < |Consumed(pages)| && Consumed(pages)[..n + 1] == pages[..n + 1]
  {
  }

  /** The items of a list of pages that starts with `pages[..n + 1]`, split around page n. */
  lemma ItemsAround(c: seq<Page>, pages: seq<Page>, n: nat)
    requires n < |c| && n < |pages| && c[..n + 1] == pages[..n + 1]
    ensures Items(c) == Items(pages[..n]) + pages[n].items + Items(c[n + 1..])
  {
    assert c == c[..n + 1] + c[n + 1..];
    ItemsConcat(c[..n + 1], c[n + 1..]);
    ItemsSnoc(pages, n);
  }

  /**
   * What the import of one feed account leaves behind: the transactions of
   * every page read are shaped and processed in order; when the replies run
   * out before a page ends pagination, the request that gets no reply fails.
   */
  ghost function AccountOutcome(store: Store, account: FeedAccount, syncCategories: bool): Outcome
  {
    var txs := Items(Consumed(account.pages));
    ShapedExist(account.name, txs, syncCategories);
    var shaped :| ShapedFrom(shaped, account.name, txs, syncCategories);
    var o := Run(store, shaped);
    if o.error.None? && FinalPage(account.pages) == |account.pages| then Outcome(o.store, Some(RequestFailed))
    else o
  }

  /** The outcome of an account, once the shaped forms of all the transactions read are known. */
  lemma AccountOutcomeOfShaped(store: Store, account: FeedAccount, syncCategories: bool, shaped: seq<Shaped>)
    requires ShapedFrom(shaped, account.name, Items(Consumed(account.pages)), syncCategories)
    ensures AccountOutcome(store, account, syncCategories) ==
      var o := Run(store, shaped);
      if o.error.None? && FinalPage(account.pages) == |account.pages| then Outcome(o.store, Some(RequestFailed))
      else o
  {
    var txs := Items(Consumed(account.pages));
    forall other | ShapedFrom(other, account.name, txs, syncCategories) ensures other == shaped {
      ShapedFromIsShapeAll(other, account.name, txs, syncCategories);
      ShapedFromIsShapeAll(shaped, account.name, txs, syncCategories);
    }
  }

  /** An error on page n, after the first transactions of that page, is the outcome of the whole account. */
  lemma AccountOutcomeOnError(store: Store, account: FeedAccount, syncCategories: bool, n: nat,
                              before: seq<Shaped>, onPage: seq<Shaped>)
    requires n < |account.pages| && n <= FinalPage(account.pages)
    requires ShapedFrom(before, account.name, Items(account.pages[..n]), syncCategories)
    requires |onPage| <= |account.pages[n].items|
    requires ShapedFrom(onPage, account.name, account.pages[n].items[..|onPage|], syncCategories)
    requires Run(store, before + onPage).error.Some?
    ensures AccountOutcome(store, account, syncCategories) == Run(store, before + onPage)
  {
    var pages := account.pages;
    var items := pages[n].items;
    var rest := Items(Consumed(pages)[n + 1..]);
    ConsumedAround(pages, n);
    assert items == items[..|onPage|] + items[|onPage|..];
    var tail := ShapedOf(account.name, items[|onPage|..] + rest, syncCategories);
    ShapedFromConcat(before, onPage, account.name, Items(pages[..n]), items[..|onPage|], syncCategories);
    ShapedFromConcat(before + onPage, tail, account.name, Items(pages[..n]) + items[..|onPage|],
                     items[|onPage|..] + rest, syncCategories);
    assert Items(pages[..n]) + items[..|onPage|] + (items[|onPage|..] + rest) == Items(Consumed(pages));
    AccountOutcomeOfShaped(store, account, syncCategories, before + onPage + tail);
    ErrorStopsRun(store, before + onPage, tail);
  }

  /** One request of the transactions endpoint: account, `start` parameter, `cursor` parameter. */
  datatype Request = Request(accountId: string, start: Option<int>, cursor: Option<string>)

  /** The k-th request of the loop: no cursor at first, then the cursor the previous page returned. */
  function RequestAt(account: FeedAccount, start: StartDate, k: nat): Request
    requires k <= |account.pages|
  {
    Request(account.id, StartParam(start), if k == 0 then None else account.pages[k - 1].next)
  }

  /** The figures logged once an account is done: transactions read, transactions created, pages. */
  datatype Report = Report(account: string, total: nat, imported: int, pages: nat)

  /**
   * What the cursor loop of one account promises: its outcome is the
   * account's outcome; request k carries the cursor of page k - 1; when no
   * error occurred it made one request per page up to the final one and
   * reports the transactions read, the transactions created and the pages;
   * when a request failed it made one request more than there are replies.
   */
  ghost predicate AccountImported(store: Store, account: FeedAccount, start: StartDate, syncCategories: bool,
                                  o: Outcome, requests: seq<Request>, report: Report)
  {
    && o == AccountOutcome(store, account, syncCategories)
    && 0 < |requests| <= FinalPage(account.pages) + 1
    && (forall k :: 0 <= k < |requests| ==> k <= |account.pages| && requests[k] == RequestAt(account, start, k))
    && (o.error.None? ==>
         && FinalPage(account.pages) < |account.pages|
         && |requests| == FinalPage(account.pages) + 1
         && |store.created| <= |o.store.created|
         && report == Report(account.name, |Items(Consumed(account.pages))|,
                             |o.store.created| - |store.created|, |requests|))
    && (o.error == Some(RequestFailed) ==> |requests| == |account.pages| + 1)
  }

  /** The requests made before page n is read, the last one being for page n. */
  ghost predicate RequestsUpTo(account: FeedAccount, start: StartDate, n: nat, requests: seq<Request>)
  {
    && n <= |account.pages| && |requests| == n + 1
    && forall k :: 0 <= k <= n ==> requests[k] == RequestAt(account, start, k)
  }

  /** The loop ends when the request for page n gets no reply. */
  lemma NoReply(store: Store, account: FeedAccount, start: StartDate, syncCategories: bool,
                shaped: seq<Shaped>, o: Outcome, requests: seq<Request>, report: Report)
    requires |account.pages| <= FinalPage(account.pages) && RequestsUpTo(account, start, |account.pages|, requests)
    requires ShapedFrom(shaped, account.name, Items(account.pages[..|account.pages|]), syncCategories)
    requires Run(store, shaped).error.None? && o == Outcome(Run(store, shaped).store, Some(RequestFailed))
    ensures AccountImported(store, account, start, syncCategories, o, requests, report)
  {
    assert Consumed(account.pages) == account.pages == account.pages[..|account.pages|];
    AccountOutcomeOfShaped(store, account, syncCategories, shaped);
  }

  /** The loop ends when shaping a transaction of page n fails. */
  lemma ErrorOnPage(store: Store, account: FeedAccount, start: StartDate, syncCategories: bool, n: nat,
                    before: seq<Shaped>, onPage: seq<Shaped>, o: Outcome, requests: seq<Request>, report: Report)
    requires n < |account.pages| && n <= FinalPage(account.pages) && RequestsUpTo(account, start, n, requests)
    requires ShapedFrom(before, account.name, Items(account.pages[..n]), syncCategories)
    requires |onPage| <= |account.pages[n].items|
    requires ShapedFrom(onPage, account.name, account.pages[n].items[..|onPage|], syncCategories)
    requires o == Run(store, before + onPage) && o.error == Some(MissingCategoryGroup)
    ensures AccountImported(store, account, start, syncCategories, o, requests, report)
  {
    AccountOutcomeOnError(store, account, syncCategories, n, before, onPage);
  }

  /** The loop ends after page n - 1 when that page ends pagination. */
  lemma LastPage(store: Store, account: FeedAccount, start: StartDate, syncCategories: bool, n: nat,
                 shaped: seq<Shaped>, o: Outcome, requests: seq<Request>, imported: nat)
    requires 0 < n <= |account.pages| && n - 1 <= FinalPage(account.pages)
    requires EndsPagination(account.pages[n - 1].next)
    requires RequestsUpTo(account, start, n - 1, requests)
    requires ShapedFrom(shaped, account.name, Items(account.pages[..n]), syncCategories)
    requires o == Run(store, shaped) && o.error.None? && |o.store.created| == |store.created| + imported
    ensures AccountImported(store, account, start, syncCategories, o, requests,
                            Report(account.name, |Items(account.pages[..n])|, imported, n))
  {
    FinalPageAtMost(account.pages, n - 1);
    assert Consumed(account.pages) == account.pages[..n];
    AccountOutcomeOfShaped(store, account, syncCategories, shaped);
  }

  /** The shaped forms of the transactions on the first n + 1 pages. */
  lemma NextPage(shaped: seq<Shaped>, onPage: seq<Shaped>, account: FeedAccount, n: nat, syncCategories: bool)
    requires n < |account.pages|
    requires ShapedFrom(shaped, account.name, Items(account.pages[..n]), syncCategories)
    requires ShapedFrom(onPage, account.name, account.pages[n].items, syncCategories)
    ensures ShapedFrom(shaped + onPage, account.name, Items(account.pages[..n + 1]), syncCategories)
    ensures |Items(account.pages[..n + 1])| == |Items(account.pages[..n])| + |account.pages[n].items|
  {
    ItemsSnoc(account.pages, n);
    ShapedFromConcat(shaped, onPage, account.name, Items(account.pages[..n]), account.pages[n].items, syncCategories);
  }

  /**
   * The cursor loop for one feed account (lines 287-395): requests pages until
   * one ends pagination, matches or creates every transaction on them, and
   * counts transactions, imports and pages.
   */
  method ImportAccount(store: Store, account: FeedAccount, start: StartDate, syncCategories: bool)
    returns (o: Outcome, requests: seq<Request>, report: Report)
    ensures AccountImported(store, account, start, syncCategories, o, requests, report)
  {
    var pages := account.pages;
    o := Outcome(store, None);
    requests := [];
    report := Report(account.name, 0, 0, 0);
    var cursor: Option<string> := None;
    var total, imported, pageCount := 0, 0, 0;
    ghost var shaped: seq<Shaped> := [];
    while true
      invariant pageCount <= FinalPage(pages) && |requests| == pageCount
      invariant forall k :: 0 <= k < pageCount ==> requests[k] == RequestAt(account, start, k)
      invariant cursor == if pageCount == 0 then None else pages[pageCount - 1].next
      invariant ShapedFrom(shaped, account.name, Items(pages[..pageCount]), syncCategories)
      invariant o == Run(store, shaped) && o.error.None?
      invariant total == |Items(pages[..pageCount])|
      invariant |store.created| + imported == |o.store.created|
      decreases |pages| - pageCount
    {
      requests := requests + [Request(account.id, StartParam(start), if Truthy(cursor) then cursor else None)];
      assert RequestsUpTo(account, start, pageCount, requests);
      if pageCount == |pages| {
        o := Outcome(o.store, Some(RequestFailed));
        NoReply(store, account, start, syncCategories, shaped, o, requests, report);
        return;
      }
      var page := pages[pageCount];
      cursor := page.next;
      var processed, created;
      ghost var onPage;
      o, processed, created, onPage := ImportPage(store, account.name, shaped, page.items, o, syncCategories);
      if o.error.Some? {
        ErrorOnPage(store, account, start, syncCategories, pageCount, shaped, onPage, o, requests, report);
        return;
      }
      NextPage(shaped, onPage, account, pageCount, syncCategories);
      shaped := shaped + onPage;
      total := total + processed;
      imported := imported + created;
      pageCount := pageCount + 1;
      if EndsPagination(cursor) {
        report := Report(account.name, total, imported, pageCount);
        assert 0 < pageCount <= |account.pages|;
        assert pageCount - 1 <= FinalPage(account.pages);
        assert EndsPagination(account.pages[pageCount - 1].next);
        assert RequestsUpTo(account, start, pageCount - 1, requests);
        assert ShapedFrom(shaped, account.name, Items(account.pages[..pageCount]), syncCategories);
        assert o == Run(store, shaped) && o.error.None?;
        assert |o.store.created| == |store.created| + imported;
        LastPage(store, account, start, syncCategories, pageCount, shaped, o, requests, imported);
        return;
      }
      NotFinalPage(pages, pageCount - 1);
    }
  }

  /**
   * The loop over the transactions of one page (lines 306-389): each is
   * shaped, then matched or created; a shaping error ends the loop.
   * `processed` counts the transactions taken from the page and `created`
   * those created; `shaped` holds the shaped form of each one taken.
   */
  method ImportPage(store: Store, account: string, ghost before: seq<Shaped>, items: seq<FeedTransaction>,
                    o0: Outcome, syncCategories: bool)
    returns (o: Outcome, processed: nat, created: nat, ghost shaped: seq<Shaped>)
    requires o0 == Run(store, before) && o0.error.None?
    ensures |shaped| <= |items| && ShapedFrom(shaped, account, items[..|shaped|], syncCategories)
    ensures o == Run(store, before + shaped)
    ensures o.error.Some? ==> o.error == Some(MissingCategoryGroup)
    ensures o.error.None? ==>
      && ShapedFrom(shaped, account, items, syncCategories)
      && processed == |items| && |o.store.created| == |o0.store.created| + created
  {
    o := o0;
    processed, created := 0, 0;
    shaped := [];
    assert before + shaped == before;
    for j := 0 to |items|
      invariant |shaped| == j && ShapedFrom(shaped, account, items[..j], syncCategories)
      invariant o == Run(store, before + shaped) && o.error.None?
      invariant processed == j
      invariant |o.store.created| == |o0.store.created| + created
    {
      processed := processed + 1;
      var isNew;
      ghost var s;
      o, isNew, s := ImportTransaction(o.store, account, items[j], syncCategories);
      NextShaped(shaped, s, account, items, j, syncCategories);
      NextRun(store, before, shaped, s);
      shaped := shaped + [s];
      if o.error.Some? {
        return;
      }
      if isNew {
        created := created + 1;
      }
    }
    assert items[..|items|] == items;
  }

  /** The shaped forms of the first j + 1 transactions of a page. */
  lemma NextShaped(shaped: seq<Shaped>, s: Shaped, account: string, items: seq<FeedTransaction>, j: nat,
                   syncCategories: bool)
    requires j < |items| && ShapedFrom(shaped, account, items[..j], syncCategories)
    requires ShapedFrom([s], account, [items[j]], syncCategories)
    ensures ShapedFrom(shaped + [s], account, items[..j + 1], syncCategories)
  {
    ShapedFromConcat(shaped, [s], account, items[..j], [items[j]], syncCategories);
    assert items[..j + 1] == items[..j] + [items[j]];
  }

  /** Processing one more transaction after an error-free run extends the run by that transaction. */
  lemma NextRun(store: Store, before: seq<Shaped>, shaped: seq<Shaped>, s: Shaped)
    requires Run(store, before + shaped).error.None?
    ensures Step(Run(store, before + shaped).store, s) == Run(store, before + (shaped + [s]))
  {
    RunSnoc(store, before + shaped, s);
    assert before + (shaped + [s]) == (before + shaped) + [s];
  }

  /**
   * One transaction of the loop (lines 306-389): it is shaped, then matched or
   * created, then the rule set runs on it; `isNew` tells whether it was created.
   */
  method ImportTransaction(file: Store, account: string, tx: FeedTransaction, syncCategories: bool)
    returns (o: Outcome, isNew: bool, ghost s: Shaped)
    ensures ShapedFrom([s], account, [tx], syncCategories) && o == Step(file, s)
    ensures o.error.Some? ==> o.error == Some(MissingCategoryGroup)
    ensures o.error.None? ==> |o.store.created| == |file.created| + (if isNew then 1 else 0)
  {
    var shaped := ShapeTransaction(tx, account, syncCategories);
    s := shaped;
    assert [tx][0] == tx;
    if shaped.Failure? {
      return Outcome(file, Some(shaped.error)), false, s;
    }
    var after;
    after, isNew := RecordTransaction(file, KeyOfNew(shaped.value), shaped.value);
    o := Outcome(after, None);
  }

  /**
   * The statements that match or create one shaped transaction and then run
   * the rule set on it (lines 376-389); `isNew` tells whether it was created.
   */
  method RecordTransaction(file: Store, key: Key, t: NewTransaction) returns (after: Store, isNew: bool)
    ensures after == Record(file, key, t)
    ensures isNew <==> key !in file.transactions
    ensures |after.created| == |file.created| + (if isNew then 1 else 0)
  {
    after := file;
    isNew := key !in after.transactions;
    if isNew {
      after := after.(transactions := after.transactions + {key}, created := after.created + [t]);
    }
    after := after.(ruleRuns := after.ruleRuns + [key]);
  }

  // ---------------------------------------------------------------------
  // All feed accounts

  function ReportOf(before: Store, account: FeedAccount, after: Store): Report
  {
    Report(account.name, |Items(Consumed(account.pages))|, |after.created| - |before.created|,
           FinalPage(account.pages) + 1)
  }

  datatype Progress = Progress(store: Store, error: Option<ImportError>, reports: seq<Report>)

  /**
   * The loop over feed accounts: each account is looked up or created by
   * name, its start date is computed (`start`, the same for every account),
   * then its transactions are imported; the first error stops the whole import.
   */
  ghost function ImportAll(store: Store, feed: seq<FeedAccount>, start: Result<StartDate, ImportError>,
                           syncCategories: bool): Progress
    decreases |feed|
  {
    if |feed| == 0 then Progress(store, None, [])
    else
      var p := ImportAll(store, feed[..|feed| - 1], start, syncCategories);
      if p.error.Some? then p
      else
        var account := feed[|feed| - 1];
        var withAccount := p.store.(accounts := p.store.accounts + {account.name});
        if start.Failure? then Progress(withAccount, Some(start.error), p.reports)
        else
          var o := AccountOutcome(withAccount, account, syncCategories);
          Progress(o.store, o.error,
                   if o.error.None? then p.reports + [ReportOf(withAccount, account, o.store)] else p.reports)
  }

  /**
   * One more feed account, imported by `ImportAccount` into the file with that
   * account added, extends `ImportAll` by its outcome and, without error, its report.
   */
  lemma ImportAllNext(store: Store, feed: seq<FeedAccount>, i: nat, start: Result<StartDate, ImportError>,
                      syncCategories: bool, before: Store, reports: seq<Report>, o: Outcome, requests: seq<Request>,
                      report: Report)
    requires i < |feed| && ImportAll(store, feed[..i], start, syncCategories) == Progress(before, None, reports)
    requires start.Success?
    requires AccountImported(before.(accounts := before.accounts + {feed[i].name}), feed[i], start.value,
                             syncCategories, o, requests, report)
    ensures ImportAll(store, feed[..i + 1], start, syncCategories)
            == Progress(o.store, o.error, if o.error.None? then reports + [report] else reports)
  {
    var prefix := feed[..i + 1];
    assert prefix[..i] == feed[..i] && prefix[i] == feed[i];
    var withAccount := before.(accounts := before.accounts + {feed[i].name});
    assert o == AccountOutcome(withAccount, feed[i], syncCategories);
    if o.error.None? {
      assert report == ReportOf(withAccount, feed[i], o.store);
    }
  }

  /** A start date out of range stops the import at the next account, once that account is created. */
  lemma ImportAllNextWithoutStart(store: Store, feed: seq<FeedAccount>, i: nat, start: Result<StartDate, ImportError>,
                                  syncCategories: bool, before: Store, reports: seq<Report>)
    requires i < |feed| && ImportAll(store, feed[..i], start, syncCategories) == Progress(before, None, reports)
    requires start.Failure?
    ensures ImportAll(store, feed[..i + 1], start, syncCategories)
            == Progress(before.(accounts := before.accounts + {feed[i].name}), Some(start.error), reports)
  {
    var prefix := feed[..i + 1];
    assert prefix[..i] == feed[..i] && prefix[i] == feed[i];
  }

  /** A start date out of range stops the import at the first account, once that account is created. */
  lemma {:induction false} ImportAllWithoutStart(store: Store, feed: seq<FeedAccount>,
                                                 start: Result<StartDate, ImportError>, syncCategories: bool)
    requires start.Failure? && |feed| > 0
    ensures ImportAll(store, feed, start, syncCategories)
            == Progress(store.(accounts := store.accounts + {feed[0].name}), Some(start.error), [])
    decreases |feed|
  {
    var init := feed[..|feed| - 1];
    if |init| > 0 {
      assert init[0] == feed[0];
      ImportAllWithoutStart(store, init, start, syncCategories);
    } else {
      assert ImportAll(store, init, start, syncCategories) == Progress(store, None, []);
    }
  }

  /** After the first error no further account is imported. */
  lemma {:induction false} ImportAllStops(store: Store, feed: seq<FeedAccount>, n: nat,
                                          start: Result<StartDate, ImportError>, syncCategories: bool)
    requires n <= |feed| && ImportAll(store, feed[..n], start, syncCategories).error.Some?
    ensures ImportAll(store, feed, start, syncCategories) == ImportAll(store, feed[..n], start, syncCategories)
    decreases |feed|
  {
    if n < |feed| {
      var init := feed[..|feed| - 1];
      assert init[..n] == feed[..n];
      ImportAllStops(store, init, n, start, syncCategories);
    } else {
      assert feed[..n] == feed;
    }
  }

  /** Across all accounts, no transaction is created twice or over an existing import. */
  lemma {:induction false} ImportAllCreatesFresh(store: Store, feed: seq<FeedAccount>,
                                                 start: Result<StartDate, ImportError>, syncCategories: bool)
    ensures CreatesFresh(store, ImportAll(store, feed, start, syncCategories).store)
    decreases |feed|
  {
    if |feed| > 0 {
      var init := feed[..|feed| - 1];
      ImportAllCreatesFresh(store, init, start, syncCategories);
      var p := ImportAll(store, init, start, syncCategories);
      if p.error.None? {
        var account := feed[|feed| - 1];
        var withAccount := p.store.(accounts := p.store.accounts + {account.name});
        assert CreatesFresh(store, withAccount);
        if start.Success? {
          var shaped := ShapedOf(account.name, Items(Consumed(account.pages)), syncCategories);
          AccountOutcomeOfShaped(withAccount, account, syncCategories, shaped);
          RunCreatesFresh(withAccount, shaped);
          CreatesFreshTransitive(store, withAccount, AccountOutcome(withAccount, account, syncCategories).store);
        }
      }
    }
  }
}
