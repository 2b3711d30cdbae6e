/**
 * The log viewer of gui/tabs/logs_tab.py: `apply_filters` keeps the log
 * entries that pass a date window, an action, a user and a free-text
 * filter and lists them newest first; `add_log_to_table` shortens long
 * details. The widget values (dates, combo box, text fields) are
 * parameters; the end date is passed as the day after the selected one,
 * which the date widget computes.
 */
module LogsView {
  import opened Text
  import opened Sorting
  import opened Records

  /** The filter widgets' values: dates as "yyyy-MM-dd", the rest as typed. */
  datatype LogFilters = LogFilters(startDate: string, dayAfterEnd: string, action: string, user: string, search: string)

  /** `timestamp.split('T')[0]`: the date part of an ISO timestamp. */
  function DatePart(timestamp: string): string {
    Split(timestamp, 'T')[0]
  }

  /** The date part is the longest prefix of the timestamp without a 'T'. */
  lemma DatePartPrefix(timestamp: string)
    ensures StartsWith(timestamp, DatePart(timestamp))
    ensures 'T' !in DatePart(timestamp)
    ensures |DatePart(timestamp)| < |timestamp| ==> timestamp[|DatePart(timestamp)|] == 'T'
  {
    var parts := Split(timestamp, 'T');
    if |parts| > 1 {
      assert timestamp == parts[0] + ['T'] + Join(parts[1..], ['T']);
    }
  }

  /** `str(value)`: strings as they are, floats through the `fmt` rendering. */
  function ValueText(v: Value, fmt: real -> string): string {
    match v
    case Str(s) => s
    case Num(r) => fmt(r)
  }

  /** Some details value contains `needle` once lower-cased. */
  predicate InDetails(details: map<string, Value>, needle: string, fmt: real -> string) {
    exists k :: k in details && Contains(Lower(ValueText(details[k], fmt)), needle)
  }

  /** The free-text search: in the action, a non-empty roll id, or any details value. */
  predicate SearchHit(e: LogEntry, needle: string, fmt: real -> string) {
    || Contains(Lower(e.action), needle)
    || (e.rollId != [] && Contains(Lower(e.rollId), needle))
    || InDetails(e.details, needle, fmt)
  }

  predicate InDateWindow(e: LogEntry, f: LogFilters) {
    !StrLess(DatePart(e.timestamp), f.startDate) && StrLess(DatePart(e.timestamp), f.dayAfterEnd)
  }

  /** Whether an entry passes every active filter; an empty filter text is inactive. */
  predicate Passes(e: LogEntry, f: LogFilters, fmt: real -> string) {
    && InDateWindow(e, f)
    && (f.action == [] || e.action == f.action)
    && (Lower(f.user) == [] || Contains(Lower(e.user), Lower(f.user)))
    && (Lower(f.search) == [] || SearchHit(e, Lower(f.search), fmt))
  }

  /** The entries that pass, in log order. */
  function Select(logs: seq<LogEntry>, f: LogFilters, fmt: real -> string): (r: seq<LogEntry>)
    ensures |r| <= |logs|
  {
    if logs == [] then []
    else Select(logs[..|logs| - 1], f, fmt) + (if Passes(logs[|logs| - 1], f, fmt) then [logs[|logs| - 1]] else [])
  }

  /** An entry is shown iff it is in the log and passes the filters. */
  lemma {:induction false} SelectMembers(logs: seq<LogEntry>, f: LogFilters, fmt: real -> string, e: LogEntry)
    ensures e in Select(logs, f, fmt) <==> e in logs && Passes(e, f, fmt)
  {
    if logs != [] {
      SelectMembers(logs[..|logs| - 1], f, fmt, e);
      assert logs == logs[..|logs| - 1] + [logs[|logs| - 1]];
    }
  }

  /** Each passing entry is shown as often as it occurs in the log, and nothing else is shown. */
  lemma {:induction false} SelectCounts(logs: seq<LogEntry>, f: LogFilters, fmt: real -> string, e: LogEntry)
    ensures multiset(Select(logs, f, fmt))[e] == if Passes(e, f, fmt) then multiset(logs)[e] else 0
  {
    if logs != [] {
      SelectCounts(logs[..|logs| - 1], f, fmt, e);
      assert logs == logs[..|logs| - 1] + [logs[|logs| - 1]];
    }
  }

  /** With every filter text empty, exactly the entries dated within the window are shown. */
  lemma NoTextFilters(logs: seq<LogEntry>, f: LogFilters, fmt: real -> string, e: LogEntry)
    requires f.action == [] && f.user == [] && f.search == []
    ensures e in Select(logs, f, fmt) <==> e in logs && InDateWindow(e, f)
  {
    SelectMembers(logs, f, fmt, e);
  }

  /** A non-empty action filter shows only entries with exactly that action. */
  lemma ActionFilterExact(logs: seq<LogEntry>, f: LogFilters, fmt: real -> string, e: LogEntry)
    requires f.action != [] && e in Select(logs, f, fmt)
    ensures e.action == f.action
  {
    SelectMembers(logs, f, fmt, e);
  }

  /** A non-empty user filter shows only entries whose user contains it, ignoring case. */
  lemma UserFilterContains(logs: seq<LogEntry>, f: LogFilters, fmt: real -> string, e: LogEntry)
    requires f.user != [] && e in Select(logs, f, fmt)
    ensures Contains(Lower(e.user), Lower(f.user))
  {
    SelectMembers(logs, f, fmt, e);
  }

  /** A shown entry's date part lies in the half-open window, compared as strings. */
  lemma DateWindowHolds(logs: seq<LogEntry>, f: LogFilters, fmt: real -> string, e: LogEntry)
    requires e in Select(logs, f, fmt)
    ensures !StrLess(DatePart(e.timestamp), f.startDate) && StrLess(DatePart(e.timestamp), f.dayAfterEnd)
  {
    SelectMembers(logs, f, fmt, e);
  }

  /**
   * For an entry that passes the other filters, a non-empty search text
   * decides alone: the entry is shown iff the text occurs, ignoring case,
   * in its action, its roll id or one of its details values.
   */
  lemma SearchFilterDecides(logs: seq<LogEntry>, f: LogFilters, fmt: real -> string, e: LogEntry)
    requires e in logs && f.search != []
    requires Passes(e, f.(search := []), fmt)
    ensures e in Select(logs, f, fmt) <==> SearchHit(e, Lower(f.search), fmt)
  {
    SelectMembers(logs, f, fmt, e);
  }

  /** The search over the details: `for value in log.details.values()` with an early `break`. */
  method SearchDetails(details: map<string, Value>, needle: string, fmt: real -> string) returns (found: bool)
    ensures found == InDetails(details, needle, fmt)
  {
    found := false;
    var keys := details.Keys;
    while keys != {} && !found
      invariant keys <= details.Keys
      invariant found ==> InDetails(details, needle, fmt)
      invariant !found ==> forall k :: k in details && k !in keys ==> !Contains(Lower(ValueText(details[k], fmt)), needle)
      decreases |keys|
    {
      var k :| k in keys;
      if Contains(Lower(ValueText(details[k], fmt)), needle) {
        found := true;
      }
      keys := keys - {k};
    }
  }

  /** The checks of the loop body of `apply_filters` for one entry. */
  method Keep(e: LogEntry, f: LogFilters, fmt: real -> string) returns (keep: bool)
    ensures keep == Passes(e, f, fmt)
  {
    var userFilter := Lower(f.user);
    var searchText := Lower(f.search);
    var logDate := DatePart(e.timestamp);
    if StrLess(logDate, f.startDate) || !StrLess(logDate, f.dayAfterEnd) {
      return false;
    }
    if f.action != [] && e.action != f.action {
      return false;
    }
    if userFilter != [] && !Contains(Lower(e.user), userFilter) {
      return false;
    }
    if searchText != [] {
      var searchMatch := false;
      if Contains(Lower(e.action), searchText) {
        searchMatch := true;
      }
      if !searchMatch && e.rollId != [] && Contains(Lower(e.rollId), searchText) {
        searchMatch := true;
      }
      if !searchMatch {
        searchMatch := SearchDetails(e.details, searchText, fmt);
      }
      if !searchMatch {
        return false;
      }
    }
    keep := true;
  }

  /** `apply_filters`: the passing entries, newest timestamp first. */
  method ApplyFilters(allLogs: seq<LogEntry>, f: LogFilters, fmt: real -> string) returns (rows: seq<LogEntry>)
    ensures rows == SortDesc(Select(allLogs, f, fmt), Timestamp)
  {
    var filtered: seq<LogEntry> := [];
    for i := 0 to |allLogs|
      invariant filtered == Select(allLogs[..i], f, fmt)
    {
      assert allLogs[..i + 1][..i] == allLogs[..i];
      var keep := Keep(allLogs[i], f, fmt);
      if keep {
        filtered := filtered + [allLogs[i]];
      }
    }
    assert allLogs[..|allLogs|] == allLogs;
    rows := SortDesc(filtered, Timestamp);
  }

  /**
   * The table holds exactly the passing entries, each as often as it is
   * logged, newest first.
   */
  lemma ShownEntries(logs: seq<LogEntry>, f: LogFilters, fmt: real -> string, e: LogEntry)
    ensures SortedDesc(SortDesc(Select(logs, f, fmt), Timestamp), Timestamp)
    ensures e in SortDesc(Select(logs, f, fmt), Timestamp) <==> e in logs && Passes(e, f, fmt)
    ensures multiset(SortDesc(Select(logs, f, fmt), Timestamp))[e] == if Passes(e, f, fmt) then multiset(logs)[e] else 0
  {
    SortDescSorted(Select(logs, f, fmt), Timestamp);
    SortDescMembers(Select(logs, f, fmt), Timestamp, e);
    SelectMembers(logs, f, fmt, e);
    SelectCounts(logs, f, fmt, e);
  }

  /** The details column keeps at most 100 characters, marking a cut with "...". */
  const MaxDetails: nat := 100

  function TruncateDetails(details: string): (r: string)
    ensures |r| <= MaxDetails + 3
  {
    if |details| > MaxDetails then details[..MaxDetails] + "..." else details
  }

  /** Short details are shown as they are; long ones as their first 100 characters and "...". */
  lemma TruncateDetailsShape(details: string)
    ensures |details| <= MaxDetails ==> TruncateDetails(details) == details
    ensures |details| > MaxDetails ==>
      |TruncateDetails(details)| == MaxDetails + 3 && StartsWith(TruncateDetails(details), details[..MaxDetails])
      && TruncateDetails(details)[MaxDetails..] == "..."
  {
  }

  // ---------------------------------------------------------------------------
  // The action combo box

  /** The (label, value) items of the action filter combo box, as written. */
  const ActionChoices: seq<(string, string)> := [
    ("All Actions", ""), ("Roll Created", "roll_created"), ("Roll Updated", "roll_updated"),
    ("Roll Cut", "roll_cut"), ("Roll Deleted", "roll_deleted"), ("Master Added", "master_added"),
    ("Master Updated", "master_updated"), ("Master Deleted", "master_deleted"),
    ("Import", "import"), ("Export", "export")]

  /** The store logs a new master product as "master_product_added", so "Master Added" hides every such entry. */
  lemma MasterAddedHidesProducts(e: LogEntry, f: LogFilters, fmt: real -> string)
    requires e.action == "master_product_added"
    ensures ActionChoices[5].0 == "Master Added"
    ensures !Passes(e, f.(action := ActionChoices[5].1), fmt)
  {
  }

  /** The combo box with "Master Added" carrying the action the store logs. */
  const CorrectedActionChoices: seq<(string, string)> := ActionChoices[5 := ("Master Added", "master_product_added")]

  /** With the corrected value, "Master Added" shows exactly the new-product entries that pass the other filters. */
  lemma MasterAddedShowsProducts(e: LogEntry, f: LogFilters, fmt: real -> string)
    ensures CorrectedActionChoices[5].0 == "Master Added"
    ensures Passes(e, f.(action := CorrectedActionChoices[5].1), fmt) <==>
      e.action == "master_product_added" && Passes(e, f.(action := []), fmt)
  {
  }
}
