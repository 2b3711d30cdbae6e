/**
 * The in-memory inventory engine `StorageManager` of storage.py and its
 * extended twin in storage2.py: rolls keyed by roll id, master products
 * keyed by SKU, and an append-only audit log. Writing the JSON files after
 * each change is persistence and is not modelled; the log id (a random
 * UUID) and the timestamp (the clock) are supplied by the caller.
 */
module Storage {
  import opened Wrappers
  import opened Text
  import opened Sorting
  import opened Records

  // ---------------------------------------------------------------------------
  // What the mutating operations record in the audit log

  /** Details of a "roll_created" entry. */
  function CreatedDetails(r: Roll): map<string, Value> {
    map["sku" := Str(r.sku), "lot" := Str(r.lot), "length" := Num(r.originalLength), "location" := Str(r.location)]
  }

  /** Details of a "roll_cut" entry, taken from the roll after the cut. */
  function CutDetails(cut: real, after: Roll): map<string, Value> {
    map["cut_length" := Num(cut), "remaining_length" := Num(after.currentLength), "new_status" := Str(after.status)]
  }

  /** Details of a "master_product_added" entry. */
  function ProductDetails(p: MasterProduct): map<string, Value> {
    map["sku" := Str(p.sku), "description" := Str(p.description)]
  }

  // ---------------------------------------------------------------------------
  // Cutting a roll

  /** The guard of `cut_roll`: a positive cut no longer than what is left. Status is not consulted. */
  predicate CutAllowed(r: Roll, cut: real) {
    0.0 < cut <= r.currentLength
  }

  /** The roll after an allowed cut. */
  function Cut(r: Roll, cut: real): (c: Roll)
    requires CutAllowed(r, cut)
    ensures c.currentLength == r.currentLength - cut
    ensures 0.0 <= c.currentLength < r.currentLength
    ensures c.status == (if c.currentLength == 0.0 then "used" else r.status)
    ensures c == r.(currentLength := c.currentLength, status := c.status)
  {
    var left := r.currentLength - cut;
    r.(currentLength := left, status := if left <= 0.0 then "used" else r.status)
  }

  /** Successive calls of `cut_roll` on one roll; None as soon as one of them is refused. */
  function CutAll(r: Roll, cuts: seq<real>): Option<Roll>
    decreases cuts
  {
    if cuts == [] then Some(r)
    else if CutAllowed(r, cuts[0]) then CutAll(Cut(r, cuts[0]), cuts[1..])
    else None
  }

  function Sum(xs: seq<real>): real {
    if xs == [] then 0.0 else xs[0] + Sum(xs[1..])
  }

  /**
   * Cuts only ever take length away: after any run of accepted cuts the
   * length left is the original minus their sum and is never negative; a
   * roll cut down to zero is "used", and otherwise its status is untouched.
   */
  lemma {:induction false} CutAllLength(r: Roll, cuts: seq<real>)
    requires r.currentLength >= 0.0
    requires CutAll(r, cuts).Some?
    ensures CutAll(r, cuts).value.currentLength == r.currentLength - Sum(cuts)
    ensures 0.0 <= CutAll(r, cuts).value.currentLength <= r.currentLength
    ensures CutAll(r, cuts).value.originalLength == r.originalLength
    ensures CutAll(r, cuts).value.currentLength > 0.0 ==> CutAll(r, cuts).value.status == r.status
    ensures cuts != [] && CutAll(r, cuts).value.currentLength == 0.0 ==> CutAll(r, cuts).value.status == "used"
    decreases cuts
  {
    if cuts != [] {
      var c := Cut(r, cuts[0]);
      CutAllLength(c, cuts[1..]);
      if cuts[1..] != [] && CutAll(c, cuts[1..]).value.currentLength == 0.0 {
      } else if CutAll(c, cuts[1..]).value.currentLength == 0.0 {
        assert CutAll(c, cuts[1..]) == Some(c);
      }
    }
  }

  /** Once a roll has no length left, every further cut is refused. */
  lemma {:induction false} CutAfterDepletion(r: Roll, cuts: seq<real>, more: seq<real>)
    requires r.currentLength >= 0.0
    requires CutAll(r, cuts).Some? && CutAll(r, cuts).value.currentLength == 0.0
    requires more != []
    ensures CutAll(r, cuts + more).None?
    decreases cuts
  {
    if cuts == [] {
      assert cuts + more == more;
    } else {
      var c := Cut(r, cuts[0]);
      assert (cuts + more)[0] == cuts[0] && (cuts + more)[1..] == cuts[1..] + more;
      CutAfterDepletion(c, cuts[1..], more);
    }
  }

  // ---------------------------------------------------------------------------
  // update_roll: setattr for each keyword argument the roll has

  /** `if hasattr(roll, key): setattr(roll, key, value)` */
  function SetAttr(r: Roll, key: string, v: Value, attrs: set<Attr>): Roll {
    match AttrNamed(key)
    case Some(a) => if a in attrs then Patched(r, map[a := v]) else r
    case None => r
  }

  /** The keyword arguments applied one after the other, in call order. */
  function SetAttrs(r: Roll, kvs: seq<(string, Value)>, attrs: set<Attr>): Roll {
    if kvs == [] then r
    else SetAttr(SetAttrs(r, kvs[..|kvs| - 1], attrs), kvs[|kvs| - 1].0, kvs[|kvs| - 1].1, attrs)
  }

  /** The last value given for attribute `a` that is of its kind, if any. */
  function LastFit(kvs: seq<(string, Value)>, a: Attr): Option<Value> {
    if kvs == [] then None
    else if kvs[|kvs| - 1].0 == Name(a) && Fits(a, kvs[|kvs| - 1].1) then Some(kvs[|kvs| - 1].1)
    else LastFit(kvs[..|kvs| - 1], a)
  }

  /**
   * After `update_roll` every attribute the roll has and that a keyword
   * names holds the last value given for it; every other attribute is
   * unchanged (in particular keywords naming no attribute are ignored).
   */
  lemma {:induction false} SetAttrsGet(r: Roll, kvs: seq<(string, Value)>, attrs: set<Attr>, a: Attr)
    ensures Get(SetAttrs(r, kvs, attrs), a) ==
      if a in attrs && LastFit(kvs, a).Some? then LastFit(kvs, a).value else Get(r, a)
  {
    if kvs != [] {
      var init := kvs[..|kvs| - 1];
      var (key, v) := kvs[|kvs| - 1];
      SetAttrsGet(r, init, attrs, a);
      AttrNamedName(a);
      if AttrNamed(key).Some? {
        AttrNamedName(AttrNamed(key).value);
        PatchedGet(SetAttrs(r, init, attrs), map[AttrNamed(key).value := v], a);
      }
    }
  }

  /** Keywords that name no attribute of the roll leave it unchanged. */
  lemma {:induction false} SetAttrsUnknown(r: Roll, kvs: seq<(string, Value)>, attrs: set<Attr>)
    requires forall i :: 0 <= i < |kvs| ==> AttrNamed(kvs[i].0).None? || AttrNamed(kvs[i].0).value !in attrs
    ensures SetAttrs(r, kvs, attrs) == r
  {
    if kvs != [] {
      SetAttrsUnknown(r, kvs[..|kvs| - 1], attrs);
    }
  }

  // ---------------------------------------------------------------------------
  // get_logs: equality filters on the entries' attributes and details

  /** Whether `hasattr(entry, key)`: a LogEntry field or one of its two methods. */
  predicate IsLogAttr(key: string) {
    key in {"id", "timestamp", "action", "roll_id", "details", "user", "to_dict", "from_dict"}
  }

  /** `getattr(entry, key) == v`; neither the `details` dict nor a method equals a Value. */
  predicate LogAttrEquals(e: LogEntry, key: string, v: Value) {
    match key
    case "id" => v == Str(e.id)
    case "timestamp" => v == Str(e.timestamp)
    case "action" => v == Str(e.action)
    case "roll_id" => v == Str(e.rollId)
    case "user" => v == Str(e.user)
    case _ => false
  }

  /**
   * One filter of `get_logs`: an entry is rejected when it has the attribute
   * and it differs, or (otherwise) when its details hold the key with another value.
   */
  predicate KeyMatches(e: LogEntry, key: string, v: Value) {
    && !(IsLogAttr(key) && !LogAttrEquals(e, key, v))
    && !(key in e.details && e.details[key] != v)
  }

  predicate LogMatches(e: LogEntry, filters: map<string, Value>) {
    forall key :: key in filters ==> KeyMatches(e, key, filters[key])
  }

  /** The entries of `xs` that pass every filter, in their original order. */
  function FilterLogs(xs: seq<LogEntry>, filters: map<string, Value>): (r: seq<LogEntry>)
    ensures |r| <= |xs|
  {
    if xs == [] then []
    else
      var last := xs[|xs| - 1];
      FilterLogs(xs[..|xs| - 1], filters) + (if LogMatches(last, filters) then [last] else [])
  }

  lemma {:induction false} FilterLogsMembers(xs: seq<LogEntry>, filters: map<string, Value>, e: LogEntry)
    ensures e in FilterLogs(xs, filters) <==> e in xs && LogMatches(e, filters)
  {
    if xs != [] {
      FilterLogsMembers(xs[..|xs| - 1], filters, e);
      assert xs == xs[..|xs| - 1] + [xs[|xs| - 1]];
    }
  }

  /** Filtering keeps the order of the entries: it distributes over concatenation. */
  lemma {:induction false} FilterLogsAppend(xs: seq<LogEntry>, ys: seq<LogEntry>, filters: map<string, Value>)
    ensures FilterLogs(xs + ys, filters) == FilterLogs(xs, filters) + FilterLogs(ys, filters)
  {
    if ys != [] {
      assert (xs + ys)[..|xs + ys| - 1] == xs + ys[..|ys| - 1];
      FilterLogsAppend(xs, ys[..|ys| - 1], filters);
    } else {
      assert xs + ys == xs;
    }
  }

  lemma {:induction false} FilterLogsNone(xs: seq<LogEntry>)
    ensures FilterLogs(xs, map[]) == xs
  {
    if xs != [] {
      FilterLogsNone(xs[..|xs| - 1]);
      assert xs == xs[..|xs| - 1] + [xs[|xs| - 1]];
    }
  }

  /** `self._logs[-limit:]`: the last `limit` entries, all of them for 0, and the tail after `-limit` entries for a negative limit. */
  lemma RecentEntries(logs: seq<LogEntry>, limit: int)
    ensures limit > 0 ==> PyFrom(logs, -limit) == logs[|logs| - Min(limit, |logs|)..]
    ensures limit == 0 ==> PyFrom(logs, -limit) == logs
    ensures limit < 0 ==> PyFrom(logs, -limit) == logs[Min(-limit, |logs|)..]
  {
  }

  /** The inner loop of `get_logs`: every filter is checked until one rejects the entry. */
  method EntryMatches(e: LogEntry, filters: map<string, Value>) returns (m: bool)
    ensures m == LogMatches(e, filters)
  {
    m := true;
    var pending := filters.Keys;
    while pending != {} && m
      invariant pending <= filters.Keys
      invariant m == (forall key :: key in filters && key !in pending ==> KeyMatches(e, key, filters[key]))
      decreases pending
    {
      var key :| key in pending;
      var value := filters[key];
      if IsLogAttr(key) && !LogAttrEquals(e, key, value) {
        m := false;
      } else if key in e.details && e.details[key] != value {
        m := false;
      }
      pending := pending - {key};
    }
  }

  // ---------------------------------------------------------------------------
  // search_rolls: case-insensitive substring filters on attributes

  /** `str(getattr(roll, a))`; the text of a float is left to `fmt` (Python's float repr). */
  function AttrText(r: Roll, a: Attr, fmt: real -> string): string {
    match Get(r, a)
    case Str(s) => s
    case Num(x) => fmt(x)
  }

  /** One filter of `search_rolls`: ignored unless it names an attribute of the roll. */
  predicate FilterHit(r: Roll, key: string, value: string, attrs: set<Attr>, fmt: real -> string) {
    match AttrNamed(key)
    case Some(a) => a in attrs ==> Contains(Lower(AttrText(r, a, fmt)), Lower(value))
    case None => true
  }

  predicate RollMatches(r: Roll, filters: map<string, string>, attrs: set<Attr>, fmt: real -> string) {
    forall key :: key in filters ==> FilterHit(r, key, filters[key], attrs, fmt)
  }

  /** The rolls of `rs` that pass every filter, in order. */
  function Search(rs: seq<Roll>, filters: map<string, string>, attrs: set<Attr>, fmt: real -> string): (r: seq<Roll>)
    ensures |r| <= |rs|
  {
    if rs == [] then []
    else
      var last := rs[|rs| - 1];
      Search(rs[..|rs| - 1], filters, attrs, fmt) + (if RollMatches(last, filters, attrs, fmt) then [last] else [])
  }

  lemma SearchStep(rs: seq<Roll>, i: int, filters: map<string, string>, attrs: set<Attr>, fmt: real -> string)
    requires 0 <= i < |rs|
    ensures Search(rs[..i + 1], filters, attrs, fmt) ==
      Search(rs[..i], filters, attrs, fmt) + (if RollMatches(rs[i], filters, attrs, fmt) then [rs[i]] else [])
  {
    assert rs[..i + 1][..i] == rs[..i];
  }

  lemma {:induction false} SearchMembers(rs: seq<Roll>, filters: map<string, string>, attrs: set<Attr>, fmt: real -> string, r: Roll)
    ensures r in Search(rs, filters, attrs, fmt) <==> r in rs && RollMatches(r, filters, attrs, fmt)
  {
    if rs != [] {
      SearchMembers(rs[..|rs| - 1], filters, attrs, fmt, r);
      assert rs == rs[..|rs| - 1] + [rs[|rs| - 1]];
    }
  }

  /** With no filters every roll is returned, in order. */
  lemma {:induction false} SearchNoFilters(rs: seq<Roll>, attrs: set<Attr>, fmt: real -> string)
    ensures Search(rs, map[], attrs, fmt) == rs
  {
    if rs != [] {
      SearchNoFilters(rs[..|rs| - 1], attrs, fmt);
      assert rs == rs[..|rs| - 1] + [rs[|rs| - 1]];
    }
  }

  /** Keys that name no attribute of the roll do not narrow the search. */
  lemma UnknownKeysIgnored(r: Roll, filters: map<string, string>, key: string, value: string, attrs: set<Attr>, fmt: real -> string)
    requires AttrNamed(key).None? || AttrNamed(key).value !in attrs
    ensures RollMatches(r, filters[key := value], attrs, fmt) <==> RollMatches(r, filters - {key}, attrs, fmt)
  {
    var with := filters[key := value];
    var without := filters - {key};
    assert FilterHit(r, key, value, attrs, fmt);
    if RollMatches(r, without, attrs, fmt) {
      forall k | k in with ensures FilterHit(r, k, with[k], attrs, fmt) {
        if k != key {
          assert k in without && without[k] == with[k];
        }
      }
    }
    if RollMatches(r, with, attrs, fmt) {
      forall k | k in without ensures FilterHit(r, k, without[k], attrs, fmt) {
        assert k in with && without[k] == with[k];
      }
    }
  }

  /** The inner loop of `search_rolls`. */
  method RollMatchesFilters(r: Roll, filters: map<string, string>, attrs: set<Attr>, fmt: real -> string) returns (m: bool)
    ensures m == RollMatches(r, filters, attrs, fmt)
  {
    m := true;
    var pending := filters.Keys;
    while pending != {} && m
      invariant pending <= filters.Keys
      invariant m == (forall key :: key in filters && key !in pending ==> FilterHit(r, key, filters[key], attrs, fmt))
      decreases pending
    {
      var key :| key in pending;
      var a := AttrNamed(key);
      if a.Some? && a.value in attrs {
        var attrValue := AttrText(r, a.value, fmt);
        if !Contains(Lower(attrValue), Lower(filters[key])) {
          m := false;
        }
      }
      pending := pending - {key};
    }
  }

  // ---------------------------------------------------------------------------
  // Reports of storage2.py

  /** Python truthiness of an optional string argument (None and "" are false). */
  predicate Truthy(s: Option<string>) {
    s.Some? && s.value != ""
  }

  /** `start <= date < end` in string order. */
  predicate InWindow(date: string, start: string, end: string) {
    !StrLess(date, start) && StrLess(date, end)
  }

  function Window(rs: seq<Roll>, start: string, end: string): (w: seq<Roll>)
    ensures |w| <= |rs|
  {
    if rs == [] then []
    else
      var last := rs[|rs| - 1];
      Window(rs[..|rs| - 1], start, end) + (if InWindow(last.dateReceived, start, end) then [last] else [])
  }

  lemma WindowStep(rs: seq<Roll>, i: int, start: string, end: string)
    requires 0 <= i < |rs|
    ensures Window(rs[..i + 1], start, end) ==
      Window(rs[..i], start, end) + (if InWindow(rs[i].dateReceived, start, end) then [rs[i]] else [])
  {
    assert rs[..i + 1][..i] == rs[..i];
  }

  lemma {:induction false} WindowMembers(rs: seq<Roll>, start: string, end: string, r: Roll)
    ensures r in Window(rs, start, end) <==> r in rs && InWindow(r.dateReceived, start, end)
  {
    if rs != [] {
      WindowMembers(rs[..|rs| - 1], start, end, r);
      assert rs == rs[..|rs| - 1] + [rs[|rs| - 1]];
    }
  }

  /** The rolls `get_roll_statuses_count` counts: a date window only when both dates are given. */
  function Counted(rs: seq<Roll>, start: Option<string>, end: Option<string>): seq<Roll> {
    if Truthy(start) && Truthy(end) then Window(rs, start.value, end.value) else rs
  }

  /** How many rolls of `rs` have capitalised status `k`. */
  function CountStatus(rs: seq<Roll>, k: string): nat {
    if rs == [] then 0
    else CountStatus(rs[..|rs| - 1], k) + (if Capitalize(rs[|rs| - 1].status) == k then 1 else 0)
  }

  lemma CountStatusStep(rs: seq<Roll>, r: Roll, k: string)
    ensures CountStatus(rs + [r], k) == CountStatus(rs, k) + (if Capitalize(r.status) == k then 1 else 0)
  {
    assert (rs + [r])[..|rs|] == rs;
  }

  /** `m[k] = m.get(k, 0) + 1` */
  function Bump(m: map<string, int>, k: string): map<string, int> {
    m[k := (if k in m then m[k] else 0) + 1]
  }

  /**
   * The dictionary `status_counts` of `get_roll_statuses_count` after the
   * rolls `rs`: each roll outside a given date window is skipped, every
   * other one adds one under its capitalised status.
   */
  function Tally(rs: seq<Roll>, start: Option<string>, end: Option<string>): map<string, int> {
    if rs == [] then map[]
    else
      var m := Tally(rs[..|rs| - 1], start, end);
      var r := rs[|rs| - 1];
      var k := Capitalize(r.status);
      if Skipped(r, start, end) then m
      else Bump(m, k)
  }

  /** Whether `get_roll_statuses_count` skips roll `r`: both dates are given and it falls outside them. */
  predicate Skipped(r: Roll, start: Option<string>, end: Option<string>) {
    Truthy(start) && Truthy(end) && !InWindow(r.dateReceived, start.value, end.value)
  }

  lemma CountedLast(rs: seq<Roll>, start: Option<string>, end: Option<string>)
    requires rs != []
    ensures var r := rs[|rs| - 1];
      Counted(rs, start, end) == Counted(rs[..|rs| - 1], start, end) + (if Skipped(r, start, end) then [] else [r])
  {
    if !(Truthy(start) && Truthy(end)) {
      assert rs == rs[..|rs| - 1] + [rs[|rs| - 1]];
    }
  }

  lemma TallyStep(rs: seq<Roll>, i: int, start: Option<string>, end: Option<string>)
    requires 0 <= i < |rs|
    ensures var m := Tally(rs[..i], start, end); var k := Capitalize(rs[i].status);
      Tally(rs[..i + 1], start, end) == if Skipped(rs[i], start, end) then m else Bump(m, k)
  {
    assert rs[..i + 1][..i] == rs[..i];
  }

  /** Whether `m` maps exactly the keys counted in `rs` to their counts. */
  predicate CountsOf(m: map<string, int>, rs: seq<Roll>, k: string) {
    && (k in m <==> CountStatus(rs, k) > 0)
    && (k in m ==> m[k] == CountStatus(rs, k))
  }

  lemma CountsOfAdd(m: map<string, int>, rs: seq<Roll>, r: Roll, k: string)
    requires CountsOf(m, rs, k)
    ensures var key := Capitalize(r.status);
      CountsOf(Bump(m, key), rs + [r], k)
  {
    CountStatusStep(rs, r, k);
  }

  /** Each key is a capitalised status of some counted roll, mapped to how many counted rolls have it. */
  lemma {:induction false} TallyExact(rs: seq<Roll>, start: Option<string>, end: Option<string>, k: string)
    ensures k in Tally(rs, start, end) <==> CountStatus(Counted(rs, start, end), k) > 0
    ensures k in Tally(rs, start, end) ==> Tally(rs, start, end)[k] == CountStatus(Counted(rs, start, end), k)
    decreases |rs|
  {
    if rs != [] {
      var init := rs[..|rs| - 1];
      var r := rs[|rs| - 1];
      TallyExact(init, start, end, k);
      CountedLast(rs, start, end);
      var before := Counted(init, start, end);
      assert CountsOf(Tally(init, start, end), before, k);
      if Skipped(r, start, end) {
        assert before + [] == before;
      } else {
        CountsOfAdd(Tally(init, start, end), before, r, k);
      }
      assert CountsOf(Tally(rs, start, end), Counted(rs, start, end), k);
    }
  }

  /** The sum of the values of a map. */
  ghost function SumValues(m: map<string, int>): int
    decreases |m|
  {
    if m == map[] then 0
    else
      var k :| k in m;
      m[k] + SumValues(m - {k})
  }

  lemma {:induction false} SumValuesRemove(m: map<string, int>, k: string)
    requires k in m
    ensures SumValues(m) == m[k] + SumValues(m - {k})
    decreases |m|
  {
    var j :| j in m && SumValues(m) == m[j] + SumValues(m - {j});
    if j != k {
      var mj := m - {j};
      var mk := m - {k};
      assert |mj| < |m|;
      SumValuesRemove(mj, k);
      assert mj - {k} == mk - {j};
      assert |mk| < |m|;
      SumValuesRemove(mk, j);
    }
  }

  lemma SumValuesAdd(m: map<string, int>, k: string)
    ensures SumValues(Bump(m, k)) == SumValues(m) + 1
  {
    var m' := Bump(m, k);
    SumValuesRemove(m', k);
    if k in m {
      SumValuesRemove(m, k);
      assert m' - {k} == m - {k};
    } else {
      assert m' - {k} == m;
    }
  }

  /** The counts add up to the number of rolls counted. */
  lemma {:induction false} TallyTotal(rs: seq<Roll>, start: Option<string>, end: Option<string>)
    ensures SumValues(Tally(rs, start, end)) == |Counted(rs, start, end)|
    decreases |rs|
  {
    if rs != [] {
      var init := rs[..|rs| - 1];
      var r := rs[|rs| - 1];
      TallyTotal(init, start, end);
      CountedLast(rs, start, end);
      if !Skipped(r, start, end) {
        var key := Capitalize(r.status);
        SumValuesAdd(Tally(init, start, end), key);
      }
    }
  }

  /** One row of `get_rolls_by_date_range` (the length is kept as a number, not formatted). */
  datatype DateRow = DateRow(date: string, sku: string, rollType: string, currentLength: real, status: string)

  function RowOf(r: Roll): DateRow {
    DateRow(r.dateReceived, r.sku, if r.typeOfRoll != "" then r.typeOfRoll else "Standard", r.currentLength, Capitalize(r.status))
  }

  function RowDate(row: DateRow): string {
    row.date
  }

  function Rows(rs: seq<Roll>): (rows: seq<DateRow>)
    ensures |rows| == |rs|
    ensures forall i :: 0 <= i < |rs| ==> rows[i] == RowOf(rs[i])
  {
    if rs == [] then [] else Rows(rs[..|rs| - 1]) + [RowOf(rs[|rs| - 1])]
  }

  lemma RowsStep(rs: seq<Roll>, r: Roll)
    ensures Rows(rs + [r]) == Rows(rs) + [RowOf(r)]
  {
    assert (rs + [r])[..|rs|] == rs;
  }

  /** `row` is the row of a roll of `rs` received in the window. */
  predicate RowDescribes(row: DateRow, rs: seq<Roll>, start: string, end: string) {
    exists r :: r in rs && InWindow(r.dateReceived, start, end) && row == RowOf(r)
  }

  /**
   * The rows of the report: one per roll received in the window, newest
   * date first; every row describes such a roll, typed "Standard" when the
   * roll has no type, and every such roll has its row.
   */
  lemma DateRangeReport(rs: seq<Roll>, start: string, end: string)
    ensures |SortDesc(Rows(Window(rs, start, end)), RowDate)| == |Window(rs, start, end)|
    ensures SortedDesc(SortDesc(Rows(Window(rs, start, end)), RowDate), RowDate)
    ensures forall row :: row in SortDesc(Rows(Window(rs, start, end)), RowDate) ==> RowDescribes(row, rs, start, end)
    ensures forall r :: r in rs && InWindow(r.dateReceived, start, end) ==>
      RowOf(r) in SortDesc(Rows(Window(rs, start, end)), RowDate)
  {
    var w := Window(rs, start, end);
    SortDescSorted(Rows(w), RowDate);
    forall row | row in SortDesc(Rows(w), RowDate)
      ensures RowDescribes(row, rs, start, end)
    {
      SortDescMembers(Rows(w), RowDate, row);
      var i :| 0 <= i < |Rows(w)| && Rows(w)[i] == row;
      WindowMembers(rs, start, end, w[i]);
    }
    forall r | r in rs && InWindow(r.dateReceived, start, end)
      ensures RowOf(r) in SortDesc(Rows(w), RowDate)
    {
      WindowMembers(rs, start, end, r);
      var i :| 0 <= i < |w| && w[i] == r;
      assert Rows(w)[i] == RowOf(r);
      SortDescMembers(Rows(w), RowDate, RowOf(r));
    }
  }

  // ---------------------------------------------------------------------------
  // Dictionaries in insertion order

  /** `d.values()` for a dictionary whose keys, in insertion order, are `order`. */
  function InOrder<K, V>(order: seq<K>, d: map<K, V>): (vs: seq<V>)
    requires forall k :: k in order ==> k in d
    ensures |vs| == |order|
    ensures forall i :: 0 <= i < |order| ==> vs[i] == d[order[i]]
  {
    if order == [] then [] else InOrder(order[..|order| - 1], d) + [d[order[|order| - 1]]]
  }

  lemma {:induction false} DistinctCard<K>(s: seq<K>)
    requires Distinct(s)
    ensures |set k | k in s| == |s|
  {
    if s != [] {
      var init := s[..|s| - 1];
      DistinctCard(init);
      assert (set k | k in s) == (set k | k in init) + {s[|s| - 1]};
      assert s[|s| - 1] !in init;
    }
  }

  // ---------------------------------------------------------------------------

  class StorageManager {
    /** True for the storage2.py variant (nineteen Roll attributes and the reporting methods). */
    const extended: bool
    var rolls: map<string, Roll>
    var rollOrder: seq<string>
    var products: map<string, MasterProduct>
    var productOrder: seq<string>
    var logs: seq<LogEntry>

    /** The attributes `hasattr` finds on this variant's Roll. */
    function RollAttrs(): set<Attr> {
      if extended then AllAttrs else BaseAttrs
    }

    /** The dictionaries' keys in insertion order, and products stored under their own SKU. */
    ghost predicate Valid()
      reads this
    {
      && Distinct(rollOrder)
      && (forall id :: id in rollOrder <==> id in rolls)
      && Distinct(productOrder)
      && (forall sku :: sku in productOrder <==> sku in products)
      && (forall sku :: sku in products ==> products[sku].sku == sku)
    }

    /** The rolls in the order `self._rolls.values()` yields them. */
    function Rolls(): (rs: seq<Roll>)
      reads this
      requires Valid()
      ensures forall r :: r in rs <==> exists id :: id in rolls && rolls[id] == r
    {
      var rs := InOrder(rollOrder, rolls);
      assert forall id :: id in rolls ==> rs[IndexOf(rollOrder, id)] == rolls[id];
      rs
    }

    /** An empty store (loading the JSON files is not modelled). */
    constructor (extended: bool)
      ensures Valid() && this.extended == extended
      ensures rolls == map[] && products == map[] && logs == []
    {
      this.extended := extended;
      rolls, rollOrder := map[], [];
      products, productOrder := map[], [];
      logs := [];
    }

    /** `add_log`: appends one entry at the end and returns its id. */
    method AddLog(action: string, rollId: string, details: map<string, Value>, user: string, logId: string, timestamp: string)
      returns (id: string)
      modifies this`logs
      ensures id == logId
      ensures logs == old(logs) + [LogEntry(logId, timestamp, action, rollId, details, user)]
    {
      logs := logs + [LogEntry(logId, timestamp, action, rollId, details, user)];
      id := logId;
    }

    /** `add_roll` */
    method AddRoll(roll: Roll, logId: string, timestamp: string) returns (ok: bool)
      requires Valid()
      modifies this`rolls, this`rollOrder, this`logs
      ensures Valid()
      ensures ok <==> roll.rollId !in old(rolls)
      ensures ok ==> rolls == old(rolls)[roll.rollId := roll] && rollOrder == old(rollOrder) + [roll.rollId]
      ensures ok ==> GetRoll(roll.rollId) == Some(roll)
      ensures ok ==> logs == old(logs) + [LogEntry(logId, timestamp, "roll_created", roll.rollId, CreatedDetails(roll), "system")]
      ensures !ok ==> rolls == old(rolls) && rollOrder == old(rollOrder) && logs == old(logs)
    {
      if roll.rollId in rolls {
        return false;
      }
      rolls := rolls[roll.rollId := roll];
      rollOrder := rollOrder + [roll.rollId];
      var _ := AddLog("roll_created", roll.rollId, CreatedDetails(roll), "system", logId, timestamp);
      ok := true;
    }

    /** `get_roll` */
    function GetRoll(id: string): (r: Option<Roll>)
      reads this
      ensures r.Some? <==> id in rolls
      ensures r.Some? ==> r.value == rolls[id]
    {
      if id in rolls then Some(rolls[id]) else None
    }

    /** `get_roll_by_id` of storage2.py: an alias of `get_roll`. */
    function GetRollById(id: string): (r: Option<Roll>)
      reads this
      requires extended
      ensures r == GetRoll(id)
    {
      GetRoll(id)
    }

    /** `update_roll`: `setattr` of every keyword that names a Roll attribute; no log entry. */
    method UpdateRoll(id: string, updates: seq<(string, Value)>) returns (ok: bool)
      requires Valid()
      modifies this`rolls
      ensures Valid()
      ensures ok <==> id in old(rolls)
      ensures ok ==> rolls == old(rolls)[id := SetAttrs(old(rolls)[id], updates, RollAttrs())]
      ensures !ok ==> rolls == old(rolls)
    {
      if id !in rolls {
        return false;
      }
      var roll := ApplyUpdates(rolls[id], updates, RollAttrs());
      rolls := rolls[id := roll];
      ok := true;
    }

    /** `cut_roll` */
    method CutRoll(id: string, cut: real, logId: string, timestamp: string) returns (ok: bool)
      requires Valid()
      modifies this`rolls, this`logs
      ensures Valid()
      ensures ok <==> id in old(rolls) && CutAllowed(old(rolls)[id], cut)
      ensures ok ==> rolls == old(rolls)[id := Cut(old(rolls)[id], cut)]
      ensures ok ==> logs == old(logs) + [LogEntry(logId, timestamp, "roll_cut", id, CutDetails(cut, rolls[id]), "system")]
      ensures !ok ==> rolls == old(rolls) && logs == old(logs)
    {
      if id !in rolls {
        return false;
      }
      var roll := rolls[id];
      if cut <= 0.0 || cut > roll.currentLength {
        return false;
      }
      roll := roll.(currentLength := roll.currentLength - cut);
      if roll.currentLength <= 0.0 {
        roll := roll.(status := "used");
      }
      rolls := rolls[id := roll];
      var _ := AddLog("roll_cut", id, CutDetails(cut, roll), "system", logId, timestamp);
      ok := true;
    }

    /** `add_master_product` */
    method AddMasterProduct(product: MasterProduct, logId: string, timestamp: string) returns (ok: bool)
      requires Valid()
      modifies this`products, this`productOrder, this`logs
      ensures Valid()
      ensures ok <==> product.sku !in old(products)
      ensures ok ==> products == old(products)[product.sku := product] && productOrder == old(productOrder) + [product.sku]
      ensures ok ==> GetMasterProduct(product.sku) == Some(product)
      ensures ok ==> logs == old(logs) + [LogEntry(logId, timestamp, "master_product_added", "", ProductDetails(product), "system")]
      ensures !ok ==> products == old(products) && productOrder == old(productOrder) && logs == old(logs)
    {
      if product.sku in products {
        return false;
      }
      products := products[product.sku := product];
      productOrder := productOrder + [product.sku];
      var _ := AddLog("master_product_added", "", ProductDetails(product), "system", logId, timestamp);
      ok := true;
    }

    /** `get_master_product` */
    function GetMasterProduct(sku: string): (p: Option<MasterProduct>)
      reads this
      requires Valid()
      ensures p.Some? <==> sku in products
      ensures p.Some? ==> p.value == products[sku] && p.value.sku == sku
    {
      if sku in products then Some(products[sku]) else None
    }

    /** `get_all_master_products`: every stored product exactly once, in insertion order. */
    function GetAllMasterProducts(): (ps: seq<MasterProduct>)
      reads this
      requires Valid()
      ensures |ps| == |products|
      ensures forall p :: p in ps <==> p in products.Values
      ensures forall i, j :: 0 <= i < j < |ps| ==> ps[i].sku != ps[j].sku
      ensures ps == InOrder(productOrder, products)
    {
      var ps := InOrder(productOrder, products);
      DistinctCard(productOrder);
      assert (set k | k in productOrder) == products.Keys;
      assert forall sku :: sku in products ==> ps[IndexOf(productOrder, sku)] == products[sku];
      ps
    }

    /** `get_logs`: the last `limit` entries, oldest first, that pass every filter. */
    method GetLogs(limit: int, filters: map<string, Value>) returns (result: seq<LogEntry>)
      ensures result == FilterLogs(PyFrom(logs, -limit), filters)
    {
      var recent := PyFrom(logs, -limit);
      if filters == map[] {
        FilterLogsNone(recent);
        return recent;
      }
      result := [];
      var i := 0;
      while i < |recent|
        invariant 0 <= i <= |recent|
        invariant result == FilterLogs(recent[..i], filters)
      {
        var m := EntryMatches(recent[i], filters);
        if m {
          result := result + [recent[i]];
        }
        assert recent[..i + 1][..i] == recent[..i];
        i := i + 1;
      }
      assert recent[..|recent|] == recent;
    }

    /** `search_rolls` */
    method SearchRolls(filters: map<string, string>, fmt: real -> string) returns (result: seq<Roll>)
      requires Valid()
      ensures result == Search(Rolls(), filters, RollAttrs(), fmt)
    {
      var all := InOrder(rollOrder, rolls);
      result := SearchAll(all, filters, RollAttrs(), fmt);
    }

    /** `get_roll_statuses_count` of storage2.py */
    method GetRollStatusesCount(startDate: Option<string>, endDate: Option<string>) returns (counts: map<string, int>)
      requires Valid() && extended
      ensures counts == Tally(Rolls(), startDate, endDate)
    {
      var all := InOrder(rollOrder, rolls);
      counts := CountStatuses(all, startDate, endDate);
    }

    /** `get_rolls_by_date_range` of storage2.py */
    method GetRollsByDateRange(startDate: string, endDate: string) returns (rows: seq<DateRow>)
      requires Valid() && extended
      ensures rows == SortDesc(Rows(Window(Rolls(), startDate, endDate)), RowDate)
    {
      var all := InOrder(rollOrder, rolls);
      var results := RowsInWindow(all, startDate, endDate);
      rows := SortDesc(results, RowDate);
    }
  }

  /** The `setattr` loop of `update_roll`, over the keyword arguments in call order. */
  method ApplyUpdates(roll: Roll, updates: seq<(string, Value)>, attrs: set<Attr>) returns (patched: Roll)
    ensures patched == SetAttrs(roll, updates, attrs)
  {
    patched := roll;
    for i := 0 to |updates|
      invariant patched == SetAttrs(roll, updates[..i], attrs)
    {
      var (key, value) := updates[i];
      var a := AttrNamed(key);
      if a.Some? && a.value in attrs {
        patched := Patched(patched, map[a.value := value]);
      }
      assert updates[..i + 1][..i] == updates[..i];
    }
    assert updates[..|updates|] == updates;
  }

  /** The loop of `search_rolls` over the rolls in order. */
  method SearchAll(rs: seq<Roll>, filters: map<string, string>, attrs: set<Attr>, fmt: real -> string) returns (result: seq<Roll>)
    ensures result == Search(rs, filters, attrs, fmt)
  {
    result := [];
    var i := 0;
    while i < |rs|
      invariant 0 <= i <= |rs|
      invariant result == Search(rs[..i], filters, attrs, fmt)
    {
      var roll := rs[i];
      var m := RollMatchesFilters(roll, filters, attrs, fmt);
      SearchStep(rs, i, filters, attrs, fmt);
      if m {
        result := result + [roll];
      }
      i := i + 1;
    }
    assert rs[..|rs|] == rs;
  }

  /** The loop of `get_rolls_by_date_range` collecting the rows of the rolls in the window. */
  method RowsInWindow(rs: seq<Roll>, startDate: string, endDate: string) returns (results: seq<DateRow>)
    ensures results == Rows(Window(rs, startDate, endDate))
  {
    results := [];
    var i := 0;
    while i < |rs|
      invariant 0 <= i <= |rs|
      invariant results == Rows(Window(rs[..i], startDate, endDate))
    {
      var roll := rs[i];
      WindowStep(rs, i, startDate, endDate);
      if !StrLess(roll.dateReceived, startDate) && StrLess(roll.dateReceived, endDate) {
        RowsStep(Window(rs[..i], startDate, endDate), roll);
        results := results + [RowOf(roll)];
      }
      i := i + 1;
    }
    assert rs[..|rs|] == rs;
  }

  /** The counting loop of `get_roll_statuses_count`. */
  method CountStatuses(rolls: seq<Roll>, startDate: Option<string>, endDate: Option<string>) returns (counts: map<string, int>)
    ensures counts == Tally(rolls, startDate, endDate)
  {
    counts := map[];
    var i := 0;
    while i < |rolls|
      invariant 0 <= i <= |rolls|
      invariant counts == Tally(rolls[..i], startDate, endDate)
    {
      var roll := rolls[i];
      TallyStep(rolls, i, startDate, endDate);
      if Truthy(startDate) && Truthy(endDate) && (StrLess(roll.dateReceived, startDate.value) || !StrLess(roll.dateReceived, endDate.value)) {
        // outside the date window: not counted
        assert Skipped(roll, startDate, endDate);
      } else {
        assert !Skipped(roll, startDate, endDate);
        var status := Capitalize(roll.status);
        counts := Bump(counts, status);
      }
      i := i + 1;
    }
    assert rolls[..|rolls|] == rolls;
  }

  /** Position of `x` in a sequence that contains it. */
  function IndexOf<K(==)>(s: seq<K>, x: K): (i: nat)
    requires x in s
    ensures i < |s| && s[i] == x
  {
    if s[|s| - 1] == x then |s| - 1 else IndexOf(s[..|s| - 1], x)
  }
}
