/**
 * The dispatch (issue-out) workflow of gui/tabs/dispatch_tab.py: a scanned
 * roll id is looked up, an active roll is offered for dispatch through a
 * quantity dialog, and the dispatched length is taken off the roll, which
 * becomes "depleted" once nothing is left. The widgets, message boxes and
 * the completion signal are not modelled; the operator's dialog input is a
 * parameter (None when the dialog is cancelled).
 */
module Dispatch {
  import opened Wrappers
  import opened Text
  import opened Sorting
  import opened Records
  import opened Storage

  function Max(a: real, b: real): real {
    if a >= b then a else b
  }

  /** The smallest length the quantity dialog accepts. */
  const MinDispatch: real := 0.01

  /**
   * The value of the quantity spin box: `setRange(0.01, available)` keeps
   * any entry within range, and a maximum below the minimum leaves the
   * minimum as the only legal value.
   */
  function SpinBoxValue(requested: real, available: real): (v: real)
    ensures MinDispatch <= v <= Max(available, MinDispatch)
    ensures MinDispatch <= requested <= available ==> v == requested
  {
    if requested < MinDispatch then MinDispatch
    else if requested > Max(available, MinDispatch) then Max(available, MinDispatch)
    else requested
  }

  /** The roll after `dispatch_roll` has taken `len` off it. */
  function Dispatched(r: Roll, len: real): (d: Roll)
    ensures d == r.(currentLength := d.currentLength, status := d.status)
  {
    var newLength := r.currentLength - len;
    if newLength <= 0.0 then r.(currentLength := 0.0, status := "depleted")
    else r.(currentLength := newLength)
  }

  /**
   * Length is conserved: while something is left, what was dispatched plus
   * what remains is what the roll held and the status is kept; once nothing
   * is left the roll is depleted with a length of zero, never negative.
   */
  lemma DispatchConserves(r: Roll, len: real)
    ensures Dispatched(r, len).currentLength >= 0.0
    ensures r.currentLength - len > 0.0 ==>
      len + Dispatched(r, len).currentLength == r.currentLength && Dispatched(r, len).status == r.status
    ensures r.currentLength - len <= 0.0 ==>
      Dispatched(r, len).currentLength == 0.0 && Dispatched(r, len).status == "depleted"
  {
  }

  /** Dispatching the whole length the dialog offers by default depletes the roll. */
  lemma DispatchAllDepletes(r: Roll)
    ensures Dispatched(r, SpinBoxValue(r.currentLength, r.currentLength)).status == "depleted"
    ensures Dispatched(r, SpinBoxValue(r.currentLength, r.currentLength)).currentLength == 0.0
  {
  }

  /** A dispatch of less than the roll holds takes exactly that much off and keeps the roll's status. */
  lemma PartialDispatch(r: Roll, requested: real)
    requires MinDispatch <= requested < r.currentLength
    ensures Dispatched(r, SpinBoxValue(requested, r.currentLength)).currentLength == r.currentLength - requested
    ensures Dispatched(r, SpinBoxValue(requested, r.currentLength)).status == r.status
  {
  }

  /** The details of a "dispatch" log entry. */
  function DispatchDetails(d: Roll, len: real): map<string, Value> {
    map["sku" := Str(d.sku), "lot" := Str(d.lot), "dispatch_length" := Num(len),
        "remaining_length" := Num(d.currentLength), "status" := Str(d.status)]
  }

  /** The keyword arguments `dispatch_roll` passes to `update_roll`. */
  function Reapplied(d: Roll): seq<(string, Value)> {
    [("current_length", Num(d.currentLength)), ("status", Str(d.status))]
  }

  lemma KeepLength(d: Roll)
    ensures Patched(d, map[CurrentLength := Num(d.currentLength)]) == d
  {
  }

  lemma KeepStatus(d: Roll)
    ensures Patched(d, map[Status := Str(d.status)]) == d
  {
  }

  lemma SetOwnLength(d: Roll, attrs: set<Attr>)
    ensures SetAttr(d, "current_length", Num(d.currentLength), attrs) == d
  {
    AttrNamedName(CurrentLength);
    KeepLength(d);
  }

  lemma SetOwnStatus(d: Roll, attrs: set<Attr>)
    ensures SetAttr(d, "status", Str(d.status), attrs) == d
  {
    AttrNamedName(Status);
    KeepStatus(d);
  }

  /** Writing back the roll's own length and status through `update_roll` changes nothing. */
  lemma ReapplyIsNoop(d: Roll, attrs: set<Attr>)
    ensures SetAttrs(d, Reapplied(d), attrs) == d
  {
    var kvs := Reapplied(d);
    assert kvs[..1][..0] == [];
    calc {
      SetAttrs(d, kvs[..1], attrs);
      SetAttr(SetAttrs(d, [], attrs), "current_length", Num(d.currentLength), attrs);
      { SetOwnLength(d, attrs); }
      d;
    }
    SetOwnStatus(d, attrs);
  }

  /**
   * `dispatch_roll`: the roll object returned by `get_roll_by_id` is the
   * one held by the store, so the new length and status are written into
   * the store directly; they are then passed to `update_roll` under the
   * roll's own id, and a "dispatch" entry is logged.
   */
  method DispatchRoll(s: StorageManager, id: string, len: real, logId: string, timestamp: string) returns (d: Roll)
    requires s.Valid() && id in s.rolls
    modifies s`rolls, s`logs
    ensures s.Valid()
    ensures d == Dispatched(old(s.rolls)[id], len)
    ensures var stored := old(s.rolls)[id := d];
      s.rolls == if d.rollId in stored then stored[d.rollId := SetAttrs(stored[d.rollId], Reapplied(d), s.RollAttrs())] else stored
    ensures s.logs == old(s.logs) + [LogEntry(logId, timestamp, "dispatch", d.rollId, DispatchDetails(d, len), "system")]
  {
    var roll := s.rolls[id];
    var newLength := roll.currentLength - len;
    roll := roll.(currentLength := newLength);
    if newLength <= 0.0 {
      roll := roll.(status := "depleted", currentLength := 0.0);
    }
    s.rolls := s.rolls[id := roll];
    var _ := s.UpdateRoll(roll.rollId, Reapplied(roll));
    var _ := s.AddLog("dispatch", roll.rollId, DispatchDetails(roll, len), "system", logId, timestamp);
    d := roll;
  }

  /**
   * When the roll is stored under its own id, as `add_roll` stores it, the
   * dispatch leaves exactly the dispatched roll in its place and touches no
   * other roll.
   */
  lemma DispatchStoresRoll(rolls: map<string, Roll>, id: string, len: real, attrs: set<Attr>)
    requires id in rolls && rolls[id].rollId == id
    ensures var d := Dispatched(rolls[id], len);
      var stored := rolls[id := d];
      (if d.rollId in stored then stored[d.rollId := SetAttrs(stored[d.rollId], Reapplied(d), attrs)] else stored)
        == rolls[id := d]
  {
    ReapplyIsNoop(Dispatched(rolls[id], len), attrs);
  }

  /** What a scan leads to. */
  datatype Outcome =
    | EmptyInput
    | LookupFailed(id: string)  // the store has no `get_roll_by_id`: AttributeError
    | NotFound(id: string)
    | NotActive(id: string, status: string)
    | Cancelled(id: string)
    | Done(id: string, length: real, roll: Roll)

  /** The outcome of scanning `input` against the stored rolls, the dialog answering `requested`. */
  function ScanOutcome(rolls: map<string, Roll>, input: string, requested: Option<real>): Outcome {
    var id := Strip(input);
    if id == [] then EmptyInput
    else if id !in rolls then NotFound(id)
    else if rolls[id].status != "active" then NotActive(id, rolls[id].status)
    else if requested.None? then Cancelled(id)
    else
      var len := SpinBoxValue(requested.value, rolls[id].currentLength);
      Done(id, len, Dispatched(rolls[id], len))
  }

  /**
   * A scan dispatches exactly when the stripped input names a stored,
   * active roll and the dialog is accepted; it then takes the dialog's
   * length off that roll.
   */
  lemma ScanDispatches(rolls: map<string, Roll>, input: string, requested: Option<real>)
    ensures ScanOutcome(rolls, input, requested).Done? <==>
      Strip(input) != [] && Strip(input) in rolls && rolls[Strip(input)].status == "active" && requested.Some?
    ensures ScanOutcome(rolls, input, requested).Done? ==>
      var o := ScanOutcome(rolls, input, requested);
      o.id == Strip(input) && MinDispatch <= o.length && o.roll == Dispatched(rolls[o.id], o.length)
  {
  }

  /** Blank input, an unknown id and a roll that is not active are each reported, before any dialog. */
  lemma ScanRejects(rolls: map<string, Roll>, input: string, requested: Option<real>)
    ensures ScanOutcome(rolls, input, requested).EmptyInput? <==> Strip(input) == []
    ensures ScanOutcome(rolls, input, requested).NotFound? <==> Strip(input) != [] && Strip(input) !in rolls
    ensures ScanOutcome(rolls, input, requested).NotActive? <==>
      Strip(input) != [] && Strip(input) in rolls && rolls[Strip(input)].status != "active"
    ensures ScanOutcome(rolls, input, requested).Cancelled? <==>
      Strip(input) != [] && Strip(input) in rolls && rolls[Strip(input)].status == "active" && requested.None?
  {
  }

  /** Surrounding whitespace from the scanner does not change what a scan does. */
  lemma ScanIgnoresPadding(rolls: map<string, Roll>, input: string, requested: Option<real>)
    ensures ScanOutcome(rolls, input, requested) == ScanOutcome(rolls, Strip(input), requested)
  {
    StripIdempotent(input);
  }

  /**
   * `process_scan` as written: the lookup calls `get_roll_by_id`, which
   * only storage2.py defines, so on the storage.py store every non-blank
   * scan raises AttributeError before anything is looked up.
   */
  function ScanOutcomeAsWritten(extended: bool, rolls: map<string, Roll>, input: string, requested: Option<real>): Outcome {
    if !extended && Strip(input) != [] then LookupFailed(Strip(input))
    else ScanOutcome(rolls, input, requested)
  }

  /**
   * On the storage.py store a scan never dispatches, however the roll and
   * the dialog stand; a scan that the lookup through `get_roll` would have
   * dispatched fails instead.
   */
  lemma BaseStoreNeverDispatches(rolls: map<string, Roll>, input: string, requested: Option<real>)
    ensures var o := ScanOutcomeAsWritten(false, rolls, input, requested);
      !o.Done? && (o.EmptyInput? <==> Strip(input) == []) && (o.LookupFailed? <==> Strip(input) != [])
    ensures ScanOutcome(rolls, input, requested).Done? ==>
      ScanOutcomeAsWritten(false, rolls, input, requested) == LookupFailed(Strip(input))
  {
  }

  /** On the storage2.py store the lookup resolves and the scan is the corrected one. */
  lemma ExtendedStoreScans(rolls: map<string, Roll>, input: string, requested: Option<real>)
    ensures ScanOutcomeAsWritten(true, rolls, input, requested) == ScanOutcome(rolls, input, requested)
    ensures !ScanOutcomeAsWritten(true, rolls, input, requested).LookupFailed?
  {
  }

  /**
   * `process_scan` followed, when the dialog is accepted, by
   * `dispatch_roll`, with the lookup made through `get_roll`, which both
   * stores define. `requested` is the operator's entry in the quantity
   * dialog, None when it is cancelled.
   */
  method ScanAndDispatch(s: StorageManager, input: string, requested: Option<real>, logId: string, timestamp: string)
    returns (outcome: Outcome)
    requires s.Valid()
    modifies s`rolls, s`logs
    ensures s.Valid()
    ensures outcome == ScanOutcome(old(s.rolls), input, requested)
    ensures !outcome.Done? ==> s.rolls == old(s.rolls) && s.logs == old(s.logs)
    ensures outcome.Done? ==>
      var d := outcome.roll;
      var stored := old(s.rolls)[outcome.id := d];
      s.rolls == if d.rollId in stored then stored[d.rollId := SetAttrs(stored[d.rollId], Reapplied(d), s.RollAttrs())] else stored
    ensures outcome.Done? && old(s.rolls)[outcome.id].rollId == outcome.id ==>
      s.rolls == old(s.rolls)[outcome.id := outcome.roll]
    ensures outcome.Done? ==>
      s.logs == old(s.logs) + [LogEntry(logId, timestamp, "dispatch", outcome.roll.rollId, DispatchDetails(outcome.roll, outcome.length), "system")]
  {
    var rollId := Strip(input);
    if rollId == [] {
      return EmptyInput;
    }
    var roll := s.GetRoll(rollId);
    if roll.None? {
      return NotFound(rollId);
    }
    if roll.value.status != "active" {
      return NotActive(rollId, roll.value.status);
    }
    if requested.None? {
      return Cancelled(rollId);
    }
    var len := SpinBoxValue(requested.value, roll.value.currentLength);
    var d := DispatchRoll(s, rollId, len, logId, timestamp);
    if old(s.rolls)[rollId].rollId == rollId {
      DispatchStoresRoll(old(s.rolls), rollId, len, s.RollAttrs());
    }
    outcome := Done(rollId, len, d);
  }

  /**
   * `process_scan` as written, on either store: the storage.py store
   * fails at the lookup and changes nothing; the storage2.py store looks
   * the roll up with `get_roll_by_id` and goes on as `ScanAndDispatch`.
   */
  method ProcessScan(s: StorageManager, input: string, requested: Option<real>, logId: string, timestamp: string)
    returns (outcome: Outcome)
    requires s.Valid()
    modifies s`rolls, s`logs
    ensures s.Valid()
    ensures outcome == ScanOutcomeAsWritten(s.extended, old(s.rolls), input, requested)
    ensures !outcome.Done? ==> s.rolls == old(s.rolls) && s.logs == old(s.logs)
    ensures outcome.Done? ==>
      var d := outcome.roll;
      var stored := old(s.rolls)[outcome.id := d];
      s.rolls == if d.rollId in stored then stored[d.rollId := SetAttrs(stored[d.rollId], Reapplied(d), s.RollAttrs())] else stored
    ensures outcome.Done? && old(s.rolls)[outcome.id].rollId == outcome.id ==>
      s.rolls == old(s.rolls)[outcome.id := outcome.roll]
    ensures outcome.Done? ==>
      s.logs == old(s.logs) + [LogEntry(logId, timestamp, "dispatch", outcome.roll.rollId, DispatchDetails(outcome.roll, outcome.length), "system")]
  {
    var rollId := Strip(input);
    if rollId == [] {
      return EmptyInput;
    }
    if !s.extended {
      return LookupFailed(rollId);
    }
    var _ := s.GetRollById(rollId);
    outcome := ScanAndDispatch(s, input, requested, logId, timestamp);
  }

  // ---------------------------------------------------------------------------
  // load_recent_history

  /** `[log for log in logs if log.action == 'dispatch']` */
  function Dispatches(xs: seq<LogEntry>): (ds: seq<LogEntry>)
    ensures |ds| <= |xs|
  {
    if xs == [] then []
    else Dispatches(xs[..|xs| - 1]) + (if xs[|xs| - 1].action == "dispatch" then [xs[|xs| - 1]] else [])
  }

  lemma {:induction false} DispatchesMembers(xs: seq<LogEntry>, e: LogEntry)
    ensures e in Dispatches(xs) <==> e in xs && e.action == "dispatch"
  {
    if xs != [] {
      DispatchesMembers(xs[..|xs| - 1], e);
      assert xs == xs[..|xs| - 1] + [xs[|xs| - 1]];
    }
  }

  /** The table of `load_recent_history`: dispatch entries among the last 100 log entries, newest first, at most 20. */
  method LoadRecentHistory(s: StorageManager) returns (rows: seq<LogEntry>)
    ensures rows == PyUpTo(SortDesc(Dispatches(PyFrom(s.logs, -100)), Timestamp), 20)
  {
    var logs := s.GetLogs(100, map[]);
    FilterLogsNone(PyFrom(s.logs, -100));
    var dispatchLogs := Dispatches(logs);
    dispatchLogs := SortDesc(dispatchLogs, Timestamp);
    rows := PyUpTo(dispatchLogs, 20);
  }

  /**
   * The history shows min(20, n) of the n dispatch entries among the last
   * 100 log entries, newest first, each taken from them (as often as it
   * occurs there at most), and no entry left out is newer than the last
   * one shown; with 20 or fewer every one of them is shown.
   */
  lemma RecentHistoryShape(logs: seq<LogEntry>)
    ensures var ds := Dispatches(PyFrom(logs, -100));
      var rows := PyUpTo(SortDesc(ds, Timestamp), 20);
      && |rows| == Min(20, |ds|)
      && SortedDesc(rows, Timestamp)
      && multiset(rows) <= multiset(ds)
      && (|ds| <= 20 ==> multiset(rows) == multiset(ds))
      && (rows != [] ==> forall e :: e in multiset(ds) - multiset(rows) ==> !StrLess(Timestamp(rows[|rows| - 1]), Timestamp(e)))
  {
    SortDescTop(Dispatches(PyFrom(logs, -100)), Timestamp, 20);
    SortDescTopRest(Dispatches(PyFrom(logs, -100)), Timestamp, 20);
  }

  /** Every entry of the history is a dispatch entry among the last 100 log entries. */
  lemma RecentHistoryEntries(logs: seq<LogEntry>)
    ensures forall e :: e in PyUpTo(SortDesc(Dispatches(PyFrom(logs, -100)), Timestamp), 20) ==>
      e.action == "dispatch" && e in logs[|logs| - Min(100, |logs|)..]
  {
    var recent := PyFrom(logs, -100);
    var ds := Dispatches(recent);
    var sorted := SortDesc(ds, Timestamp);
    RecentEntries(logs, 100);
    forall e | e in PyUpTo(sorted, 20) ensures e.action == "dispatch" && e in logs[|logs| - Min(100, |logs|)..] {
      assert e in sorted;
      SortDescMembers(ds, Timestamp, e);
      DispatchesMembers(recent, e);
    }
  }
}
