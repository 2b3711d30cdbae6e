# Roll-ID inventory core in Dafny

Roll-ID is a desktop inventory system for rolls of fabric:
- rolls are received, cut and dispatched;
- every change is written to an audit log;
- rolls get sequential identifiers such as `R000042`;
- settings come from a JSON file;
- users sign in with a role.

This project models the core of that system and proves properties of the model:

- **Storage.StorageManager.** The store of `storage.py`, and of the extended `storage2.py` when `extended` is set. Rolls and master products are kept in insertion-ordered dictionaries beside an append-only log. The model covers adding rolls, updating them by keyword, cutting them, filtering the log, searching rolls, counting statuses and the date-range report.
- **Records.** The three records of the store, and attribute access by name (`hasattr`/`getattr`/`setattr`, `Roll.from_dict`).
- **RollIds.** The identifier generator: the largest `R<number>` suffix plus one, padded to six digits, `int()` parsing, batches and validation.
- **Dispatch.** The dispatch screen: the quantity spin box, the scan-and-dispatch flow with its four rejection paths and the failing lookup on the `storage.py` store, the update of the stored roll, the "dispatch" log entry, and the recent-history list.
- **LogsView.** The log screen's filters (date window, action, user, free-text search), the newest-first order, and the truncation of long details.
- **Configuration.** The settings: the recursive merge of a user's file over the defaults, and the dot-path `get`/`set`.
- **Auth.** The user table: password-hash checks, sign-in and sign-out, adding and deleting users, password changes and role changes.
- **LabelPreview** and **LabelGenerator.** The greedy word wrap of the label preview, and the `...` truncation of label text.

Supporting modules:
- **Text** models the Python string operations the core relies on: `lower`, `capitalize`, `in`, `<`, slicing with negative bounds, `split`, `strip`, `join`.
- **Sorting** models `list.sort(key=..., reverse=True)`, which is stable.
- **Wrappers** holds `Option`.

Python's dynamic features are modelled as follows:
- **Keyword arguments** (`**updates`) are an ordered sequence of (name, value) pairs. An `Attr` enumeration stands for the dataclass fields.
- **Log details** are a map to `Value` (a string or a number).
- **Lengths** are exact reals.
- **Side effects.** Time, uuids, `str(float)` and SHA-256 are parameters.

Where the source works by updating objects, the model uses classes:
- `StorageManager`, `Config`, `User` and `AuthManager` have `modifies` frames.
- Loops become methods proved against specification functions. Examples: `SearchRolls`, `GetRollsByDateRange`, `CountStatuses`, `MaxNumber`, `ApplyFilters`, `SearchDetails`, `WrapText`, `Config.Get`.
- Separate lemmas then prove what those functions promise.

## Model

| member | source | states |
|---|---|---|
| Text.Lower | storage2.py:301 | `str.lower` keeps the length and lower-cases each character (ASCII letters) |
| Text.Capitalize | storage2.py:348 | `str.capitalize`: first character upper-cased, the rest lower-cased, same length |
| Text.PyFrom | storage2.py:269 | `s[start:]` with Python's negative-index clamping is a suffix of `s` |
| Text.PyUpTo | gui/tabs/dispatch_tab.py:315 | `s[:end]` with clamping is a prefix of `s` of length min(end, len(s)) for `end >= 0`, and len(s) + end (at least 0) otherwise |
| Text.Split | gui/tabs/logs_tab.py:148 | `str.split(sep)` yields at least one part, no part holds `sep`, and joining with `sep` gives the input back |
| Text.SplitJoin | config.py:134 | splitting a join of separator-free parts gives the parts back (the other half of the round trip) |
| Text.JoinConcat | gui/dialogs/label_preview_dialog.py:191 | joining two non-empty lists is joining each with the separator between them |
| Text.StripLeft | gui/tabs/dispatch_tab.py:177 | the left strip is a suffix that starts with a non-whitespace character or is empty |
| Text.StripRight | gui/tabs/dispatch_tab.py:177 | the right strip is a prefix that ends with a non-whitespace character or is empty |
| Text.Strip | gui/tabs/dispatch_tab.py:177 | `str.strip()` has no whitespace at either end and leaves an already stripped string alone |
| Text.StripLeftDropsSpace | gui/tabs/dispatch_tab.py:177 | every character the left strip removes is whitespace |
| Text.StripRightDropsSpace | gui/tabs/dispatch_tab.py:177 | every character the right strip removes is whitespace |
| Text.StripSlice | gui/tabs/dispatch_tab.py:177 | `str.strip()` is a contiguous slice of the input with only whitespace before and after it |
| Text.StripIdempotent | gui/tabs/dispatch_tab.py:177 | stripping twice is stripping once |
| Text.WordLength | gui/dialogs/label_preview_dialog.py:186 | a word runs up to the first whitespace character |
| Text.Words | gui/dialogs/label_preview_dialog.py:186 | `str.split()` yields non-empty words without whitespace |
| Text.WordLengthPrefix | gui/dialogs/label_preview_dialog.py:186 | text that starts with whitespace does not lengthen the word before it |
| Text.WordsSplitAtSpace | gui/dialogs/label_preview_dialog.py:186 | the words of `a + c + b` for a whitespace `c` are the words of `a` followed by the words of `b` |
| Text.WordsBeforeSpace | gui/dialogs/label_preview_dialog.py:186 | when `t` starts with whitespace the words of `a + t` are those of `a` followed by those of `t` |
| Text.WordsAfterWord | gui/dialogs/label_preview_dialog.py:186 | the same for an `a` that starts with a word, the step on which the split recurses |
| Text.WordsOfWord | gui/dialogs/label_preview_dialog.py:186 | a non-empty string without whitespace is one word |
| Text.WordsOfSpace | gui/dialogs/label_preview_dialog.py:186 | a string of whitespace only has no words |
| Text.StrLessTrichotomy | gui/tabs/logs_tab.py:149 | Python's string order is total and asymmetric |
| Text.StrLessTransitive | gui/tabs/logs_tab.py:189 | the string order is transitive |
| Text.StrLeTransitive | gui/tabs/logs_tab.py:189 | "not less than" is transitive, as the sort relies on |
| Sorting.InsertDesc | gui/tabs/logs_tab.py:189 | inserting adds exactly the one element |
| Sorting.SortDesc | gui/tabs/logs_tab.py:189 | `sort(key, reverse=True)` is a permutation of its input |
| Sorting.InsertDescSorted | gui/tabs/logs_tab.py:189 | inserting into a newest-first list keeps it newest-first |
| Sorting.SortDescSorted | gui/tabs/dispatch_tab.py:312 | the sorted list has keys in non-increasing order |
| Sorting.SortDescMembers | storage2.py:368 | sorting keeps exactly the elements it was given |
| Sorting.WithKeyCons | gui/tabs/logs_tab.py:189 | the elements with a given key of a list with one more element in front |
| Sorting.InsertDescSkips | gui/tabs/logs_tab.py:189 | passing over a larger key keeps the order of the elements with the inserted element's key |
| Sorting.InsertDescWithKey | gui/tabs/logs_tab.py:189 | inserting puts the element first among those with the same key |
| Sorting.SortDescStable | gui/tabs/logs_tab.py:189 | the sort is stable: the elements with any one key come out in their original order |
| Sorting.SortedPrefix | gui/tabs/dispatch_tab.py:312-315 | in a sorted list the last key of a prefix is not smaller than any key left behind |
| Sorting.TopOfSorted | gui/tabs/dispatch_tab.py:312-315 | the first `n` of any sorted arrangement of a list: min(n, len) of its elements, largest first, all of them when there are at most `n` |
| Sorting.SortDescTop | gui/tabs/dispatch_tab.py:312-315 | the first `n` after sorting: min(n, len) of the elements, largest first, all of them when there are at most `n` |
| Sorting.SortDescTopRest | gui/tabs/dispatch_tab.py:312-315 | no element left out of the first `n` after sorting has a larger key than the last one kept |
| Records.AllAttrsComplete | storage2.py:37-46 | `from_dict`'s valid fields are every Roll field |
| Records.AttrNamed | storage2.py:186-187 | `hasattr`/`setattr` by name finds the attribute with that name |
| Records.AttrNamedName | storage2.py:186-187 | every attribute is found under its own name (names are distinct) |
| Records.Get | storage2.py:300 | `getattr` returns a value of the attribute's kind |
| Records.PatchedGet | storage2.py:185-187 | after `setattr` of a value of the right kind the attribute holds it; all others are unchanged |
| Records.ByAttr | storage2.py:39-44 | the dictionary restricted to field names, keyed by attribute |
| Records.Construct | storage2.py:11-31 | the dataclass constructor succeeds when every required field is given; the model also asks every value to have its field's kind (see Left out) |
| Records.ConstructGet | storage2.py:11-31 | a constructed roll holds each given field and each dataclass default otherwise (status "active", unit "MTS", scrap 0) |
| Records.FromDict | storage2.py:36-46 | `from_dict` succeeds when every required field is present; the model also asks every field present to have its kind (see Left out) |
| Records.FromDictIgnoresUnknownKeys | storage2.py:39-44 | keys naming no field have no effect on `from_dict` |
| Records.FromDictGet | storage2.py:36-46 | each field is taken over from the dictionary, or takes its default |
| Storage.Cut | storage2.py:199-207 | an allowed cut lowers the length by the cut, stays non-negative, marks a zero-length roll "used" and changes nothing else |
| Storage.CutAllLength | storage2.py:192-222 | after any run of accepted cuts the remaining length is the original minus their sum, between 0 and the original, with "used" exactly at zero |
| Storage.CutAfterDepletion | storage2.py:199-200 | once a run of cuts leaves a roll at zero, every further run of cuts is refused |
| Storage.SetAttrsGet | storage2.py:179-190 | after `update_roll` each attribute named by a keyword holds the last value given for it; every other attribute is unchanged |
| Storage.SetAttrsUnknown | storage2.py:186 | keywords naming no attribute leave the roll as it was |
| Storage.FilterLogs | storage2.py:267-289 | filtering never adds entries |
| Storage.FilterLogsMembers | storage2.py:272-285 | an entry is kept exactly when it is in the window and each filter matches its attribute or else its details |
| Storage.FilterLogsAppend | storage2.py:274-285 | filtering distributes over concatenation, so the order is kept |
| Storage.FilterLogsNone | storage2.py:289 | without filters the window is returned as it is |
| Storage.RecentEntries | storage2.py:269 | `logs[-limit:]` is the last `limit` entries; 0 gives all, a negative limit drops from the front |
| Storage.EntryMatches | storage2.py:276-282 | the inner loop over the filters decides exactly the matching predicate |
| Storage.Search | storage2.py:292-308 | searching never adds rolls |
| Storage.SearchMembers | storage2.py:292-308 | a roll is found exactly when every filter naming one of its attributes is a case-insensitive substring of that attribute |
| Storage.SearchNoFilters | storage2.py:292-308 | without filters every roll is returned |
| Storage.UnknownKeysIgnored | storage2.py:299 | a filter key naming no attribute has no effect |
| Storage.RollMatchesFilters | storage2.py:297-303 | the inner loop decides exactly the matching predicate |
| Storage.Window | storage2.py:358 | the date window never adds rolls |
| Storage.WindowMembers | storage2.py:358 | a roll is in the window exactly when `start <= date_received < end` |
| Storage.CountedLast | storage2.py:342-346 | the last roll is counted unless both dates are given and it lies outside them |
| Storage.CountStatusStep | storage2.py:348-349 | a roll adds one to the count of its own capitalised status and to no other |
| Storage.TallyExact | storage2.py:338-351 | a status is a key of the dictionary exactly when some counted roll has it, and its value is the number of counted rolls with that status |
| Storage.SumValuesRemove | storage2.py:349 | the total of the counts splits over one key |
| Storage.SumValuesAdd | storage2.py:349 | incrementing a count raises the total by one |
| Storage.TallyTotal | storage2.py:338-351 | the counts add up to the number of rolls counted |
| Storage.Rows | storage2.py:359-365 | one row per roll, each describing its roll (date, SKU, type or "Standard", length, capitalised status) |
| Storage.DateRangeReport | storage2.py:353-370 | the report has one row per roll in the window, newest date first; each row describes such a roll and each such roll has its row |
| Storage.InOrder | storage2.py:296 | iterating a dictionary visits its values in insertion order |
| Storage.DistinctCard | storage2.py:247 | a list of distinct keys has as many elements as its set |
| Storage.StorageManager.Rolls | storage2.py:296 | the rolls in insertion order are exactly the stored rolls |
| Storage.StorageManager.constructor | storage.py:61-76 | a new store is empty (the loading from files is left out) |
| Storage.StorageManager.AddLog | storage2.py:250-265 | appends exactly one entry with the given fields and returns its id |
| Storage.StorageManager.AddRoll | storage2.py:149-169 | succeeds exactly for a new id; it then stores the roll last in order and logs "roll_created" with SKU, lot, original length and location; otherwise nothing changes |
| Storage.StorageManager.GetRoll | storage2.py:171-173 | the roll stored under the id, or None exactly when there is none |
| Storage.StorageManager.GetRollById | storage2.py:175-177 | the same answer as `get_roll` |
| Storage.StorageManager.UpdateRoll | storage2.py:179-190 | succeeds exactly for a stored id; that roll gets the keyword updates and no other roll changes |
| Storage.StorageManager.CutRoll | storage2.py:192-222 | succeeds exactly for a stored roll and a cut in (0, length]; the roll is cut and "roll_cut" is logged with the remaining length and status; otherwise nothing changes |
| Storage.StorageManager.AddMasterProduct | storage2.py:225-239 | succeeds exactly for a new SKU; it then stores the product and logs "master_product_added" with an empty roll id |
| Storage.StorageManager.GetMasterProduct | storage2.py:241-243 | the product stored under the SKU, whose SKU is that SKU, or None exactly when there is none |
| Storage.StorageManager.GetAllMasterProducts | storage2.py:245-247 | every stored product exactly once, with distinct SKUs, in insertion order |
| Storage.StorageManager.GetLogs | storage2.py:267-289 | the filtered last `limit` entries |
| Storage.StorageManager.SearchRolls | storage2.py:292-308 | the loop over the rolls returns the search result |
| Storage.StorageManager.GetRollStatusesCount | storage2.py:338-351 | the status dictionary `Tally` of the stored rolls, which `TallyExact` and `TallyTotal` tie to the rolls in the window (all rolls when a bound is missing) |
| Storage.StorageManager.GetRollsByDateRange | storage2.py:353-370 | the loop builds the rows of the rolls in the window, then sorts them newest date first |
| Storage.ApplyUpdates | storage2.py:185-187 | the `setattr` loop applies the keywords in call order |
| Storage.CountStatuses | storage2.py:340-351 | the counting loop builds the status dictionary `Tally` of its rolls |
| Storage.SearchAll | storage2.py:294-308 | the loop collects exactly the rolls the search keeps, in order |
| Storage.RowsInWindow | storage2.py:355-366 | the loop collects the rows of exactly the rolls in the window, in order |
| Storage.IndexOf | storage2.py:296 | a key of the order list is found at an index holding it |
| RollIds.Decimal | utils/roll_id_generator.py:40 | decimal digits without a leading zero whose value is the number |
| RollIds.Zeros | utils/roll_id_generator.py:40 | the zero padding is `k` digit characters |
| RollIds.LeadingZeros | utils/roll_id_generator.py:40 | leading zeros do not change a digit string's value |
| RollIds.ZeroPad6 | utils/roll_id_generator.py:40 | `:06d` gives at least six digits |
| RollIds.ZerosAreZeros | utils/roll_id_generator.py:40 | the padding consists of '0' characters |
| RollIds.PadShape | utils/roll_id_generator.py:40 | padding puts exactly the zeros in front of the digits |
| RollIds.ZeroPadShape | utils/roll_id_generator.py:40 | `:06d` is the number's digits, left-padded with '0' to exactly six characters, or the digits alone when longer |
| RollIds.ZeroPadValue | utils/roll_id_generator.py:40 | the padded digits have the number's value |
| RollIds.FormatId | utils/roll_id_generator.py:40 | `f"R{n:06d}"` is at least seven characters starting with 'R' |
| RollIds.FormatIdShape | utils/roll_id_generator.py:40 | the identifier is 'R' and the padded number, exactly seven characters below 1000000 |
| RollIds.DecimalBound | utils/roll_id_generator.py:40 | a number below 10^k has at most `k` digits |
| RollIds.FirstId | utils/roll_id_generator.py:40 | the identifier of 1 is "R000001" |
| RollIds.DigitsGrouped | utils/roll_id_generator.py:32 | a plain digit string is a valid `int()` literal with its decimal value |
| RollIds.GroupedShape | utils/roll_id_generator.py:32 | an `int()` literal starts with a digit and holds only digits and single underscores |
| RollIds.Unsigned | utils/roll_id_generator.py:32 | an accepted unsigned literal starts and ends with a digit |
| RollIds.ParseInt | utils/roll_id_generator.py:32 | `int(s)` succeeds only on input with something other than whitespace |
| RollIds.ParseDigits | utils/roll_id_generator.py:32 | `int()` of a digit string is its decimal value |
| RollIds.StripDigits | utils/roll_id_generator.py:32 | a digit string has no surrounding whitespace |
| RollIds.ParseZeroPad | utils/roll_id_generator.py:32-40 | parsing the padded number gives the number back |
| RollIds.SuffixFormatId | utils/roll_id_generator.py:30-40 | the suffix of a formatted identifier is its number |
| RollIds.MaxSuffix | utils/roll_id_generator.py:27-36 | the running maximum is never negative |
| RollIds.MaxSuffixBound | utils/roll_id_generator.py:27-36 | every parsable suffix is at most the maximum |
| RollIds.MaxSuffixAttained | utils/roll_id_generator.py:27-36 | the maximum is 0 or the suffix of some identifier |
| RollIds.MaxNumber | utils/roll_id_generator.py:27-36 | the loop computes the maximum suffix, skipping identifiers `int()` rejects |
| RollIds.NextRollIdAsWritten | utils/roll_id_generator.py:16-44 | the next identifier is the maximum plus one, formatted, and "R001" when the database cannot be read |
| RollIds.FallbackMismatch | utils/roll_id_generator.py:44 | "R001" is not the six-digit first identifier and is shorter than every generated one |
| RollIds.NextRollId | utils/roll_id_generator.py:16-44 | the next identifier, with the six-digit "R000001" on the error path |
| RollIds.Batch | utils/roll_id_generator.py:77-78 | `count` identifiers for a positive count, none otherwise |
| RollIds.NextRollIds | utils/roll_id_generator.py:46-83 | the batch after the maximum, or from 1 when the database cannot be read |
| RollIds.ValidateRollId | utils/roll_id_generator.py:85-93 | valid exactly when the id starts with 'R' and `int()` accepts the rest |
| RollIds.FormatIdUnused | utils/roll_id_generator.py:39-40 | a number above the maximum gives an identifier not yet in use |
| RollIds.FormatIdDistinct | utils/roll_id_generator.py:40 | different numbers give different identifiers |
| RollIds.NextIdFresh | utils/roll_id_generator.py:16-40 | the next identifier validates and is not in use |
| RollIds.Build | utils/roll_id_generator.py:77-78 | the comprehension over `range(first, first + count)` has `count` elements, none for a count below one |
| RollIds.BuildAt | utils/roll_id_generator.py:77-78 | its i-th element is the function applied to `first + i` |
| RollIds.BatchAt | utils/roll_id_generator.py:77-78 | the i-th identifier of a batch formats the number `first + i` |
| RollIds.BatchNumbers | utils/roll_id_generator.py:77-78 | the batch identifiers carry consecutive numbers |
| RollIds.BatchDistinct | utils/roll_id_generator.py:77-78 | a batch has no duplicates |
| RollIds.BatchUnused | utils/roll_id_generator.py:77-78 | no identifier of the batch after the maximum is in use |
| RollIds.MaxAfterRecord | utils/roll_id_generator.py:27-40 | recording the next identifier raises the maximum by one |
| RollIds.BatchCons | utils/roll_id_generator.py:77-78 | a batch is its first identifier followed by the batch after it |
| RollIds.BatchIsSequential | utils/roll_id_generator.py:46-78 | asking for a batch is asking for one identifier at a time and recording each |
| RollIds.SequentialFrom | utils/roll_id_generator.py:46-78 | one identifier at a time from a maximum `m` gives the batch from `m + 1` |
| RollIds.ValidationAcceptsShort | utils/roll_id_generator.py:85-93 | validation accepts "R001", which is not of the generated form |
| RollIds.ValidationAcceptsSign | utils/roll_id_generator.py:89-91 | validation accepts a sign after the 'R' ("R-3"), as `int()` does |
| RollIds.ValidationRejectsLowerCase | utils/roll_id_generator.py:87-88 | a lower-case 'r' is rejected |
| Dispatch.SpinBoxValue | gui/tabs/dispatch_tab.py:46-47 | the spin box holds a value in [0.01, max(available, 0.01)], and any entry already in range unchanged |
| Dispatch.Dispatched | gui/tabs/dispatch_tab.py:226-234 | dispatching changes only the length and status of the roll |
| Dispatch.DispatchConserves | gui/tabs/dispatch_tab.py:226-234 | the remaining length is never negative; a partial dispatch keeps the status and the dispatched plus the remaining length is the old length; otherwise the roll is at 0 and "depleted" |
| Dispatch.DispatchAllDepletes | gui/tabs/dispatch_tab.py:47-50 | accepting the dialog's preset (the whole length) depletes the roll |
| Dispatch.PartialDispatch | gui/tabs/dispatch_tab.py:226-229 | dispatching less than is left takes exactly that much off and keeps the status |
| Dispatch.KeepLength | gui/tabs/dispatch_tab.py:237-241 | writing a roll's own length back leaves it as it was |
| Dispatch.KeepStatus | gui/tabs/dispatch_tab.py:237-241 | writing a roll's own status back leaves it as it was |
| Dispatch.SetOwnLength | gui/tabs/dispatch_tab.py:239 | `setattr(current_length=...)` with its own length is a no-op |
| Dispatch.SetOwnStatus | gui/tabs/dispatch_tab.py:240 | `setattr(status=...)` with its own status is a no-op |
| Dispatch.ReapplyIsNoop | gui/tabs/dispatch_tab.py:237-241 | the `update_roll` call after the in-place change rewrites the roll with what it already holds |
| Dispatch.DispatchRoll | gui/tabs/dispatch_tab.py:222-254 | the stored object is changed in place, then updated under its roll id, and one "dispatch" entry is logged with SKU, lot, dispatched and remaining length and status |
| Dispatch.DispatchStoresRoll | gui/tabs/dispatch_tab.py:229-241 | for a roll stored under its own id, the net effect is to store the dispatched roll |
| Dispatch.ScanDispatches | gui/tabs/dispatch_tab.py:175-220 | a scan dispatches exactly when the stripped input names a stored active roll and the dialog is accepted, and then by the dialog's length |
| Dispatch.ScanRejects | gui/tabs/dispatch_tab.py:177-218 | empty input, unknown roll, inactive roll and a cancelled dialog are each recognised exactly |
| Dispatch.ScanIgnoresPadding | gui/tabs/dispatch_tab.py:177 | surrounding whitespace of the scanned text has no effect |
| Dispatch.BaseStoreNeverDispatches | gui/tabs/dispatch_tab.py:184 | on the `storage.py` store a non-blank scan fails at the lookup and never dispatches, even where the corrected scan would |
| Dispatch.ExtendedStoreScans | gui/tabs/dispatch_tab.py:184 | on the `storage2.py` store the scan as written is the corrected one |
| Dispatch.ScanAndDispatch | gui/tabs/dispatch_tab.py:175-254 | with the lookup through `get_roll`: the scan's outcome; nothing changes unless it dispatches; on dispatch the rolls are those after the in-place change and the `update_roll` under the roll's own id (for a roll stored under its own id: replaced by the dispatched roll), and one entry is logged |
| Dispatch.ProcessScan | gui/tabs/dispatch_tab.py:175-254 | as written, on either store: the scan's outcome, a lookup failure on the `storage.py` store; nothing changes unless it dispatches; on dispatch the rolls are those after the in-place change and the `update_roll` under the roll's own id (for a roll stored under its own id: replaced by the dispatched roll), and one entry is logged |
| Dispatch.Dispatches | gui/tabs/dispatch_tab.py:309 | the filter never adds entries |
| Dispatch.DispatchesMembers | gui/tabs/dispatch_tab.py:309 | exactly the "dispatch" entries are kept |
| Dispatch.LoadRecentHistory | gui/tabs/dispatch_tab.py:304-315 | the first 20 of the dispatch entries among the last 100, sorted newest first, which `RecentHistoryShape` and `RecentHistoryEntries` characterise |
| Dispatch.RecentHistoryShape | gui/tabs/dispatch_tab.py:307-315 | the history shows min(20, n) of the n dispatch entries among the last 100, newest first, no entry more often than it occurs, all of them when n <= 20, and none left out newer than the last shown |
| Dispatch.RecentHistoryEntries | gui/tabs/dispatch_tab.py:307-315 | every entry shown is a dispatch among the last 100 entries of the log |
| LogsView.DatePartPrefix | gui/tabs/logs_tab.py:148 | the date part is the longest prefix of the timestamp without a 'T' |
| LogsView.Select | gui/tabs/logs_tab.py:140-186 | filtering never adds entries |
| LogsView.SelectMembers | gui/tabs/logs_tab.py:140-186 | an entry is shown exactly when it passes all active filters |
| LogsView.SelectCounts | gui/tabs/logs_tab.py:140-186 | each passing entry is kept as many times as it occurs; the others are dropped |
| LogsView.NoTextFilters | gui/tabs/logs_tab.py:146-158 | with empty action, user and search filters only the date window applies |
| LogsView.ActionFilterExact | gui/tabs/logs_tab.py:153-154 | with an action chosen, every shown entry has exactly that action |
| LogsView.UserFilterContains | gui/tabs/logs_tab.py:157-158 | with a user filter, every shown entry's user contains it, ignoring case |
| LogsView.DateWindowHolds | gui/tabs/logs_tab.py:133-150 | every shown entry's date lies in [start, day after end) |
| LogsView.SearchFilterDecides | gui/tabs/logs_tab.py:161-184 | the search text decides exactly by action, non-empty roll id or any details value |
| LogsView.SearchDetails | gui/tabs/logs_tab.py:176-181 | the loop over the details values finds a match exactly when one exists |
| LogsView.Keep | gui/tabs/logs_tab.py:142-184 | the per-entry checks decide exactly the filter predicate |
| LogsView.ApplyFilters | gui/tabs/logs_tab.py:127-189 | the loop collects the passing entries in order and sorts them newest first |
| LogsView.ShownEntries | gui/tabs/logs_tab.py:140-189 | the table is newest first and holds each passing entry as often as the log does, and nothing else |
| LogsView.TruncateDetails | gui/tabs/logs_tab.py:240-243 | the shown details are at most 103 characters |
| LogsView.TruncateDetailsShape | gui/tabs/logs_tab.py:240-243 | up to 100 characters are shown as they are; longer ones as their first 100 and "..." |
| LogsView.MasterAddedHidesProducts | gui/tabs/logs_tab.py:45 | the "Master Added" choice as written shows no "master_product_added" entry |
| LogsView.MasterAddedShowsProducts | gui/tabs/logs_tab.py:45 | the corrected choice shows exactly the product entries that pass the other filters |
| Configuration.MergeEntries | config.py:94-104 | the merged keys are both inputs' keys; custom wins unless both are dictionaries, which merge recursively; default-only keys are kept |
| Configuration.MergeEmpty | config.py:94-104 | merging nothing over the defaults gives the defaults, and vice versa |
| Configuration.MergeSelf | config.py:94-104 | merging settings over themselves changes nothing |
| Configuration.CustomOverrides | config.py:98-102 | a non-dictionary setting in the user's file is what the merged settings hold |
| Configuration.DefaultsSurvive | config.py:96-100 | a default not overridden on its path survives the merge |
| Configuration.GetAfterSet | config.py:152-162 | after a set, walking the same path gives the value, through dictionaries only |
| Configuration.SetThenGet | config.py:123-162 | `set(key, v)` then `get(key, d)` gives `v` |
| Configuration.SetKeepsOthers | config.py:144-162 | a set changes no path that leaves its own |
| Configuration.Config.constructor | config.py:59-84 | the settings are the merge over the defaults when the file held a dictionary, else the defaults |
| Configuration.Config.Get | config.py:123-142 | the loop walks the dot path, giving the default on a missing key or a non-dictionary |
| Configuration.Config.Set | config.py:144-162 | the settings become those with the path set |
| Auth.User.constructor | auth.py:15-21 | the fields as given, the full name defaulting to the user name, no last login |
| Auth.User.IsAdmin | auth.py:47-49 | an administrator exactly when the role is "admin" |
| Auth.AuthManager.constructor | auth.py:55-65 | the loaded users, or only the default administrator "admin" with password "admin" when none were loaded |
| Auth.AuthManager.IsLoggedIn | auth.py:127-129 | signed in exactly when there is a current user |
| Auth.AuthManager.IsAdmin | auth.py:131-133 | someone is signed in and that user is an administrator |
| Auth.AuthManager.Authenticate | auth.py:109-117 | succeeds exactly for a known user whose hash matches; it then signs that user in and stamps the login time; failure changes nothing; the hash and the role never change |
| Auth.AuthManager.Logout | auth.py:119-121 | nobody is signed in afterwards |
| Auth.AuthManager.AddUser | auth.py:135-148 | succeeds exactly for a new name, adding only that user with the hashed password; otherwise nothing changes |
| Auth.AuthManager.DeleteUser | auth.py:150-159 | refuses an unknown user and the signed-in user; otherwise removes exactly that user |
| Auth.AuthManager.ChangePassword | auth.py:161-174 | changes the hash to that of the new password exactly when the old password matches, and never the role or the last login |
| Auth.AuthManager.ResetPassword | auth.py:176-184 | succeeds exactly for a known user and sets the new hash, keeping the role and the last login |
| Auth.AuthManager.UpdateUserRole | auth.py:190-198 | succeeds exactly for a known user and sets the role, keeping the password hash and the last login |
| Auth.ChangeThenSignIn | auth.py:109-174 | after a successful change the new password signs the user in |
| LabelGenerator.ShortTextKept | utils/label_generator.py:101-105 | text within the budget is printed unchanged |
| LabelGenerator.LongTextCut | utils/label_generator.py:101-105 | longer text becomes its first `max-3` characters and "...", exactly `max` long |
| LabelGenerator.TruncateFitsAndSettles | utils/label_generator.py:101-105 | for a budget of at least 3 the result fits and truncating again changes nothing |
| LabelGenerator.SmallBudgetGrows | utils/label_generator.py:103-104 | below 3 characters the "truncated" text grows and keeps growing |
| LabelPreview.JoinEach | gui/dialogs/label_preview_dialog.py:191-200 | one line per group |
| LabelPreview.FoldCovers | gui/dialogs/label_preview_dialog.py:190-197 | the lines so far and the current line hold exactly the words taken, in order |
| LabelPreview.FoldNonEmpty | gui/dialogs/label_preview_dialog.py:193-195 | no finished line is empty, and the current line is empty only before the first word |
| LabelPreview.FoldFits | gui/dialogs/label_preview_dialog.py:192-197 | every line of more than one word fits the width |
| LabelPreview.FoldGreedy | gui/dialogs/label_preview_dialog.py:192-195 | a line is finished only when the next word would overflow it |
| LabelPreview.GroupsPartition | gui/dialogs/label_preview_dialog.py:186-200 | the lines partition the words in order, with no empty line |
| LabelPreview.GroupsOverflowSingle | gui/dialogs/label_preview_dialog.py:192-195 | a line wider than the limit is a single word |
| LabelPreview.GroupsGreedy | gui/dialogs/label_preview_dialog.py:192-195 | each line but the last is full: adding the next line's first word overflows it |
| LabelPreview.JoinEachFlatten | gui/dialogs/label_preview_dialog.py:191-200 | joining the lines gives the words joined with single spaces |
| LabelPreview.FlattenNonEmpty | gui/dialogs/label_preview_dialog.py:199-200 | non-empty lines hold some word |
| LabelPreview.WrapLinesWords | gui/dialogs/label_preview_dialog.py:183-202 | text without words comes back as itself; otherwise the lines are non-empty and joined give the words |
| LabelPreview.WrapLinesOverflowIsWord | gui/dialogs/label_preview_dialog.py:192-195 | a line wider than the limit is one of the words |
| LabelPreview.JoinEachAt | gui/dialogs/label_preview_dialog.py:191 | each line is its group joined with spaces |
| LabelPreview.FlattenMember | gui/dialogs/label_preview_dialog.py:186 | every word of a line is among the words |
| LabelPreview.JoinHead | gui/dialogs/label_preview_dialog.py:191 | a joined line starts with its first word |
| LabelPreview.StepOnLines | gui/dialogs/label_preview_dialog.py:190-197 | one iteration on strings does what one step does on word groups |
| LabelPreview.WrapWords | gui/dialogs/label_preview_dialog.py:189-197 | the loop's finished lines and current line are those of the greedy fold of the words |
| LabelPreview.WrapText | gui/dialogs/label_preview_dialog.py:183-202 | the loop on strings computes the greedy wrap of the words |

## Left out

- **File and database I/O.**
  - `StorageManager` starts empty: loading `rolls.json`, `master_products.json` and `logs.json` (storage2.py:95-115) is not modelled, and neither is saving them.
  - The users read from `users.json` and the settings read from `config.json` are constructor parameters; writing those files is not modelled.
  - The sqlite query of the identifier generator: its result, or its failure, is a parameter.
  - Creating directories (`_ensure_directories`, `mkdir`) is left out.
- **Locks and threads.** The store's lock is not modelled.
- **Clock, uuids and hashing.** The clock and uuids are parameters. SHA-256 is an opaque function with no property assumed, not even injectivity.
- **Float arithmetic and formatting.**
  - Lengths are exact reals: no float rounding.
  - `:.2f` formatting and `setDecimals(2)` are not modelled.
  - `str(float)` is a parameter `fmt`.
  - The report row keeps the length as a number instead of the `:.2f` string.
  - `dispatch_roll` sets the length to the int `0`; the model uses 0.0.
- **Unicode.** `lower` and `capitalize` map only ASCII letters. `strip` and `split` use Python's whitespace set.
- RollIds.ParseInt: accepts the ASCII digits '0'-'9' only; Python's `int()` also accepts other Unicode decimal digits (Arabic-Indic, full-width, ...), which the model rejects.
- RollIds.MaxNumber: a suffix written in non-ASCII decimal digits, which `int()` would parse, is skipped.
- RollIds.ValidateRollId: an identifier such as "R" followed by full-width digits, valid for `int()`, is reported invalid.
- Records.Construct / Records.FromDict: a Python dataclass does not check types, so `Roll(...)` and `from_dict` accept a value of the wrong kind (a string for `current_length`) and store it; the typed record cannot hold such a value, so the model returns None instead.
- **Records.Patched:** `setattr` with a value of the wrong kind (a string into a float field) is not stored, because the typed record cannot hold it.
- **Storage.SetAttrsGet:** `update_roll` can also overwrite the methods `to_dict` and `from_dict` and dunder attributes. The model only updates the dataclass fields.
- **Storage.FilterLogsMembers:** `hasattr` on a log entry is modelled for its six fields and its two methods, but not for dunder attributes such as `__class__`.
- **Storage.SearchMembers:** a search filter naming a Roll method or dunder attribute matches against `str(...)` of a bound method; the model ignores such keys.
- **Dispatch.DispatchRoll:**
  - the `except` branch that shows an error box is left out, because no exception is possible in the model;
  - the Qt message boxes, the labels and the `dispatch_completed` signal are left out.
- **LogsView.TruncateDetails:** takes the formatted details text, because the `"k: v, ..."` formatting of the dictionary is left out. Its own ensures is only the length bound; the exact shape is `TruncateDetailsShape`.
- **LogsView:** the end date plus one day is a parameter (`dayAfterEnd`), because Qt's calendar arithmetic is left out. The "Clear Logs", export and details dialogs are not modelled.
- **Dispatch.Dispatched:** its own ensures only says that no other field changes; the lengths and status are stated in `DispatchConserves`.
- **get_roll_types_count** of `storage2.py` is not modelled: no screen in the core uses it.
- **Configuration.Config.Set:** modelled as replacing the settings value. The source updates nested dictionaries in place, and two kinds of aliasing are not captured:
  - when no file exists, the settings are the class-level `_DEFAULT_CONFIG` itself;
  - the shallow `copy` in the merge shares nested default dictionaries.
- **Configuration:** `get_database_path`, `get_log_path` and `get_backup_path` (path joining) are not modelled.
- **Auth:** `get_all_users`, `get_current_user`, `User.to_dict` and `User.from_dict` are not modelled. `create_default_admin`'s console message is left out.
- **utils/label_generator_v2.py** and the rest of the label drawing (fonts, QR codes, images) are not part of this model.

## Findings

| source | as written | input that shows it | evidently intended | confidence | as-written member | corrected member |
|---|---|---|---|---|---|---|
| utils/roll_id_generator.py:42-44 | when the database cannot be read the next identifier is "R001" | any failing query (no database file) | the six-digit first identifier "R000001", as `get_next_roll_ids` returns at lines 80-83 and as every generated identifier is formatted | not executed | RollIds.NextRollIdAsWritten (with RollIds.FallbackMismatch) | RollIds.NextRollId |
| gui/tabs/dispatch_tab.py:184 | `process_scan` looks the roll up with `get_roll_by_id`, which only storage2.py defines, while app.py:16,100 and main.py:8,22 build the storage.py `StorageManager`; the call sits outside any `try` | any non-blank scan in the shipped application (an AttributeError before the lookup) | look the roll up with `get_roll`, which both stores define and of which `get_roll_by_id` is an alias | not executed | Dispatch.ProcessScan (with Dispatch.BaseStoreNeverDispatches) | Dispatch.ScanAndDispatch |
| gui/tabs/logs_tab.py:45 | the "Master Added" choice filters on action "master_added" | a log whose only entry is the "master_product_added" of storage2.py:233-237, with "Master Added" chosen | filter on "master_product_added", the action the store logs | not executed | LogsView.MasterAddedHidesProducts | LogsView.MasterAddedShowsProducts |
