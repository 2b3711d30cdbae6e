/**
 * `RollIDGenerator` of utils/roll_id_generator.py: roll ids of the form
 * "R" followed by a zero-padded decimal number of at least six digits,
 * allocated one above the largest number already in use. The SQLite query
 * is replaced by its outcome: the list of roll ids it returned, or None
 * when connecting or querying raised.
 */
module RollIds {
  import opened Wrappers
  import opened Text

  predicate IsDigit(c: char) {
    '0' <= c <= '9'
  }

  predicate AllDigits(s: string) {
    forall i :: 0 <= i < |s| ==> IsDigit(s[i])
  }

  function DigitChar(d: nat): char
    requires d < 10
  {
    (48 + d) as char
  }

  /** The number an all-digit string spells in base ten. */
  function DigitsValue(s: string): nat
    requires AllDigits(s)
  {
    if s == [] then 0 else 10 * DigitsValue(s[..|s| - 1]) + (s[|s| - 1] as int - 48)
  }

  /** `str(n)` for a natural number: no leading zero. */
  function Decimal(n: nat): (s: string)
    ensures s != [] && AllDigits(s)
    ensures n >= 10 ==> s[0] != '0'
    ensures DigitsValue(s) == n
  {
    if n < 10 then [DigitChar(n)]
    else
      var s := Decimal(n / 10) + [DigitChar(n % 10)];
      assert s[..|s| - 1] == Decimal(n / 10);
      s
  }

  function Zeros(k: nat): (s: string)
    ensures |s| == k && AllDigits(s)
  {
    if k == 0 then [] else Zeros(k - 1) + ['0']
  }

  /** Leading zeros do not change the value of a digit string. */
  lemma {:induction false} LeadingZeros(k: nat, d: string)
    requires AllDigits(d)
    ensures DigitsValue(Zeros(k) + d) == DigitsValue(d)
    decreases k, |d|
  {
    if d == [] {
      assert Zeros(k) + d == Zeros(k);
      if k > 0 {
        LeadingZeros(k - 1, []);
        assert Zeros(k - 1) + [] == Zeros(k - 1);
      }
    } else {
      assert (Zeros(k) + d)[..|Zeros(k) + d| - 1] == Zeros(k) + d[..|d| - 1];
      LeadingZeros(k, d[..|d| - 1]);
    }
  }

  /** `f"{n:06d}"` for a natural number: at least six digits, padded with zeros on the left. */
  function ZeroPad6(n: nat): (s: string)
    ensures |s| >= 6 && AllDigits(s)
  {
    var d := Decimal(n);
    if |d| < 6 then Zeros(6 - |d|) + d else d
  }

  /** The padded digits still spell `n`. */
  lemma ZeroPadValue(n: nat)
    ensures DigitsValue(ZeroPad6(n)) == n
  {
    var d := Decimal(n);
    if |d| < 6 {
      LeadingZeros(6 - |d|, d);
    }
  }

  /** `f"R{n:06d}"` */
  function FormatId(n: nat): (id: string)
    ensures |id| >= 7 && id[0] == 'R'
  {
    "R" + ZeroPad6(n)
  }

  lemma {:induction false} ZerosAreZeros(k: nat)
    ensures forall i :: 0 <= i < k ==> Zeros(k)[i] == '0'
  {
    if k > 0 {
      ZerosAreZeros(k - 1);
    }
  }

  lemma PadShape(k: nat, d: string)
    ensures (Zeros(k) + d)[k..] == d
    ensures forall i :: 0 <= i < k ==> (Zeros(k) + d)[i] == '0'
  {
    ZerosAreZeros(k);
  }

  /**
   * The `06d` width exactly: six characters when the decimal form is
   * shorter, that form itself otherwise, with only zeros in front of it.
   */
  lemma ZeroPadShape(n: nat)
    ensures var p, d := ZeroPad6(n), Decimal(n);
      && |p| == (if |d| < 6 then 6 else |d|)
      && p[|p| - |d|..] == d
      && forall i :: 0 <= i < |p| - |d| ==> p[i] == '0'
  {
    var d := Decimal(n);
    if |d| < 6 {
      assert ZeroPad6(n) == Zeros(6 - |d|) + d;
      PadShape(6 - |d|, d);
    } else {
      assert ZeroPad6(n) == d;
    }
  }

  /** An id is "R" and the padded number: seven characters for numbers below a million. */
  lemma FormatIdShape(n: nat)
    ensures FormatId(n)[1..] == ZeroPad6(n)
    ensures |FormatId(n)| == if |Decimal(n)| < 6 then 7 else 1 + |Decimal(n)|
    ensures n < 1000000 ==> |FormatId(n)| == 7
  {
    ZeroPadShape(n);
    assert ("R" + ZeroPad6(n))[1..] == ZeroPad6(n);
    if n < 1000000 {
      assert Pow10(6) == 1000000;
      DecimalBound(n, 6);
    }
  }

  function Pow10(k: nat): nat {
    if k == 0 then 1 else 10 * Pow10(k - 1)
  }

  /** A number below `10^k` has at most `k` decimal digits. */
  lemma {:induction false} DecimalBound(n: nat, k: nat)
    requires 1 <= k && n < Pow10(k)
    ensures |Decimal(n)| <= k
  {
    if n >= 10 {
      DecimalBound(n / 10, k - 1);
    }
  }

  /** The first id is "R000001", the form the class documents. */
  lemma FirstId()
    ensures FormatId(1) == "R000001"
  {
    ZeroPadShape(1);
    var p := ZeroPad6(1);
    assert Decimal(1) == "1";
    assert p == "000001";
  }

  // ---------------------------------------------------------------------------
  // Python's int() on a string (ASCII digits)

  /** Digits with single underscores between them, as `int()` accepts after the sign. */
  predicate Grouped(b: string)
    decreases |b|
  {
    && b != [] && IsDigit(b[|b| - 1])
    && (|b| == 1 ||
        if b[|b| - 2] == '_' then |b| >= 3 && Grouped(b[..|b| - 2]) else Grouped(b[..|b| - 1]))
  }

  /** The number a grouped digit string spells, underscores ignored. */
  function GroupedValue(b: string): nat
    requires Grouped(b)
    decreases |b|
  {
    var d := b[|b| - 1] as int - 48;
    if |b| == 1 then d
    else if b[|b| - 2] == '_' then 10 * GroupedValue(b[..|b| - 2]) + d
    else 10 * GroupedValue(b[..|b| - 1]) + d
  }

  /** A plain digit string is grouped and has its decimal value. */
  lemma {:induction false} DigitsGrouped(s: string)
    requires s != [] && AllDigits(s)
    ensures Grouped(s) && GroupedValue(s) == DigitsValue(s)
  {
    if |s| > 1 {
      DigitsGrouped(s[..|s| - 1]);
    }
  }

  /** A grouped string starts with a digit and holds no two underscores in a row. */
  lemma {:induction false} GroupedShape(b: string)
    requires Grouped(b)
    ensures IsDigit(b[0])
    ensures forall i :: 0 <= i < |b| ==> IsDigit(b[i]) || b[i] == '_'
    ensures forall i :: 0 <= i < |b| - 1 ==> !(b[i] == '_' && b[i + 1] == '_')
  {
    if |b| > 1 {
      var init := if b[|b| - 2] == '_' then b[..|b| - 2] else b[..|b| - 1];
      GroupedShape(init);
    }
  }

  /** The digits after the sign, if `int()` accepts them. */
  function Unsigned(body: string): (r: Option<nat>)
    ensures r.Some? ==> body != [] && IsDigit(body[0]) && IsDigit(body[|body| - 1])
  {
    if Grouped(body) then
      GroupedShape(body);
      Some(GroupedValue(body))
    else None
  }

  /**
   * `int(s)`: surrounding whitespace is ignored, one optional sign, then
   * digits possibly grouped by single underscores; None where Python
   * raises ValueError.
   */
  function ParseInt(s: string): (r: Option<int>)
    ensures r.Some? ==> Strip(s) != []
  {
    var t := Strip(s);
    if t == [] then None
    else if t[0] == '-' then
      match Unsigned(t[1..])
      case Some(v) => Some(-(v as int))
      case None => None
    else if t[0] == '+' then
      match Unsigned(t[1..])
      case Some(v) => Some(v)
      case None => None
    else
      match Unsigned(t)
      case Some(v) => Some(v)
      case None => None
  }

  /** A plain run of digits parses to the number it spells. */
  lemma ParseDigits(s: string)
    requires s != [] && AllDigits(s)
    ensures ParseInt(s) == Some(DigitsValue(s))
  {
    StripDigits(s);
    DigitsGrouped(s);
  }

  lemma StripDigits(s: string)
    requires s != [] && AllDigits(s)
    ensures Strip(s) == s
  {
    assert IsDigit(s[0]) && IsDigit(s[|s| - 1]);
  }

  /** The number after the leading "R" of a roll id, if `int()` accepts it. */
  function Suffix(id: string): Option<int> {
    if StartsWith(id, "R") then ParseInt(id[1..]) else None
  }

  /** Formatting then parsing gives the number back. */
  lemma ParseZeroPad(n: nat)
    ensures ParseInt(ZeroPad6(n)) == Some(n)
  {
    ParseDigits(ZeroPad6(n));
    ZeroPadValue(n);
  }

  lemma SuffixFormatId(n: nat)
    ensures Suffix(FormatId(n)) == Some(n)
  {
    assert FormatId(n)[1..] == ZeroPad6(n);
    ParseZeroPad(n);
  }

  // ---------------------------------------------------------------------------
  // Allocation

  /** `max_number` after the scan: the largest number found after an "R", or 0. */
  function MaxSuffix(ids: seq<string>): (m: int)
    ensures m >= 0
  {
    if ids == [] then 0
    else
      var m := MaxSuffix(ids[..|ids| - 1]);
      var last := Suffix(ids[|ids| - 1]);
      if last.Some? && last.value > m then last.value else m
  }

  /** No id in the scan carries a number above the maximum. */
  lemma {:induction false} MaxSuffixBound(ids: seq<string>, i: int)
    requires 0 <= i < |ids| && Suffix(ids[i]).Some?
    ensures Suffix(ids[i]).value <= MaxSuffix(ids)
  {
    if i < |ids| - 1 {
      var init := ids[..|ids| - 1];
      assert init[i] == ids[i];
      MaxSuffixBound(init, i);
    }
  }

  /** A positive maximum is the number of some id in the scan. */
  lemma {:induction false} MaxSuffixAttained(ids: seq<string>)
    ensures MaxSuffix(ids) == 0 || exists i :: 0 <= i < |ids| && Suffix(ids[i]) == Some(MaxSuffix(ids))
  {
    if ids != [] {
      var init := ids[..|ids| - 1];
      MaxSuffixAttained(init);
      if MaxSuffix(ids) != 0 && MaxSuffix(ids) == MaxSuffix(init) {
        var i :| 0 <= i < |init| && Suffix(init[i]) == Some(MaxSuffix(init));
        assert ids[i] == init[i];
      }
    }
  }

  /** The scanning loop of `get_next_roll_id` and `get_next_roll_ids`. */
  method MaxNumber(ids: seq<string>) returns (maxNumber: int)
    ensures maxNumber == MaxSuffix(ids)
  {
    maxNumber := 0;
    for i := 0 to |ids|
      invariant maxNumber == MaxSuffix(ids[..i])
    {
      assert ids[..i + 1][..i] == ids[..i];
      var rollId := ids[i];
      if StartsWith(rollId, "R") {
        var number := ParseInt(rollId[1..]);
        if number.Some? && number.value > maxNumber {
          maxNumber := number.value;
        }
      }
    }
    assert ids[..|ids|] == ids;
  }

  /** The id `get_next_roll_id` returns after a successful scan. */
  function NextId(ids: seq<string>): string {
    FormatId(MaxSuffix(ids) + 1)
  }

  /** `get_next_roll_id` as written: "R001" when the database cannot be read. */
  method NextRollIdAsWritten(scan: Option<seq<string>>) returns (id: string)
    ensures scan.Some? ==> id == NextId(scan.value)
    ensures scan.None? ==> id == "R001"
  {
    if scan.None? {
      return "R001";
    }
    var maxNumber := MaxNumber(scan.value);
    id := FormatId(maxNumber + 1);
  }

  /** The fallback does not have the documented six-digit form, unlike the batch fallback. */
  lemma FallbackMismatch()
    ensures "R001" != FormatId(1)
    ensures |"R001"| < |FormatId(1)|
  {
  }

  /** `get_next_roll_id`, with the fallback in the six-digit form of every other id. */
  method NextRollId(scan: Option<seq<string>>) returns (id: string)
    ensures scan.Some? ==> id == NextId(scan.value)
    ensures scan.None? ==> id == FormatId(1)
  {
    if scan.None? {
      return FormatId(1);
    }
    var maxNumber := MaxNumber(scan.value);
    id := FormatId(maxNumber + 1);
  }

  /** `[f(num) for num in range(first, first + count)]` */
  function Build(f: nat -> string, first: nat, count: int): (xs: seq<string>)
    ensures |xs| == if count > 0 then count else 0
    decreases count
  {
    if count <= 0 then [] else [f(first)] + Build(f, first + 1, count - 1)
  }

  /** The `i`-th element of the comprehension is `f(first + i)`. */
  lemma {:induction false} BuildAt(f: nat -> string, first: nat, count: int, i: nat)
    requires i < |Build(f, first, count)|
    ensures Build(f, first, count)[i] == f(first + i)
    decreases count
  {
    if i > 0 {
      BuildAt(f, first + 1, count - 1, i - 1);
    }
  }

  /** `[f"R{num:06d}" for num in range(first, first + count)]` */
  function Batch(first: nat, count: int): (ids: seq<string>)
    ensures |ids| == if count > 0 then count else 0
  {
    Build(FormatId, first, count)
  }

  /** The `i`-th id of a batch carries number `first + i`. */
  lemma BatchAt(first: nat, count: int, i: nat)
    requires i < |Batch(first, count)|
    ensures Batch(first, count)[i] == FormatId(first + i)
  {
    BuildAt(FormatId, first, count, i);
  }

  /** `get_next_roll_ids`: `count` consecutive ids after the largest in use, or from 1 when the database cannot be read. */
  method NextRollIds(scan: Option<seq<string>>, count: int) returns (ids: seq<string>)
    ensures scan.Some? ==> ids == NextIds(scan.value, count)
    ensures scan.None? ==> ids == Batch(1, count)
  {
    var first := 1;
    if scan.Some? {
      var maxNumber := MaxNumber(scan.value);
      first := maxNumber + 1;
    }
    ids := Batch(first, count);
  }

  /** `validate_roll_id` */
  function ValidateRollId(id: string): (ok: bool)
    ensures ok ==> id != [] && id[0] == 'R'
    ensures ok <==> Suffix(id).Some?
  {
    StartsWith(id, "R") && ParseInt(id[1..]).Some?
  }

  // ---------------------------------------------------------------------------
  // What allocation promises

  /** An id numbered above every number in use is not in use. */
  lemma FormatIdUnused(ids: seq<string>, n: nat)
    requires n > MaxSuffix(ids)
    ensures FormatId(n) !in ids
  {
    SuffixFormatId(n);
    forall i | 0 <= i < |ids| ensures ids[i] != FormatId(n) {
      if Suffix(ids[i]).Some? {
        MaxSuffixBound(ids, i);
      }
    }
  }

  /** Distinct numbers give distinct ids. */
  lemma FormatIdDistinct(m: nat, n: nat)
    requires m != n
    ensures FormatId(m) != FormatId(n)
  {
    SuffixFormatId(m);
    SuffixFormatId(n);
  }

  /** A newly allocated id is valid and collides with no id already in use. */
  lemma NextIdFresh(ids: seq<string>)
    ensures ValidateRollId(NextId(ids))
    ensures NextId(ids) !in ids
  {
    SuffixFormatId(MaxSuffix(ids) + 1);
    FormatIdUnused(ids, MaxSuffix(ids) + 1);
  }

  /** The ids `get_next_roll_ids` returns after a successful scan. */
  function NextIds(ids: seq<string>, count: int): seq<string> {
    Batch(MaxSuffix(ids) + 1, count)
  }

  /** The ids of a batch carry consecutive numbers from `first`. */
  lemma BatchNumbers(first: nat, count: int)
    ensures forall i :: 0 <= i < |Batch(first, count)| ==> Suffix(Batch(first, count)[i]) == Some(first + i)
  {
    forall i | 0 <= i < |Batch(first, count)| ensures Suffix(Batch(first, count)[i]) == Some(first + i) {
      BatchAt(first, count, i);
      SuffixFormatId(first + i);
    }
  }

  /** A batch holds no duplicates. */
  lemma BatchDistinct(first: nat, count: int)
    ensures Distinct(Batch(first, count))
  {
    BatchNumbers(first, count);
    forall i, j | 0 <= i < j < |Batch(first, count)| ensures Batch(first, count)[i] != Batch(first, count)[j] {
      assert Suffix(Batch(first, count)[i]) != Suffix(Batch(first, count)[j]);
    }
  }

  /** A batch numbered above every number in use collides with no id in use. */
  lemma BatchUnused(ids: seq<string>, first: nat, count: int)
    requires first > MaxSuffix(ids)
    ensures forall i :: 0 <= i < |Batch(first, count)| ==> Batch(first, count)[i] !in ids
  {
    forall i | 0 <= i < |Batch(first, count)| ensures Batch(first, count)[i] !in ids {
      BatchAt(first, count, i);
      FormatIdUnused(ids, first + i);
    }
  }

  /** Asking for one id at a time, recording each before the next request. */
  function Sequential(ids: seq<string>, count: int): seq<string>
    decreases count
  {
    if count <= 0 then [] else [NextId(ids)] + Sequential(ids + [NextId(ids)], count - 1)
  }

  /** Recording a newly allocated id raises the largest number in use by one. */
  lemma MaxAfterRecord(ids: seq<string>)
    ensures MaxSuffix(ids + [NextId(ids)]) == MaxSuffix(ids) + 1
  {
    assert (ids + [NextId(ids)])[..|ids|] == ids;
    SuffixFormatId(MaxSuffix(ids) + 1);
  }

  lemma BatchCons(first: nat, count: int)
    requires count > 0
    ensures Batch(first, count) == [FormatId(first)] + Batch(first + 1, count - 1)
  {
  }

  /** A batch of `count` ids is what `count` single requests would have produced. */
  lemma BatchIsSequential(ids: seq<string>, count: int)
    ensures Sequential(ids, count) == NextIds(ids, count)
  {
    SequentialFrom(ids, count, MaxSuffix(ids));
  }

  lemma {:induction false} SequentialFrom(ids: seq<string>, count: int, m: int)
    requires MaxSuffix(ids) == m
    ensures Sequential(ids, count) == Batch(m + 1, count)
    decreases count
  {
    if count > 0 {
      var next := NextId(ids);
      MaxAfterRecord(ids);
      SequentialFrom(ids + [next], count - 1, m + 1);
      BatchCons(m + 1, count);
    }
  }

  /** `int()` accepts ids shorter than the six-digit format, and ids with a sign or inner whitespace. */
  lemma ValidationAcceptsShort()
    ensures ValidateRollId("R001")
  {
    assert "R001"[1..] == "001";
    ParseDigits("001");
  }

  lemma ValidationAcceptsSign()
    ensures ValidateRollId("R-3")
  {
    assert "R-3"[1..] == "-3";
    assert Strip("-3") == "-3";
    assert "-3"[1..] == "3";
  }

  lemma ValidationRejectsLowerCase()
    ensures !ValidateRollId("r000001")
  {
  }
}
