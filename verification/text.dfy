/**
 * The string operations of Python's `str` that the inventory code relies on:
 * whitespace, lower-casing, `capitalize`, the `in` substring test, ordering,
 * `split`, `strip`, `join` and slicing with possibly negative bounds.
 */
module Text {

  /** The characters for which Python's `str.isspace()` holds. */
  predicate IsSpace(c: char) {
    || c == ' '
    || ('\t' <= c <= '\r')
    || ('\U{1c}' <= c <= '\U{1f}')
    || c == '\U{85}' || c == '\U{a0}' || c == '\U{1680}'
    || ('\U{2000}' <= c <= '\U{200a}')
    || c == '\U{2028}' || c == '\U{2029}' || c == '\U{202f}' || c == '\U{205f}' || c == '\U{3000}'
  }

  predicate NoSpace(s: string) {
    forall i :: 0 <= i < |s| ==> !IsSpace(s[i])
  }

  function LowerChar(c: char): char {
    if 'A' <= c <= 'Z' then (c as int + 32) as char else c
  }

  function UpperChar(c: char): char {
    if 'a' <= c <= 'z' then (c as int - 32) as char else c
  }

  /** `s.lower()` */
  function Lower(s: string): (r: string)
    ensures |r| == |s|
    ensures forall i :: 0 <= i < |s| ==> r[i] == LowerChar(s[i])
  {
    seq(|s|, i requires 0 <= i < |s| => LowerChar(s[i]))
  }

  /** `s.capitalize()`: the first character upper-cased, the rest lower-cased. */
  function Capitalize(s: string): (r: string)
    ensures |r| == |s|
    ensures s != [] ==> r[0] == UpperChar(s[0]) && r[1..] == Lower(s[1..])
  {
    if s == [] then [] else [UpperChar(s[0])] + Lower(s[1..])
  }

  predicate StartsWith(s: string, prefix: string) {
    |prefix| <= |s| && s[..|prefix|] == prefix
  }

  /** Python's `part in s`. */
  predicate Contains(s: string, part: string)
    decreases |s|
  {
    StartsWith(s, part) || (s != [] && Contains(s[1..], part))
  }

  /** Python's `a < b` on strings: lexicographic by code point. */
  predicate StrLess(a: string, b: string)
    decreases |a|
  {
    if a == [] then b != []
    else if b == [] then false
    else a[0] < b[0] || (a[0] == b[0] && StrLess(a[1..], b[1..]))
  }

  lemma {:induction false} StrLessTrichotomy(a: string, b: string)
    ensures StrLess(a, b) || a == b || StrLess(b, a)
    ensures !(StrLess(a, b) && StrLess(b, a))
    decreases |a|
  {
    if a != [] && b != [] && a[0] == b[0] {
      StrLessTrichotomy(a[1..], b[1..]);
      if a[1..] == b[1..] {
        assert a == [a[0]] + a[1..] && b == [b[0]] + b[1..];
      }
    }
  }

  lemma {:induction false} StrLessTransitive(a: string, b: string, c: string)
    requires StrLess(a, b) && StrLess(b, c)
    ensures StrLess(a, c)
    decreases |a|
  {
    if a != [] && a[0] == b[0] && b[0] == c[0] {
      StrLessTransitive(a[1..], b[1..], c[1..]);
    }
  }

  /** `a <= b` on strings is a total preorder that is transitive. */
  lemma StrLeTransitive(a: string, b: string, c: string)
    requires !StrLess(b, a) && !StrLess(c, b)
    ensures !StrLess(c, a)
  {
    StrLessTrichotomy(a, b);
    StrLessTrichotomy(b, c);
    if StrLess(c, a) {
      if StrLess(a, b) {
        StrLessTransitive(c, a, b);
      }
    }
  }

  function Min(a: int, b: int): int {
    if a <= b then a else b
  }

  /** No element occurs twice. */
  predicate Distinct<T(==)>(s: seq<T>) {
    forall i, j :: 0 <= i < j < |s| ==> s[i] != s[j]
  }

  /** Python's `s[start:]` for any integer `start`. */
  function PyFrom<T>(s: seq<T>, start: int): (r: seq<T>)
    ensures |r| <= |s| && r == s[|s| - |r|..]
  {
    if start >= 0 then (if start <= |s| then s[start..] else [])
    else if |s| + start >= 0 then s[|s| + start..] else s
  }

  /** Python's `s[:end]` for any integer `end`. */
  function PyUpTo<T>(s: seq<T>, end: int): (r: seq<T>)
    ensures |r| <= |s| && r == s[..|r|]
    ensures end >= 0 ==> |r| == Min(end, |s|)
    ensures end < 0 ==> |r| == if |s| + end >= 0 then |s| + end else 0
  {
    if end >= 0 then (if end <= |s| then s[..end] else s)
    else if |s| + end >= 0 then s[..|s| + end] else []
  }

  /** `sep.join(parts)` */
  function Join(parts: seq<string>, sep: string): string {
    if parts == [] then ""
    else if |parts| == 1 then parts[0]
    else parts[0] + sep + Join(parts[1..], sep)
  }

  /** Joining two non-empty lists is joining each and putting the separator between. */
  lemma {:induction false} JoinConcat(a: seq<string>, b: seq<string>, sep: string)
    requires a != [] && b != []
    ensures Join(a + b, sep) == Join(a, sep) + sep + Join(b, sep)
  {
    if |a| > 1 {
      assert (a + b)[1..] == a[1..] + b;
      JoinConcat(a[1..], b, sep);
    } else {
      assert (a + b)[1..] == b;
    }
  }

  /** `s.split(sep)` for a one-character separator. */
  function Split(s: string, sep: char): (parts: seq<string>)
    ensures |parts| >= 1
    ensures forall i :: 0 <= i < |parts| ==> sep !in parts[i]
    ensures Join(parts, [sep]) == s
  {
    if s == [] then [[]]
    else
      var rest := Split(s[1..], sep);
      if s[0] == sep then
        assert s == [sep] + Join(rest, [sep]);
        [[]] + rest
      else
        assert s == [s[0]] + s[1..];
        [[s[0]] + rest[0]] + rest[1..]
  }

  /** Splitting a join of separator-free parts gives the parts back. */
  lemma {:induction false} SplitJoin(parts: seq<string>, sep: char)
    requires |parts| >= 1
    requires forall i :: 0 <= i < |parts| ==> sep !in parts[i]
    ensures Split(Join(parts, [sep]), sep) == parts
    decreases |Join(parts, [sep])|
  {
    var s := Join(parts, [sep]);
    if parts[0] == [] {
      if |parts| > 1 {
        assert s == [sep] + Join(parts[1..], [sep]);
        assert s[1..] == Join(parts[1..], [sep]);
        SplitJoin(parts[1..], sep);
        assert parts == [[]] + parts[1..];
      }
    } else {
      var c := parts[0][0];
      var shorter := [parts[0][1..]] + parts[1..];
      if |parts| > 1 {
        assert shorter[1..] == parts[1..];
        assert s == [c] + Join(shorter, [sep]);
      } else {
        assert s == [c] + Join(shorter, [sep]);
      }
      assert s[1..] == Join(shorter, [sep]);
      forall i | 0 <= i < |shorter| ensures sep !in shorter[i] {
        if i == 0 {
          assert parts[0] == [c] + parts[0][1..];
        }
      }
      SplitJoin(shorter, sep);
      assert parts[0] == [c] + shorter[0];
      assert parts == [[c] + shorter[0]] + shorter[1..];
    }
  }

  /** `s.lstrip()` */
  function StripLeft(s: string): (r: string)
    ensures |r| <= |s| && r == s[|s| - |r|..]
    ensures r == [] || !IsSpace(r[0])
  {
    if s != [] && IsSpace(s[0]) then StripLeft(s[1..]) else s
  }

  /** `s.rstrip()` */
  function StripRight(s: string): (r: string)
    ensures |r| <= |s| && r == s[..|r|]
    ensures r == [] || !IsSpace(r[|r| - 1])
  {
    if s != [] && IsSpace(s[|s| - 1]) then StripRight(s[..|s| - 1]) else s
  }

  /** `lstrip` removes whitespace only. */
  lemma {:induction false} StripLeftDropsSpace(s: string)
    ensures forall i :: 0 <= i < |s| - |StripLeft(s)| ==> IsSpace(s[i])
    decreases |s|
  {
    if s != [] && IsSpace(s[0]) {
      StripLeftDropsSpace(s[1..]);
      forall i | 1 <= i < |s| - |StripLeft(s)| ensures IsSpace(s[i]) {
        assert s[i] == s[1..][i - 1];
      }
    }
  }

  /** `rstrip` removes whitespace only. */
  lemma {:induction false} StripRightDropsSpace(s: string)
    ensures forall i :: |StripRight(s)| <= i < |s| ==> IsSpace(s[i])
    decreases |s|
  {
    if s != [] && IsSpace(s[|s| - 1]) {
      StripRightDropsSpace(s[..|s| - 1]);
    }
  }

  /** `s.strip()` */
  function Strip(s: string): (r: string)
    ensures r == [] || (!IsSpace(r[0]) && !IsSpace(r[|r| - 1]))
    ensures s != [] && !IsSpace(s[0]) && !IsSpace(s[|s| - 1]) ==> r == s
  {
    StripRight(StripLeft(s))
  }

  /**
   * What `strip` keeps: the slice of `s` that starts after its `lead`
   * leading whitespace characters and is followed by whitespace only.
   */
  lemma StripSlice(s: string)
    ensures var lead := |s| - |StripLeft(s)|;
      && lead + |Strip(s)| <= |s| && Strip(s) == s[lead..lead + |Strip(s)|]
      && (forall i :: 0 <= i < lead ==> IsSpace(s[i]))
      && (forall i :: lead + |Strip(s)| <= i < |s| ==> IsSpace(s[i]))
  {
    var l := StripLeft(s);
    var lead := |s| - |l|;
    var r := StripRight(l);
    StripLeftDropsSpace(s);
    StripRightDropsSpace(l);
    SliceOfSuffix(s, lead, |r|);
    forall i | lead + |r| <= i < |s| ensures IsSpace(s[i]) {
      assert s[i] == s[lead..][i - lead];
    }
  }

  lemma SliceOfSuffix(s: string, k: nat, n: nat)
    requires k + n <= |s|
    ensures s[k..][..n] == s[k..k + n]
  {
  }

  /** Stripping twice is stripping once. */
  lemma StripIdempotent(s: string)
    ensures Strip(Strip(s)) == Strip(s)
  {
  }

  /** Length of the run of non-space characters at the start of `s`. */
  function WordLength(s: string): (n: nat)
    requires s != [] && !IsSpace(s[0])
    ensures 1 <= n <= |s| && NoSpace(s[..n])
    ensures n < |s| ==> IsSpace(s[n])
  {
    if |s| == 1 || IsSpace(s[1]) then 1 else 1 + WordLength(s[1..])
  }

  /** `s.split()` with no argument: the maximal runs of non-whitespace characters. */
  function Words(s: string): (ws: seq<string>)
    ensures forall i :: 0 <= i < |ws| ==> ws[i] != [] && NoSpace(ws[i])
    decreases |s|
  {
    if s == [] then []
    else if IsSpace(s[0]) then Words(s[1..])
    else
      var n := WordLength(s);
      [s[..n]] + Words(s[n..])
  }

  /** A word length is unchanged by what follows the word, once a space or the end follows it. */
  lemma {:induction false} WordLengthPrefix(a: string, t: string)
    requires a != [] && !IsSpace(a[0])
    requires t == [] || IsSpace(t[0])
    ensures WordLength(a + t) == WordLength(a)
    decreases |a|
  {
    if |a| > 1 && !IsSpace(a[1]) {
      assert (a + t)[1..] == a[1..] + t;
      WordLengthPrefix(a[1..], t);
    }
  }

  /** A whitespace character separates: the words around it are the words of each side. */
  lemma WordsSplitAtSpace(a: string, c: char, b: string)
    requires IsSpace(c)
    ensures Words(a + [c] + b) == Words(a) + Words(b)
  {
    var t := [c] + b;
    assert a + [c] + b == a + t;
    assert Words(t) == Words(b) by {
      assert t[1..] == b;
    }
    WordsBeforeSpace(a, t);
  }

  lemma {:induction false} WordsBeforeSpace(a: string, t: string)
    requires t != [] && IsSpace(t[0])
    ensures Words(a + t) == Words(a) + Words(t)
    decreases |a|
  {
    if a == [] {
      assert a + t == t;
    } else if IsSpace(a[0]) {
      assert (a + t)[1..] == a[1..] + t;
      WordsBeforeSpace(a[1..], t);
    } else {
      WordsAfterWord(a, t);
    }
  }

  lemma {:induction false} WordsAfterWord(a: string, t: string)
    requires t != [] && IsSpace(t[0])
    requires a != [] && !IsSpace(a[0])
    ensures Words(a + t) == Words(a) + Words(t)
    decreases |a|, 0
  {
    var n := WordLength(a);
    WordLengthPrefix(a, t);
    var s := a + t;
    assert s[..n] == a[..n];
    assert s[n..] == a[n..] + t;
    WordsBeforeSpace(a[n..], t);
  }

  /** A non-empty run without whitespace is one word. */
  lemma WordsOfWord(w: string)
    requires w != [] && NoSpace(w)
    ensures Words(w) == [w]
  {
    var n := WordLength(w);
    assert n == |w| by {
      assert forall i :: 0 <= i < |w| ==> !IsSpace(w[i]);
    }
    assert !IsSpace(w[0]);
    assert w[..n] == w;
    assert w[n..] == [];
  }

  /** A string of whitespace only has no words. */
  lemma {:induction false} WordsOfSpace(s: string)
    requires forall i :: 0 <= i < |s| ==> IsSpace(s[i])
    ensures Words(s) == []
    decreases |s|
  {
    if s != [] {
      WordsOfSpace(s[1..]);
    }
  }
}
