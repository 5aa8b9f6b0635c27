/**
 * The parts of Python's `str` semantics that the pipeline relies on:
 * `isspace`/`strip`/`split`, ASCII `lower`/`title`, substring tests,
 * and `int(...)` applied to a string. Characters outside ASCII are kept
 * as they are by `lower` and `title`; `isspace` follows Python's full set.
 */
module PyText {
  import opened Wrappers

  /** The number of code point ranges Python's `str.isspace` accepts. */
  const SpaceRangeCount: nat := 10

  /** Range `i` of the code points `str.isspace` accepts, in ascending order. */
  function SpaceRange(i: nat): (r: (char, char))
    requires i < SpaceRangeCount
  {
    if i == 0 then ('\t', '\r')
    else if i == 1 then ('\U{1C}', ' ')
    else if i == 2 then ('\U{85}', '\U{85}')
    else if i == 3 then ('\U{A0}', '\U{A0}')
    else if i == 4 then ('\U{1680}', '\U{1680}')
    else if i == 5 then ('\U{2000}', '\U{200A}')
    else if i == 6 then ('\U{2028}', '\U{2029}')
    else if i == 7 then ('\U{202F}', '\U{202F}')
    else if i == 8 then ('\U{205F}', '\U{205F}')
    else ('\U{3000}', '\U{3000}')
  }

  /** `c` lies in one of the ranges numbered `i` and up. */
  predicate InSpaceRanges(c: char, i: nat)
    decreases SpaceRangeCount - i
  {
    i < SpaceRangeCount && (SpaceRange(i).0 <= c <= SpaceRange(i).1 || InSpaceRanges(c, i + 1))
  }

  /** Python `str.isspace` for one character. */
  predicate IsSpace(c: char) {
    InSpaceRanges(c, 0)
  }

  /** Printable ASCII other than the space is not whitespace. */
  lemma {:induction false} PrintableNotSpace(c: char)
    requires ' ' < c <= '~'
    ensures !IsSpace(c)
  {
    var i := 2;
    while i < SpaceRangeCount
      invariant 2 <= i <= SpaceRangeCount
      invariant InSpaceRanges(c, 0) ==> InSpaceRanges(c, i)
    {
      i := i + 1;
    }
  }

  predicate IsDigit(c: char) { '0' <= c <= '9' }

  predicate IsAsciiLetter(c: char) { ('a' <= c <= 'z') || ('A' <= c <= 'Z') }

  predicate AllSpace(s: string) { forall i :: 0 <= i < |s| ==> IsSpace(s[i]) }

  predicate AllDigits(s: string) { forall i :: 0 <= i < |s| ==> IsDigit(s[i]) }

  /** Every character of `s[i..j]` is whitespace. */
  predicate SpacesIn(s: string, i: nat, j: nat)
    requires i <= j <= |s|
  {
    forall k :: i <= k < j ==> IsSpace(s[k])
  }

  /** Every character of `s[i..j]` is a digit. */
  predicate DigitsIn(s: string, i: nat, j: nat)
    requires i <= j <= |s|
  {
    forall k :: i <= k < j ==> IsDigit(s[k])
  }

  /**
   * `s.strip()`: drops whitespace from the front, then from the back, until
   * the string is empty or begins and ends with a non-whitespace character.
   */
  function Strip(s: string): (r: string)
    ensures |r| <= |s|
    ensures r != [] ==> !IsSpace(r[0]) && !IsSpace(r[|r| - 1])
    decreases |s|
  {
    if s != [] && IsSpace(s[0]) then Strip(s[1..])
    else if s != [] && IsSpace(s[|s| - 1]) then Strip(s[..|s| - 1])
    else s
  }

  /**
   * `strip` removes surrounding whitespace and nothing else: padding a
   * string that has no whitespace at its ends with whitespace on either
   * side and stripping gives the string back.
   */
  lemma {:induction false} StripOfPadded(p: string, r: string, q: string)
    requires AllSpace(p) && AllSpace(q)
    requires r == [] || (!IsSpace(r[0]) && !IsSpace(r[|r| - 1]))
    ensures Strip(p + r + q) == r
    decreases |p| + |q|
  {
    if p != [] {
      StripOfPadded(p[1..], r, q);
      PaddedFront(p, r, q);
    } else if q == [] {
      assert p + r + q == r;
      StripOfTrimmed(r);
    } else if r == [] {
      StripOfPadded([], [], q[1..]);
      PaddedOnlyBack(q);
    } else {
      StripOfPadded([], r, q[..|q| - 1]);
      PaddedBack(r, q);
    }
  }

  /** One step of `StripOfPadded`: a leading whitespace character goes. */
  lemma PaddedFront(p: string, r: string, q: string)
    requires p != [] && IsSpace(p[0])
    requires Strip(p[1..] + r + q) == r
    ensures Strip(p + r + q) == r
  {
    var s := p + r + q;
    assert s[0] == p[0];
    assert s[1..] == p[1..] + r + q;
    StripDropsFirst(s);
  }

  /** One step of `StripOfPadded` on whitespace alone. */
  lemma PaddedOnlyBack(q: string)
    requires q != [] && IsSpace(q[0])
    requires Strip([] + [] + q[1..]) == []
    ensures Strip([] + [] + q) == []
  {
    assert [] + [] + q == q;
    assert [] + [] + q[1..] == q[1..];
    StripDropsFirst(q);
  }

  /** One step of `StripOfPadded`: a trailing whitespace character goes. */
  lemma PaddedBack(r: string, q: string)
    requires r != [] && !IsSpace(r[0])
    requires q != [] && IsSpace(q[|q| - 1])
    requires Strip([] + r + q[..|q| - 1]) == r
    ensures Strip([] + r + q) == r
  {
    var s := [] + r + q;
    assert s[0] == r[0];
    assert s[|s| - 1] == q[|q| - 1];
    assert s[..|s| - 1] == [] + r + q[..|q| - 1];
    StripDropsLast(s);
  }

  /** `strip` drops a leading whitespace character. */
  lemma StripDropsFirst(s: string)
    requires s != [] && IsSpace(s[0])
    ensures Strip(s) == Strip(s[1..])
  {
  }

  /** `strip` drops a trailing whitespace character once the front is clean. */
  lemma StripDropsLast(s: string)
    requires s != [] && !IsSpace(s[0]) && IsSpace(s[|s| - 1])
    ensures Strip(s) == Strip(s[..|s| - 1])
  {
  }

  /** A string without whitespace at either end is its own `strip()`. */
  lemma StripOfTrimmed(s: string)
    requires s == [] || (!IsSpace(s[0]) && !IsSpace(s[|s| - 1]))
    ensures Strip(s) == s
  {
  }

  /** A string that starts and ends with a printable ASCII character other than the space is its own `strip()`. */
  lemma StripOfPrintable(s: string)
    requires s != [] && ' ' < s[0] <= '~' && ' ' < s[|s| - 1] <= '~'
    ensures Strip(s) == s
  {
    PrintableNotSpace(s[0]);
    PrintableNotSpace(s[|s| - 1]);
    StripOfTrimmed(s);
  }

  /** Stripping twice is stripping once. */
  lemma StripIdempotent(s: string)
    ensures Strip(Strip(s)) == Strip(s)
  {
    StripOfTrimmed(Strip(s));
  }

  /** Length of the run of ASCII digits that starts at `i`. */
  function DigitRun(s: string, i: nat): (n: nat)
    requires i <= |s|
    ensures i + n <= |s| && DigitsIn(s, i, i + n)
    ensures i + n < |s| ==> !IsDigit(s[i + n])
    decreases |s| - i
  {
    if i < |s| && IsDigit(s[i]) then 1 + DigitRun(s, i + 1) else 0
  }

  /** A run of `n` digits at `i` that is not followed by another digit is what `DigitRun` measures. */
  lemma {:induction false} DigitRunIs(s: string, i: nat, n: nat)
    requires i + n <= |s| && DigitsIn(s, i, i + n)
    requires i + n == |s| || !IsDigit(s[i + n])
    ensures DigitRun(s, i) == n
    decreases n
  {
    if n > 0 {
      DigitRunIs(s, i + 1, n - 1);
    }
  }

  /** Length of the run of whitespace that starts at `i` (what a regex `\s*` consumes there). */
  function SpaceRun(s: string, i: nat): (n: nat)
    requires i <= |s|
    ensures i + n <= |s| && SpacesIn(s, i, i + n)
    ensures i + n < |s| ==> !IsSpace(s[i + n])
    decreases |s| - i
  {
    if i < |s| && IsSpace(s[i]) then 1 + SpaceRun(s, i + 1) else 0
  }

  /** The index just after the word (maximal run of non-whitespace) that starts at `i`. */
  function WordEnd(s: string, i: nat): (j: nat)
    requires i <= |s|
    ensures i <= j <= |s|
    ensures forall k :: i <= k < j ==> !IsSpace(s[k])
    ensures j < |s| ==> IsSpace(s[j])
    decreases |s| - i
  {
    if i < |s| && !IsSpace(s[i]) then WordEnd(s, i + 1) else i
  }

  /** The number of words in `s[i..]`. */
  function WordsFrom(s: string, i: nat): (n: nat)
    requires i <= |s|
    ensures n <= |s| - i
    ensures n == 0 <==> SpacesIn(s, i, |s|)
    decreases |s| - i
  {
    if i == |s| then 0
    else if IsSpace(s[i]) then WordsFrom(s, i + 1)
    else 1 + WordsFrom(s, WordEnd(s, i))
  }

  /** `len(s.split())`: the number of maximal runs of non-whitespace characters. */
  function WordCount(s: string): (n: nat)
    ensures n <= |s|
    ensures n == 0 <==> AllSpace(s)
  {
    WordsFrom(s, 0)
  }

  function LowerChar(c: char): char {
    if 'A' <= c <= 'Z' then (c as int + 32) as char else c
  }

  function UpperChar(c: char): char {
    if 'a' <= c <= 'z' then (c as int - 32) as char else c
  }

  /** `s.lower()` (ASCII letters are folded; other characters are kept). */
  function Lower(s: string): (r: string)
    ensures |r| == |s|
    ensures forall i :: 0 <= i < |s| ==> r[i] == LowerChar(s[i])
  {
    if s == [] then [] else [LowerChar(s[0])] + Lower(s[1..])
  }

  /** `l` is the lower-cased `t` when it folds `t` character by character. */
  lemma LowerIs(t: string, l: string)
    requires |t| == |l| && forall i :: 0 <= i < |t| ==> LowerChar(t[i]) == l[i]
    ensures Lower(t) == l
  {
  }

  /**
   * `s.title()`: a letter is upper-cased when the character before it is
   * not a letter, and lower-cased otherwise.
   */
  function Title(s: string): string {
    TitleAfter(s, false)
  }

  function TitleAfter(s: string, afterLetter: bool): (r: string)
    ensures |r| == |s|
  {
    if s == [] then []
    else
      var c := s[0];
      var c' := if !IsAsciiLetter(c) then c else if afterLetter then LowerChar(c) else UpperChar(c);
      [c'] + TitleAfter(s[1..], IsAsciiLetter(c))
  }

  predicate StartsWith(s: string, prefix: string) {
    |prefix| <= |s| && s[..|prefix|] == prefix
  }

  predicate EndsWith(s: string, suffix: string) {
    |suffix| <= |s| && s[|s| - |suffix|..] == suffix
  }

  /** Python's `sub in s`. */
  predicate Contains(s: string, sub: string)
    decreases |s|
  {
    StartsWith(s, sub) || (s != [] && Contains(s[1..], sub))
  }

  // ---------------------------------------------------------------------------
  // Decimal numbers: Python `int(text)` and `str(n)`.
  // ---------------------------------------------------------------------------

  function DigitValue(c: char): nat
  {
    if IsDigit(c) then c as int - '0' as int else 0
  }

  /** The value of a run of digits, ignoring the `_` separators `int` admits. */
  function DecimalValue(d: string): nat
  {
    if d == [] then 0
    else if d[|d| - 1] == '_' then DecimalValue(d[..|d| - 1])
    else 10 * DecimalValue(d[..|d| - 1]) + DigitValue(d[|d| - 1])
  }

  /**
   * What `int` accepts after an optional sign: digits, with single
   * underscores allowed only between two digits.
   */
  predicate IsDigitGroup(d: string) {
    |d| > 0 && GroupFrom(d, 0)
  }

  /** Every position of `d` from `i` on satisfies `GroupCharAt`. */
  predicate GroupFrom(d: string, i: nat)
    requires i <= |d|
    decreases |d| - i
  {
    i == |d| || (GroupCharAt(d, i) && GroupFrom(d, i + 1))
  }

  /** Position `i` of a digit group holds a digit, or an `_` between two digits. */
  predicate GroupCharAt(d: string, i: nat)
    requires i < |d|
  {
    IsDigit(d[i]) || (d[i] == '_' && 0 < i < |d| - 1 && IsDigit(d[i - 1]) && IsDigit(d[i + 1]))
  }

  lemma {:induction false} GroupFromAll(d: string, i: nat)
    requires i <= |d|
    ensures GroupFrom(d, i) <==> forall k :: i <= k < |d| ==> GroupCharAt(d, k)
    decreases |d| - i
  {
    if i < |d| {
      GroupFromAll(d, i + 1);
    }
  }

  /** Python `int(s)` for a `str` argument in base 10: None when `int` raises ValueError. */
  function ParseInt(s: string): Option<int>
  {
    var t := Strip(s);
    if t == [] then None
    else if t[0] == '+' || t[0] == '-' then
      if IsDigitGroup(t[1..]) then
        var v: int := DecimalValue(t[1..]);
        Some(if t[0] == '-' then -v else v)
      else None
    else if IsDigitGroup(t) then Some(DecimalValue(t))
    else None
  }

  function DigitChar(n: nat): char
    requires n < 10
  {
    ('0' as int + n) as char
  }

  /** Python `str(n)` for a non-negative integer. */
  function NatToString(n: nat): (s: string)
    ensures |s| > 0 && AllDigits(s)
  {
    if n < 10 then [DigitChar(n)] else NatToString(n / 10) + [DigitChar(n % 10)]
  }

  lemma {:induction false} NatToStringValue(n: nat)
    ensures DecimalValue(NatToString(n)) == n
  {
    var s := NatToString(n);
    if n >= 10 {
      NatToStringValue(n / 10);
      assert s[..|s| - 1] == NatToString(n / 10);
    } else {
      assert s[..|s| - 1] == [];
    }
  }

  /** `int(str(n)) == n`: the parser reads back what the printer writes. */
  lemma ParseIntOfNatToString(n: nat)
    ensures ParseInt(NatToString(n)) == Some(n)
  {
    var s := NatToString(n);
    StripOfPrintable(s);
    assert s[0] != '+' && s[0] != '-';
    GroupFromAll(s, 0);
    assert IsDigitGroup(s);
    NatToStringValue(n);
  }
}
