/**
 * The pieces of Python's `str` behaviour the recorder relies on: stripping, case mapping,
 * substring search, `split`, `replace`, `str(int)`, `int(str)`, zero padding and UTF-8
 * encoding (`str.encode()`).
 */
module Strings {
  import opened Wrappers

  /** A byte of an encoded payload or of a file's contents. */
  type byte = b: int | 0 <= b < 256

  /** The characters for which Python's `str.isspace()` holds; `str.strip()` removes them. */
  predicate IsSpace(c: char) {
    c == ' ' || ('\t' <= c <= '\r') || ('\U{1c}' <= c <= '\U{1f}') || c == '\U{85}'
    || c == '\U{a0}' || c == '\U{1680}' || ('\U{2000}' <= c <= '\U{200a}')
    || c == '\U{2028}' || c == '\U{2029}' || c == '\U{202f}' || c == '\U{205f}' || c == '\U{3000}'
  }

  /** Removes the leading characters that satisfy `drop` (`str.lstrip`). */
  function LStrip(s: string, drop: char -> bool): (r: string)
    ensures |r| <= |s|
    ensures r == [] || !drop(r[0])
    decreases |s|
  {
    if |s| > 0 && drop(s[0]) then LStrip(s[1..], drop) else s
  }

  /** `lstrip` keeps a suffix and removes only characters that satisfy `drop`. */
  lemma {:induction false} LStripSuffix(s: string, drop: char -> bool)
    ensures LStrip(s, drop) == s[|s| - |LStrip(s, drop)|..]
    ensures forall i :: 0 <= i < |s| - |LStrip(s, drop)| ==> drop(s[i])
    decreases |s|
  {
    if |s| > 0 && drop(s[0]) {
      LStripSuffix(s[1..], drop);
    }
  }

  /** Removes the trailing characters that satisfy `drop` (`str.rstrip`). */
  function RStrip(s: string, drop: char -> bool): (r: string)
    ensures |r| <= |s|
    ensures r == [] || !drop(r[|r| - 1])
    decreases |s|
  {
    if |s| > 0 && drop(s[|s| - 1]) then RStrip(s[..|s| - 1], drop) else s
  }

  /** `rstrip` keeps a prefix and removes only characters that satisfy `drop`. */
  lemma {:induction false} RStripPrefix(s: string, drop: char -> bool)
    ensures RStrip(s, drop) == s[..|RStrip(s, drop)|]
    ensures forall i :: |RStrip(s, drop)| <= i < |s| ==> drop(s[i])
    decreases |s|
  {
    if |s| > 0 && drop(s[|s| - 1]) {
      RStripPrefix(s[..|s| - 1], drop);
    }
  }

  /** `str.strip(chars)`: both ends, for the characters that satisfy `drop`. */
  function StripBy(s: string, drop: char -> bool): (r: string)
    ensures |r| <= |s|
    ensures r == [] || (!drop(r[0]) && !drop(r[|r| - 1]))
  {
    var l := LStrip(s, drop);
    RStripPrefix(l, drop);
    RStrip(l, drop)
  }

  /** `s.strip()`: removes surrounding whitespace. */
  function Strip(s: string): string {
    StripBy(s, IsSpace)
  }

  predicate IsAsciiUpper(c: char) { 'A' <= c <= 'Z' }
  predicate IsAsciiLower(c: char) { 'a' <= c <= 'z' }
  predicate IsDigit(c: char) { '0' <= c <= '9' }

  function ToLowerChar(c: char): char {
    if IsAsciiUpper(c) then (c as int + 32) as char else c
  }

  function ToUpperChar(c: char): char {
    if IsAsciiLower(c) then (c as int - 32) as char else c
  }

  /** `str.lower()` on the ASCII letters. */
  function Lower(s: string): (r: string)
    ensures |r| == |s| && forall i :: 0 <= i < |s| ==> r[i] == ToLowerChar(s[i])
  {
    if s == [] then [] else [ToLowerChar(s[0])] + Lower(s[1..])
  }

  /** `str.capitalize()` on the ASCII letters: the first upper-case, the rest lower-case. */
  function Capitalize(s: string): (r: string)
    ensures |r| == |s|
    ensures |s| > 0 ==> r[0] == ToUpperChar(s[0]) && r[1..] == Lower(s[1..])
  {
    if s == [] then [] else [ToUpperChar(s[0])] + Lower(s[1..])
  }

  /** `s.startswith(t)`. */
  predicate StartsWith(s: string, t: string) {
    |t| <= |s| && s[..|t|] == t
  }

  /** `s.endswith(t)`. */
  predicate EndsWith(s: string, t: string) {
    |t| <= |s| && s[|s| - |t|..] == t
  }

  /** `t in s`: `t` occurs in `s` at some index. */
  predicate Contains(s: string, t: string)
    decreases |s|
  {
    StartsWith(s, t) || (|s| > 0 && Contains(s[1..], t))
  }

  /** The index of the first `c` in `s`, or -1 (`str.find`). */
  function Find(s: string, c: char): (i: int)
    ensures -1 <= i < |s|
    ensures i >= 0 ==> s[i] == c
    ensures forall j :: 0 <= j < |s| && (i < 0 || j < i) ==> s[j] != c
  {
    if |s| == 0 then -1
    else if s[0] == c then 0
    else var k := Find(s[1..], c); if k < 0 then -1 else k + 1
  }

  /** The index of the last `c` in `s`, or -1 (`str.rfind`). */
  function RFind(s: string, c: char): (i: int)
    ensures -1 <= i < |s|
    ensures i >= 0 ==> s[i] == c
    ensures forall j :: i < j < |s| ==> s[j] != c
  {
    if |s| == 0 then -1
    else if s[|s| - 1] == c then |s| - 1
    else RFind(s[..|s| - 1], c)
  }

  /** `s.split(c)` for a one-character separator: every piece, empty pieces included. */
  function Split(s: string, c: char): (r: seq<string>)
    ensures |r| >= 1
    decreases |s|
  {
    var i := Find(s, c);
    if i < 0 then [s] else [s[..i]] + Split(s[i + 1..], c)
  }

  /** Joins pieces with a separator (`sep.join(pieces)`). */
  function Join(pieces: seq<string>, sep: string): string {
    if |pieces| == 0 then ""
    else if |pieces| == 1 then pieces[0]
    else pieces[0] + sep + Join(pieces[1..], sep)
  }

  /** Splitting on `c` and joining with `c` gives back the string: `split` loses nothing. */
  lemma {:induction false} JoinSplit(s: string, c: char)
    ensures Join(Split(s, c), [c]) == s
    decreases |s|
  {
    var i := Find(s, c);
    if i >= 0 {
      var head, tail := s[..i], s[i + 1..];
      var rest := Split(tail, c);
      SplitAt(s, c, i);
      JoinSplit(tail, c);
      JoinCons(head, rest, [c]);
      assert s == head + [c] + tail;
    }
  }

  /** Where `c` first occurs at `i`, the split is the text before it, then the split of the rest. */
  lemma SplitAt(s: string, c: char, i: int)
    requires i >= 0 && Find(s, c) == i
    ensures Split(s, c) == [s[..i]] + Split(s[i + 1..], c)
  {
  }

  lemma JoinCons(head: string, rest: seq<string>, sep: string)
    requires |rest| >= 1
    ensures Join([head] + rest, sep) == head + sep + Join(rest, sep)
  {
    assert ([head] + rest)[1..] == rest;
  }

  /** A property of every character of `a` and of `b` holds of every character of `a + b`. */
  lemma ConcatChars(a: string, b: string, p: char -> bool)
    requires forall k :: 0 <= k < |a| ==> p(a[k])
    requires forall k :: 0 <= k < |b| ==> p(b[k])
    ensures forall k :: 0 <= k < |a + b| ==> p((a + b)[k])
  {
    forall k | 0 <= k < |a + b| ensures p((a + b)[k]) {
      if k < |a| { assert (a + b)[k] == a[k]; } else { assert (a + b)[k] == b[k - |a|]; }
    }
  }

  /** Searching `a + b` for a character `a` lacks searches `b`. */
  lemma {:induction false} FindConcat(a: string, b: string, c: char)
    requires forall k :: 0 <= k < |a| ==> a[k] != c
    ensures Find(a + b, c) == if Find(b, c) < 0 then -1 else |a| + Find(b, c)
    decreases |a|
  {
    if a == [] {
      assert a + b == b;
    } else {
      assert (a + b)[1..] == a[1..] + b;
      FindConcat(a[1..], b, c);
    }
  }

  /** The first piece of `s.split(c)` is the text before the first `c`, or all of `s`. */
  lemma SplitHead(s: string, c: char)
    ensures StartsWith(s, Split(s, c)[0])
    ensures forall k :: 0 <= k < |Split(s, c)[0]| ==> Split(s, c)[0][k] != c
    ensures Split(s, c)[0] == s || s[|Split(s, c)[0]|] == c
  {
  }

  /** `t` occurs in `s` at index `p`. */
  predicate OccursAt(s: string, t: string, p: int) {
    0 <= p && p + |t| <= |s| && s[p..p + |t|] == t
  }

  lemma {:induction false} ContainsOccurs(s: string, t: string)
    requires Contains(s, t)
    ensures exists p :: OccursAt(s, t, p)
    decreases |s|
  {
    if StartsWith(s, t) {
      assert OccursAt(s, t, 0);
    } else {
      ContainsOccurs(s[1..], t);
      var p :| OccursAt(s[1..], t, p);
      assert s[1..][p..p + |t|] == s[p + 1..p + 1 + |t|];
      assert OccursAt(s, t, p + 1);
    }
  }

  lemma {:induction false} OccursContains(s: string, t: string, p: int)
    requires OccursAt(s, t, p)
    ensures Contains(s, t)
    decreases p
  {
    if p > 0 {
      assert s[1..][p - 1..p - 1 + |t|] == s[p..p + |t|];
      OccursContains(s[1..], t, p - 1);
    }
  }

  /** The characters at which `str.splitlines()` breaks a line. */
  predicate IsLineBreak(c: char) {
    c == '\n' || c == '\r' || c == '\U{0b}' || c == '\U{0c}' || c == '\U{1c}' || c == '\U{1d}'
    || c == '\U{1e}' || c == '\U{85}' || c == '\U{2028}' || c == '\U{2029}'
  }

  /** The index of the first line break in `s`, or -1. */
  function FindLineBreak(s: string): (i: int)
    ensures -1 <= i < |s|
    ensures i >= 0 ==> IsLineBreak(s[i])
    ensures forall j :: 0 <= j < |s| && (i < 0 || j < i) ==> !IsLineBreak(s[j])
  {
    if |s| == 0 then -1
    else if IsLineBreak(s[0]) then 0
    else var k := FindLineBreak(s[1..]); if k < 0 then -1 else k + 1
  }

  /** `s.splitlines()`: the lines without their line ends; `\r\n` ends one line. */
  function SplitLines(s: string): (r: seq<string>)
    decreases |s|
  {
    if s == [] then []
    else
      var i := FindLineBreak(s);
      if i < 0 then [s]
      else
        var next := if s[i] == '\r' && i + 1 < |s| && s[i + 1] == '\n' then i + 2 else i + 1;
        [s[..i]] + SplitLines(s[next..])
  }

  /** An occurrence of a text without line breaks lies wholly before or wholly after a line break. */
  lemma OccursAroundBreak(s: string, t: string, p: int, i: int)
    requires OccursAt(s, t, p) && 0 <= i < |s| && IsLineBreak(s[i])
    requires forall k :: 0 <= k < |t| ==> !IsLineBreak(t[k])
    ensures p + |t| <= i || i < p
  {
    forall j | p <= j < p + |t| ensures s[j] == t[j - p] {
      assert s[p..p + |t|][j - p] == s[j];
    }
  }

  /** The line after the first break of `s`, and the rest: `s` splits as `[line] + rest`. */
  lemma SplitLinesStep(s: string, i: int, next: int)
    requires s != [] && i == FindLineBreak(s) && i >= 0
    requires next == if s[i] == '\r' && i + 1 < |s| && s[i + 1] == '\n' then i + 2 else i + 1
    ensures SplitLines(s) == [s[..i]] + SplitLines(s[next..])
  {
  }

  lemma OccursInPrefix(s: string, t: string, p: int, i: int)
    requires OccursAt(s, t, p) && p + |t| <= i <= |s|
    ensures Contains(s[..i], t)
  {
    assert s[..i][p..p + |t|] == s[p..p + |t|];
    OccursContains(s[..i], t, p);
  }

  lemma OccursInSuffix(s: string, t: string, p: int, n: int)
    requires OccursAt(s, t, p) && 0 <= n <= p
    ensures Contains(s[n..], t)
  {
    assert s[n..][p - n..p - n + |t|] == s[p..p + |t|];
    OccursContains(s[n..], t, p - n);
  }

  /** An occurrence that does not end before the first line break lies after that line's end. */
  lemma OccursAfterBreak(s: string, t: string, p: int, i: int, next: int)
    requires OccursAt(s, t, p) && |t| > 0 && forall k :: 0 <= k < |t| ==> !IsLineBreak(t[k])
    requires i == FindLineBreak(s) && i >= 0 && p + |t| > i
    requires next == if s[i] == '\r' && i + 1 < |s| && s[i + 1] == '\n' then i + 2 else i + 1
    ensures Contains(s[next..], t)
  {
    OccursAroundBreak(s, t, p, i);
    if next == i + 2 {
      OccursAroundBreak(s, t, p, i + 1);
    }
    OccursInSuffix(s, t, p, next);
  }

  lemma LineOfRest(line: string, rest: seq<string>, t: string)
    requires exists j :: 0 <= j < |rest| && Contains(rest[j], t)
    ensures exists j :: 0 <= j < |[line] + rest| && Contains(([line] + rest)[j], t)
  {
    var j :| 0 <= j < |rest| && Contains(rest[j], t);
    assert ([line] + rest)[j + 1] == rest[j];
  }

  /** A non-empty text without line breaks that occurs in `s` occurs within one of its lines. */
  lemma {:induction false} LineContaining(s: string, t: string)
    requires Contains(s, t) && |t| > 0
    requires forall k :: 0 <= k < |t| ==> !IsLineBreak(t[k])
    ensures exists j :: 0 <= j < |SplitLines(s)| && Contains(SplitLines(s)[j], t)
    decreases |s|
  {
    ContainsOccurs(s, t);
    var p :| OccursAt(s, t, p);
    var i := FindLineBreak(s);
    if i < 0 {
      assert SplitLines(s)[0] == s;
    } else {
      var next := if s[i] == '\r' && i + 1 < |s| && s[i + 1] == '\n' then i + 2 else i + 1;
      SplitLinesStep(s, i, next);
      if p + |t| <= i {
        OccursInPrefix(s, t, p, i);
        assert ([s[..i]] + SplitLines(s[next..]))[0] == s[..i];
      } else {
        OccursAfterBreak(s, t, p, i, next);
        LineContaining(s[next..], t);
        LineOfRest(s[..i], SplitLines(s[next..]), t);
      }
    }
  }

  /** A string containing `t` contains every character of `t`. */
  lemma {:induction false} ContainsFind(s: string, t: string, j: nat)
    requires Contains(s, t) && j < |t|
    ensures Find(s, t[j]) >= 0
    decreases |s|
  {
    if StartsWith(s, t) {
      assert s[j] == t[j];
    } else {
      ContainsFind(s[1..], t, j);
      assert s[1 + Find(s[1..], t[j])] == t[j];
    }
  }
  /** `s.replace(pat, rep)`: every non-overlapping occurrence, scanning left to right. */
  function ReplaceAll(s: string, pat: string, rep: string): string
    requires |pat| > 0
    decreases |s|
  {
    if |s| == 0 then ""
    else if StartsWith(s, pat) then rep + ReplaceAll(s[|pat|..], pat, rep)
    else [s[0]] + ReplaceAll(s[1..], pat, rep)
  }

  /** A string without the first character of `pat` is left alone by `replace`. */
  lemma {:induction false} ReplaceAllAbsent(s: string, pat: string, rep: string)
    requires |pat| > 0 && forall i :: 0 <= i < |s| ==> s[i] != pat[0]
    ensures ReplaceAll(s, pat, rep) == s
    decreases |s|
  {
    if |s| > 0 {
      assert !StartsWith(s, pat) by { assert |pat| > |s| || s[..|pat|][0] != pat[0]; }
      ReplaceAllAbsent(s[1..], pat, rep);
    }
  }

  lemma {:induction false} ReplaceAllThenPattern(s: string, pat: string)
    requires |pat| > 0 && forall i :: 0 <= i < |s| ==> s[i] != pat[0]
    ensures ReplaceAll(s + pat, pat, "") == s
    decreases |s|
  {
    if |s| == 0 {
      assert s + pat == pat;
      assert ReplaceAll(pat[|pat|..], pat, "") == "";
    } else {
      var w := s + pat;
      assert !StartsWith(w, pat) by { assert w[..|pat|][0] == s[0]; }
      assert w[1..] == s[1..] + pat;
      ReplaceAllThenPattern(s[1..], pat);
    }
  }

  // ----- decimal numbers -----

  function DigitChar(d: nat): (c: char)
    requires d < 10
    ensures IsDigit(c) && c as int - '0' as int == d
  {
    ('0' as int + d) as char
  }

  function DigitValue(c: char): nat
    requires IsDigit(c)
  {
    c as int - '0' as int
  }

  predicate AllDigits(s: string) {
    forall i :: 0 <= i < |s| ==> IsDigit(s[i])
  }

  /** `str(n)` for a natural number: decimal digits, no leading zero. */
  function NatToString(n: nat): (r: string)
    ensures |r| >= 1 && AllDigits(r)
    ensures |r| > 1 ==> r[0] != '0'
    decreases n
  {
    if n < 10 then [DigitChar(n)] else NatToString(n / 10) + [DigitChar(n % 10)]
  }

  /** `str(i)` for any integer: a `-` before the digits of a negative number. */
  function IntToString(i: int): (r: string)
    ensures |r| >= 1
    ensures i >= 0 ==> AllDigits(r)
    ensures i < 0 ==> r[0] == '-' && AllDigits(r[1..])
  {
    if i >= 0 then NatToString(i) else "-" + NatToString(-i)
  }

  /** The number a run of decimal digits denotes. */
  function DigitsValue(s: string): nat
    requires AllDigits(s)
  {
    if s == [] then 0 else DigitsValue(s[..|s| - 1]) * 10 + DigitValue(s[|s| - 1])
  }

  lemma {:induction false} DigitsOfNat(n: nat)
    ensures DigitsValue(NatToString(n)) == n
    decreases n
  {
    if n >= 10 {
      DigitsOfNat(n / 10);
      var s := NatToString(n);
      assert s[..|s| - 1] == NatToString(n / 10);
    }
  }

  /**
   * Python's `int(s)` on a string, for ASCII digits: surrounding whitespace is ignored, then an
   * optional sign and at least one digit `0`-`9`; anything else raises `ValueError` (here
   * `None`). Underscores between digits and non-ASCII digits are rejected here.
   */
  function ParseInt(s: string): (r: Option<int>)
    ensures r.Some? ==> |Strip(s)| > 0
  {
    var t := Strip(s);
    if |t| > 1 && (t[0] == '-' || t[0] == '+') && AllDigits(t[1..]) then
      var v: int := DigitsValue(t[1..]);
      Some(if t[0] == '-' then -v else v)
    else if |t| > 0 && AllDigits(t) then
      Some(DigitsValue(t))
    else
      None
  }

  lemma StripOfDigits(s: string)
    requires |s| > 0 && (AllDigits(s) || (s[0] == '-' && AllDigits(s[1..])))
    ensures Strip(s) == s
  {
    assert !IsSpace(s[0]) && !IsSpace(s[|s| - 1]);
  }

  /** `int(str(i)) == i`: printing then parsing an integer gives it back. */
  lemma ParseIntOfIntToString(i: int)
    ensures ParseInt(IntToString(i)) == Some(i)
  {
    var s := IntToString(i);
    StripOfDigits(s);
    if i >= 0 {
      DigitsOfNat(i);
    } else {
      DigitsOfNat(-i);
      assert s[1..] == NatToString(-i);
    }
  }

  /** `n` zeros. */
  function Zeros(k: nat): (r: string)
    ensures |r| == k && AllDigits(r)
  {
    seq(k, _ => '0')
  }

  /** `f"{n:0{width}d}"`: the digits of `n`, padded with zeros on the left to `width`. */
  function ZeroPad(n: nat, width: nat): (r: string)
    ensures |r| >= width && AllDigits(r)
  {
    var d := NatToString(n);
    if |d| >= width then d else Zeros(width - |d|) + d
  }

  function Pow10(k: nat): (r: nat)
    ensures r >= 1
  {
    if k == 0 then 1 else 10 * Pow10(k - 1)
  }

  lemma AllDigitsConcat(s: string, t: string)
    requires AllDigits(s) && AllDigits(t)
    ensures AllDigits(s + t)
  {
    forall i | 0 <= i < |s + t| ensures IsDigit((s + t)[i]) {
      if i < |s| { assert (s + t)[i] == s[i]; } else { assert (s + t)[i] == t[i - |s|]; }
    }
  }

  lemma ShiftDigits(a: int, p: int, b: int, d: int)
    ensures (a * p + b) * 10 + d == a * (10 * p) + (b * 10 + d)
  {
  }

  lemma {:induction false} DigitsValueConcat(s: string, t: string)
    requires AllDigits(s) && AllDigits(t)
    ensures AllDigits(s + t) && DigitsValue(s + t) == DigitsValue(s) * Pow10(|t|) + DigitsValue(t)
    decreases |t|
  {
    AllDigitsConcat(s, t);
    if t != [] {
      var w := s + t;
      var t' := t[..|t| - 1];
      assert AllDigits(t');
      var d := DigitValue(t[|t| - 1]);
      assert w[..|w| - 1] == s + t';
      assert w[|w| - 1] == t[|t| - 1];
      DigitsValueConcat(s, t');
      ShiftDigits(DigitsValue(s), Pow10(|t'|), DigitsValue(t'), d);
    } else {
      assert s + t == s;
    }
  }

  lemma {:induction false} DigitsValueOfZeros(k: nat)
    ensures DigitsValue(Zeros(k)) == 0
  {
    if k > 0 {
      assert Zeros(k)[..k - 1] == Zeros(k - 1);
      DigitsValueOfZeros(k - 1);
    }
  }

  /** A number below `10^k` has at most `k` digits. */
  lemma {:induction false} NatToStringLength(n: nat, k: nat)
    requires 0 < k && n < Pow10(k)
    ensures |NatToString(n)| <= k
    decreases k
  {
    if n >= 10 {
      NatToStringLength(n / 10, k - 1);
    }
  }

  /** Zero padding keeps the value: a padded field reads back as the number. */
  lemma ZeroPadValue(n: nat, width: nat)
    ensures DigitsValue(ZeroPad(n, width)) == n
  {
    var d := NatToString(n);
    DigitsOfNat(n);
    if |d| < width {
      var z := Zeros(width - |d|);
      assert ZeroPad(n, width) == z + d;
      DigitsValueConcat(z, d);
      DigitsValueOfZeros(width - |d|);
      assert DigitsValue(z) * Pow10(|d|) == 0;
    }
  }

  /** A number below `10^width` pads to exactly `width` digits. */
  lemma ZeroPadLength(n: nat, width: nat)
    requires 0 < width && n < Pow10(width)
    ensures |ZeroPad(n, width)| == width
  {
    NatToStringLength(n, width);
  }

  // ----- UTF-8 (`str.encode()`) -----

  /** The UTF-8 encoding of one Unicode scalar value. */
  function Utf8Char(c: char): (r: seq<byte>)
    ensures 1 <= |r| <= 4
    ensures c as int < 0x80 ==> r == [c as int]
  {
    var n := c as int;
    if n < 0x80 then [n]
    else if n < 0x800 then [0xC0 + n / 0x40, 0x80 + n % 0x40]
    else if n < 0x1_0000 then [0xE0 + n / 0x1000, 0x80 + (n / 0x40) % 0x40, 0x80 + n % 0x40]
    else [0xF0 + n / 0x4_0000, 0x80 + (n / 0x1000) % 0x40, 0x80 + (n / 0x40) % 0x40, 0x80 + n % 0x40]
  }

  /** `s.encode("utf-8")`. */
  function Utf8(s: string): (r: seq<byte>)
    ensures |r| >= |s|
  {
    if s == [] then [] else Utf8Char(s[0]) + Utf8(s[1..])
  }

  /** Encoding distributes over concatenation, so a payload can be encoded piece by piece. */
  lemma {:induction false} Utf8Concat(a: string, b: string)
    ensures Utf8(a + b) == Utf8(a) + Utf8(b)
    decreases |a|
  {
    if a != [] {
      assert (a + b)[0] == a[0];
      assert (a + b)[1..] == a[1..] + b;
      Utf8Concat(a[1..], b);
    } else {
      assert a + b == b;
    }
  }

  /** The lines, each followed by a newline. */
  function Lines(ls: seq<string>): string {
    if ls == [] then "" else ls[0] + "\n" + Lines(ls[1..])
  }

  predicate OneLine(s: string) {
    forall k :: 0 <= k < |s| ==> s[k] != '\n'
  }

  /** Lines without newlines of their own come back from `split("\n")`, with the empty tail. */
  lemma {:induction false} LinesSplit(ls: seq<string>)
    requires forall i :: 0 <= i < |ls| ==> OneLine(ls[i])
    ensures Split(Lines(ls), '\n') == ls + [""]
  {
    if ls == [] {
      assert Find("", '\n') == -1;
    } else {
      var tail := ls[1..];
      assert forall i :: 0 <= i < |tail| ==> OneLine(tail[i]) by {
        forall i | 0 <= i < |tail| ensures OneLine(tail[i]) {
          assert tail[i] == ls[i + 1];
        }
      }
      LinesSplit(tail);
      SplitAfterLine(ls, Lines(ls), Lines(tail));
    }
  }

  /** A first line without newlines, then a newline: `split` yields that line, then the rest's pieces. */
  lemma SplitAfterLine(ls: seq<string>, s: string, rest: string)
    requires ls != [] && OneLine(ls[0]) && s == ls[0] + "\n" + rest && Split(rest, '\n') == ls[1..] + [""]
    ensures Split(s, '\n') == ls + [""]
  {
    var u := ls[0];
    FindAfterLine(u, rest);
    PartsAfterLine(u, rest);
    SplitAt(s, '\n', |u|);
    assert ls == [u] + ls[1..];
  }

  lemma FindAfterLine(u: string, rest: string)
    requires OneLine(u)
    ensures Find(u + "\n" + rest, '\n') == |u|
  {
    FindConcat(u, "\n" + rest, '\n');
    assert Find("\n" + rest, '\n') == 0;
    assert u + "\n" + rest == u + ("\n" + rest);
  }

  lemma PartsAfterLine(u: string, rest: string)
    ensures (u + "\n" + rest)[..|u|] == u && (u + "\n" + rest)[|u| + 1..] == rest
  {
  }

  /** `Lines` distributes over concatenation. */
  lemma {:induction false} LinesAppend(a: seq<string>, b: seq<string>)
    ensures Lines(a + b) == Lines(a) + Lines(b)
  {
    if a != [] {
      assert (a + b)[0] == a[0] && (a + b)[1..] == a[1..] + b;
      LinesAppend(a[1..], b);
    } else {
      assert a + b == b;
    }
  }

  /** Appending the lines of `a` and then those of `b` appends the lines of `a + b`. */
  lemma LinesAfter(m: string, a: seq<string>, b: seq<string>)
    ensures m + Lines(a) + Lines(b) == m + Lines(a + b)
  {
    LinesAppend(a, b);
    assert m + Lines(a) + Lines(b) == m + (Lines(a) + Lines(b));
  }
}
