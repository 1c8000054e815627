/** The Python `str` operations the backend relies on, written out over
    `seq<char>`: strip, split on a separator, split on whitespace, splitlines,
    join, ASCII upper/lower case, substring test, decimal rendering and zfill. */
module PyStr {

  // ---------------------------------------------------------------------------
  // Character classes
  // ---------------------------------------------------------------------------

  /** Python's `str.isspace` for one character (the Unicode White_Space set
      Python uses: tab..carriage return, the four information separators,
      space, NEL, no-break space and the Unicode space characters). */
  predicate IsSpace(c: char) {
    var n := c as int;
    (9 <= n <= 13) || (28 <= n <= 32) || n == 0x85 || n == 0xA0 || n == 0x1680
    || (0x2000 <= n <= 0x200A) || n == 0x2028 || n == 0x2029 || n == 0x202F
    || n == 0x205F || n == 0x3000
  }

  /** The characters at which Python's `str.splitlines` ends a line. */
  predicate IsLineBreak(c: char) {
    var n := c as int;
    (10 <= n <= 13) || (28 <= n <= 30) || n == 0x85 || n == 0x2028 || n == 0x2029
  }

  lemma LineBreakIsSpace(c: char)
    ensures IsLineBreak(c) ==> IsSpace(c)
  {
  }

  predicate NoSpace(s: string) {
    forall i :: 0 <= i < |s| ==> !IsSpace(s[i])
  }

  // ---------------------------------------------------------------------------
  // strip
  // ---------------------------------------------------------------------------

  /** The first index at or after `i` that does not hold whitespace, or
      `|s|`. */
  function SkipSpace(s: string, i: nat): (k: nat)
    requires i <= |s|
    ensures i <= k <= |s|
    ensures forall j :: i <= j < k ==> IsSpace(s[j])
    ensures k < |s| ==> !IsSpace(s[k])
    decreases |s| - i
  {
    if i < |s| && IsSpace(s[i]) then SkipSpace(s, i + 1) else i
  }

  /** The end of `s[lo..e]` once its trailing whitespace is dropped. */
  function TrimEnd(s: string, lo: nat, e: nat): (k: nat)
    requires lo <= e <= |s|
    ensures lo <= k <= e
    ensures forall j :: k <= j < e ==> IsSpace(s[j])
    ensures k > lo ==> !IsSpace(s[k - 1])
    decreases e
  {
    if e > lo && IsSpace(s[e - 1]) then TrimEnd(s, lo, e - 1) else e
  }

  /** `s.lstrip()`: the suffix left after dropping leading whitespace. */
  function LStrip(s: string): (r: string)
    ensures |r| <= |s|
    ensures r == [] || !IsSpace(r[0])
  {
    s[SkipSpace(s, 0)..]
  }

  /** A string with no whitespace at either end. */
  predicate IsStripped(s: string) {
    s == [] || (!IsSpace(s[0]) && !IsSpace(s[|s| - 1]))
  }

  /** `s.strip()`: the slice between the leading and the trailing
      whitespace. */
  function Strip(s: string): (r: string)
    ensures |r| <= |s|
    ensures IsStripped(r)
    ensures r == [] <==> forall i :: 0 <= i < |s| ==> IsSpace(s[i])
  {
    var a := SkipSpace(s, 0);
    var b := TrimEnd(s, a, |s|);
    assert a < |s| ==> b > a;
    s[a..b]
  }

  /** `strip()` keeps a slice of its input and drops only whitespace on
      either side of it. */
  lemma StripSlice(s: string)
    ensures exists a, b :: 0 <= a <= b <= |s| && Strip(s) == s[a..b]
                           && (forall j :: 0 <= j < a ==> IsSpace(s[j]))
                           && (forall j :: b <= j < |s| ==> IsSpace(s[j]))
  {
    var a := SkipSpace(s, 0);
    var b := TrimEnd(s, a, |s|);
    assert Strip(s) == s[a..b];
  }

  lemma StrippedFixpoint(s: string)
    requires IsStripped(s)
    ensures Strip(s) == s
  {
    if s != [] {
      assert SkipSpace(s, 0) == 0;
      assert TrimEnd(s, 0, |s|) == |s|;
    }
  }

  lemma StripIdempotent(s: string)
    ensures Strip(Strip(s)) == Strip(s)
  {
    StrippedFixpoint(Strip(s));
  }

  /** Stripping only removes characters. */
  lemma StripKeeps(s: string, c: char)
    ensures c in Strip(s) ==> c in s
  {
    var a := SkipSpace(s, 0);
    var b := TrimEnd(s, a, |s|);
    if c in Strip(s) {
      var k :| 0 <= k < b - a && s[a..b][k] == c;
      assert s[a + k] == c;
    }
  }

  /** A single space in front of a stripped string is stripped away. */
  lemma StripSpacePrefix(x: string)
    requires x != [] && IsStripped(x)
    ensures Strip(" " + x) == x
  {
    var s := " " + x;
    assert SkipSpace(s, 1) == 1;
    assert SkipSpace(s, 0) == 1;
    assert TrimEnd(s, 1, |s|) == |s|;
    assert s[1..|s|] == x;
  }

  /** Every string of the list is non-empty and stripped. */
  predicate AllClean(xs: seq<string>) {
    forall i :: 0 <= i < |xs| ==> xs[i] != [] && IsStripped(xs[i])
  }

  lemma ConsClean(s: string, rest: seq<string>)
    requires s != [] && IsStripped(s) && AllClean(rest)
    ensures AllClean([s] + rest)
  {
    var r := [s] + rest;
    forall i | 0 <= i < |r|
      ensures r[i] != [] && IsStripped(r[i])
    {
      if i > 0 {
        assert r[i] == rest[i - 1];
      }
    }
  }

  /** `[p.strip() for p in parts if p.strip()]`. */
  function StripNonEmpty(parts: seq<string>): (r: seq<string>)
    ensures |r| <= |parts|
    ensures AllClean(r)
    decreases |parts|
  {
    if parts == [] then []
    else
      var rest := StripNonEmpty(parts[1..]);
      var s := Strip(parts[0]);
      if s == [] then rest
      else
        ConsClean(s, rest);
        [s] + rest
  }

  /** A character absent from every piece is absent from every kept piece. */
  lemma {:induction false} StripNonEmptyFree(parts: seq<string>, c: char)
    requires forall i :: 0 <= i < |parts| ==> c !in parts[i]
    ensures forall i :: 0 <= i < |StripNonEmpty(parts)| ==> c !in StripNonEmpty(parts)[i]
    decreases |parts|
  {
    if parts != [] {
      var tail := parts[1..];
      assert forall i :: 0 <= i < |tail| ==> tail[i] == parts[i + 1];
      StripNonEmptyFree(tail, c);
      StripKeeps(parts[0], c);
    }
  }

  /** The comprehension works piece by piece: the kept pieces of a
      concatenation are the concatenated kept pieces, in order. */
  lemma {:induction false} StripNonEmptyAppend(a: seq<string>, b: seq<string>)
    ensures StripNonEmpty(a + b) == StripNonEmpty(a) + StripNonEmpty(b)
    decreases |a|
  {
    if a == [] {
      assert a + b == b;
    } else {
      var head, tail := a[0], a[1..];
      assert (a + b)[0] == head && (a + b)[1..] == tail + b;
      StripNonEmptyAppend(tail, b);
    }
  }

  /** Nothing is kept exactly when every piece is blank. */
  lemma {:induction false} StripNonEmptyBlank(parts: seq<string>)
    ensures StripNonEmpty(parts) == [] <==> forall i :: 0 <= i < |parts| ==> Strip(parts[i]) == []
    decreases |parts|
  {
    if parts != [] {
      var tail := parts[1..];
      assert forall i :: 0 <= i < |tail| ==> tail[i] == parts[i + 1];
      StripNonEmptyBlank(tail);
    }
  }

  /** Pieces that are already non-empty and stripped are kept as they are. */
  lemma {:induction false} StripNonEmptyFixpoint(xs: seq<string>)
    requires forall i :: 0 <= i < |xs| ==> xs[i] != [] && IsStripped(xs[i])
    ensures StripNonEmpty(xs) == xs
    decreases |xs|
  {
    if xs != [] {
      var head, tail := xs[0], xs[1..];
      assert xs == [head] + tail;
      StrippedFixpoint(head);
      StripNonEmptyFixpoint(tail);
    }
  }

  // ---------------------------------------------------------------------------
  // join and split on one separator character
  // ---------------------------------------------------------------------------

  /** `sep.join(parts)`. */
  function Join(sep: string, parts: seq<string>): (r: string)
    ensures |parts| == 1 ==> r == parts[0]
  {
    if |parts| == 0 then ""
    else if |parts| == 1 then parts[0]
    else parts[0] + sep + Join(sep, parts[1..])
  }

  /** `s.split(sep)` for a one-character separator: always at least one
      piece, no piece holds the separator, and joining the pieces back with
      the separator gives `s` again. */
  function Split(s: string, sep: char): (r: seq<string>)
    ensures |r| >= 1
    ensures forall i :: 0 <= i < |r| ==> sep !in r[i]
    ensures Join([sep], r) == s
  {
    if s == [] then [[]]
    else
      var rest := Split(s[1..], sep);
      if s[0] == sep then [[]] + rest
      else
        var r := [[s[0]] + rest[0]] + rest[1..];
        assert Join([sep], r) == s by {
          if |rest| > 1 {
            assert r[1..] == rest[1..];
          }
        }
        r
  }

  lemma {:induction false} SplitPrefix(p: string, t: string, sep: char)
    requires sep !in p
    ensures Split(p + t, sep) == [p + Split(t, sep)[0]] + Split(t, sep)[1..]
  {
    if p != [] {
      var x := Split(t, sep);
      assert (p + t)[0] == p[0] && (p + t)[1..] == p[1..] + t;
      SplitPrefix(p[1..], t, sep);
      var rest := Split(p[1..] + t, sep);
      assert rest == [p[1..] + x[0]] + x[1..];
      assert Split(p + t, sep) == [[p[0]] + rest[0]] + rest[1..];
      assert [p[0]] + rest[0] == p + x[0];
      assert rest[1..] == x[1..];
    } else {
      var x := Split(t, sep);
      assert p + t == t && p + x[0] == x[0];
      assert [x[0]] + x[1..] == x;
    }
  }

  /** Splitting a separator-joined list of separator-free pieces gives the
      pieces back. */
  lemma {:induction false} SplitJoin(parts: seq<string>, sep: char)
    requires |parts| >= 1
    requires forall i :: 0 <= i < |parts| ==> sep !in parts[i]
    ensures Split(Join([sep], parts), sep) == parts
  {
    if |parts| == 1 {
      SplitPrefix(parts[0], [], sep);
    } else {
      var rest := Join([sep], parts[1..]);
      SplitJoin(parts[1..], sep);
      assert Join([sep], parts) == parts[0] + ([sep] + rest);
      SplitPrefix(parts[0], [sep] + rest, sep);
      var x := Split([sep] + rest, sep);
      assert ([sep] + rest)[0] == sep && ([sep] + rest)[1..] == rest;
      assert x == [[]] + parts[1..];
      assert x[0] == [] && x[1..] == parts[1..];
      assert parts[0] + x[0] == parts[0];
      assert [parts[0]] + parts[1..] == parts;
    }
  }

  // ---------------------------------------------------------------------------
  // split() on runs of whitespace
  // ---------------------------------------------------------------------------

  /** The longest prefix of `s` that holds no whitespace. */
  function TakeWord(s: string): (w: string)
    ensures |w| <= |s| && w == s[..|w|] && NoSpace(w)
    ensures |w| < |s| ==> IsSpace(s[|w|])
  {
    if s == [] || IsSpace(s[0]) then [] else [s[0]] + TakeWord(s[1..])
  }

  /** `s.split()` with no argument: the maximal runs of non-whitespace. */
  function Words(s: string): (r: seq<string>)
    ensures forall i :: 0 <= i < |r| ==> r[i] != [] && NoSpace(r[i])
    decreases |s|
  {
    var t := LStrip(s);
    if t == [] then []
    else
      var w := TakeWord(t);
      [w] + Words(t[|w|..])
  }

  lemma {:induction false} TakeWordOf(w: string, t: string)
    requires NoSpace(w)
    requires t == [] || IsSpace(t[0])
    ensures TakeWord(w + t) == w
  {
    if w != [] {
      assert (w + t)[1..] == w[1..] + t;
      TakeWordOf(w[1..], t);
    }
  }

  /** Skipping whitespace in a suffix is skipping it in the string. */
  lemma {:induction false} SkipSpaceShift(t: string, i: nat)
    requires 1 <= i <= |t|
    ensures SkipSpace(t[1..], i - 1) + 1 == SkipSpace(t, i)
    decreases |t| - i
  {
    if i < |t| {
      assert t[1..][i - 1] == t[i];
      if IsSpace(t[i]) {
        SkipSpaceShift(t, i + 1);
      }
    }
  }

  lemma WordsSpaced(t: string)
    requires t != [] && IsSpace(t[0])
    ensures Words(t) == Words(t[1..])
  {
    SkipSpaceShift(t, 1);
    assert SkipSpace(t, 0) == SkipSpace(t, 1);
    assert LStrip(t) == LStrip(t[1..]);
  }

  lemma WordsStart(w: string, t: string)
    requires w != [] && NoSpace(w)
    requires t == [] || IsSpace(t[0])
    ensures Words(w + t) == [w] + Words(t)
  {
    var s := w + t;
    assert !IsSpace(s[0]);
    assert SkipSpace(s, 0) == 0;
    assert LStrip(s) == s;
    TakeWordOf(w, t);
    assert s[|w|..] == t;
  }

  /** Splitting a single-space-joined list of non-empty whitespace-free words
      on whitespace gives the words back. */
  lemma {:induction false} WordsJoin(ws: seq<string>)
    requires forall i :: 0 <= i < |ws| ==> ws[i] != [] && NoSpace(ws[i])
    ensures Words(Join(" ", ws)) == ws
  {
    if |ws| == 1 {
      WordsOne(ws[0]);
    } else if |ws| > 1 {
      var w, tail := ws[0], ws[1..];
      assert ws == [w] + tail;
      WordsJoin(tail);
      WordsJoinStep(w, tail);
    }
  }

  lemma WordsOne(w: string)
    requires w != [] && NoSpace(w)
    ensures Words(w) == [w]
  {
    WordsStart(w, []);
    assert w + [] == w;
  }

  lemma WordsJoinStep(w: string, tail: seq<string>)
    requires w != [] && NoSpace(w) && |tail| >= 1
    requires Words(Join(" ", tail)) == tail
    ensures Words(Join(" ", [w] + tail)) == [w] + tail
  {
    JoinCons(" ", w, tail);
    WordsStart(w, " " + Join(" ", tail));
    WordsSpace(Join(" ", tail));
  }

  lemma JoinCons(sep: string, w: string, tail: seq<string>)
    requires |tail| >= 1
    ensures Join(sep, [w] + tail) == w + (sep + Join(sep, tail))
  {
    assert ([w] + tail)[1..] == tail;
  }

  lemma WordsSpace(t: string)
    ensures Words(" " + t) == Words(t)
  {
    WordsSpaced(" " + t);
    assert (" " + t)[1..] == t;
  }

  // ---------------------------------------------------------------------------
  // splitlines()
  // ---------------------------------------------------------------------------

  /** Index of the first line break in `s`, or `|s|` when there is none. */
  function FirstBreak(s: string): (i: nat)
    ensures i <= |s|
    ensures i < |s| ==> IsLineBreak(s[i])
    ensures forall k :: 0 <= k < i ==> !IsLineBreak(s[k])
  {
    if s == [] || IsLineBreak(s[0]) then 0 else 1 + FirstBreak(s[1..])
  }

  /** `s.splitlines()`: lines without their terminators, "\r\n" counting as
      one terminator and no empty line after a final terminator. */
  function SplitLines(s: string): (r: seq<string>)
    ensures forall j :: 0 <= j < |r| ==> forall k :: 0 <= k < |r[j]| ==> !IsLineBreak(r[j][k])
    decreases |s|
  {
    if s == [] then []
    else
      var i := FirstBreak(s);
      if i == |s| then [s]
      else
        var next := if s[i] == '\r' && i + 1 < |s| && s[i + 1] == '\n' then i + 2 else i + 1;
        [s[..i]] + SplitLines(s[next..])
  }

  /** Break-free lines, the last one non-empty, joined with "\n" split back
      into the same lines. */
  lemma {:induction false} SplitLinesJoin(lines: seq<string>)
    requires |lines| >= 1 && lines[|lines| - 1] != []
    requires forall j :: 0 <= j < |lines| ==> forall k :: 0 <= k < |lines[j]| ==> !IsLineBreak(lines[j][k])
    ensures SplitLines(Join("\n", lines)) == lines
    decreases |lines|
  {
    var s := Join("\n", lines);
    var w := lines[0];
    if |lines| == 1 {
      assert s == w;
      assert FirstBreak(s) == |s|;
    } else {
      var rest := lines[1..];
      assert s == w + "\n" + Join("\n", rest);
      assert s[|w|] == '\n';
      assert FirstBreak(s) == |w|;
      assert s[..|w|] == w && s[|w| + 1..] == Join("\n", rest);
      SplitLinesJoin(rest);
      assert lines == [w] + rest;
    }
  }

  // ---------------------------------------------------------------------------
  // upper() / lower() (ASCII letters)
  // ---------------------------------------------------------------------------

  function UpperChar(c: char): char {
    if 'a' <= c <= 'z' then (c as int - 32) as char else c
  }

  function LowerChar(c: char): char {
    if 'A' <= c <= 'Z' then (c as int + 32) as char else c
  }

  /** `s.upper()` on ASCII letters. */
  function Upper(s: string): (r: string)
    ensures |r| == |s|
  {
    seq(|s|, i requires 0 <= i < |s| => UpperChar(s[i]))
  }

  /** `s.lower()` on ASCII letters. */
  function Lower(s: string): (r: string)
    ensures |r| == |s|
  {
    seq(|s|, i requires 0 <= i < |s| => LowerChar(s[i]))
  }

  /** A string with no lower-case ASCII letter. */
  predicate IsUpper(s: string) {
    forall i :: 0 <= i < |s| ==> !('a' <= s[i] <= 'z')
  }

  /** An upper-case string is its own upper-case form. */
  lemma UpperFixpoint(s: string)
    requires IsUpper(s)
    ensures Upper(s) == s
  {
  }

  /** Upper-casing changes only letters: no other character appears or
      disappears. */
  lemma UpperKeepsOthers(s: string, c: char)
    requires !('a' <= c <= 'z') && !('A' <= c <= 'Z')
    ensures c in Upper(s) <==> c in s
  {
    if c in Upper(s) {
      var k :| 0 <= k < |s| && Upper(s)[k] == c;
      assert s[k] == c;
    }
    if c in s {
      var k :| 0 <= k < |s| && s[k] == c;
      assert Upper(s)[k] == c;
    }
  }

  lemma UpperIsUpper(s: string)
    ensures IsUpper(Upper(s))
    ensures Upper(Upper(s)) == Upper(s)
  {
  }

  /** Upper-casing keeps a string free of surrounding whitespace, since a
      character is whitespace exactly when its upper-case form is. */
  lemma UpperKeepsStripped(s: string)
    requires IsStripped(s)
    ensures IsStripped(Upper(s))
    ensures Upper(s) == [] <==> s == []
  {
  }

  // ---------------------------------------------------------------------------
  // `needle in haystack`
  // ---------------------------------------------------------------------------

  predicate IsPrefix(p: string, s: string) {
    |p| <= |s| && s[..|p|] == p
  }

  /** Python's substring test `needle in hay`. */
  predicate Contains(hay: string, needle: string)
    decreases |hay|
  {
    IsPrefix(needle, hay) || (hay != [] && Contains(hay[1..], needle))
  }

  lemma {:induction false} ContainsAt(hay: string, needle: string, i: nat)
    requires i + |needle| <= |hay| && hay[i..i + |needle|] == needle
    ensures Contains(hay, needle)
  {
    if i > 0 {
      assert hay[1..][i - 1..i - 1 + |needle|] == needle;
      ContainsAt(hay[1..], needle, i - 1);
    }
  }

  // ---------------------------------------------------------------------------
  // str(n) and zfill
  // ---------------------------------------------------------------------------

  predicate IsDigit(c: char) {
    '0' <= c <= '9'
  }

  predicate IsDigits(s: string) {
    forall i :: 0 <= i < |s| ==> IsDigit(s[i])
  }

  function DigitChar(d: nat): (c: char)
    requires d < 10
    ensures IsDigit(c) && c as int - '0' as int == d
  {
    (d + '0' as int) as char
  }

  /** The number a string of decimal digits denotes. */
  function DigitsValue(s: string): nat
    requires IsDigits(s)
  {
    if s == [] then 0 else DigitsValue(s[..|s| - 1]) * 10 + (s[|s| - 1] as int - '0' as int)
  }

  /** `str(n)` for a natural number: decimal digits without leading zeros. */
  function NatToString(n: nat): (r: string)
    ensures |r| >= 1 && IsDigits(r)
    ensures |r| > 1 ==> r[0] != '0'
  {
    if n < 10 then [DigitChar(n)] else NatToString(n / 10) + [DigitChar(n % 10)]
  }

  lemma {:induction false} NatToStringValue(n: nat)
    ensures DigitsValue(NatToString(n)) == n
  {
    if n >= 10 {
      NatToStringValue(n / 10);
      var s := NatToString(n);
      assert s[..|s| - 1] == NatToString(n / 10);
    }
  }

  function Zeros(k: nat): (r: string)
    ensures |r| == k && IsDigits(r)
  {
    if k == 0 then [] else ['0'] + Zeros(k - 1)
  }

  /** `s.zfill(width)` for an unsigned string: zeros are added on the left up
      to `width` characters; a longer string is left as it is. */
  function ZFill(s: string, width: nat): (r: string)
    ensures |r| == if |s| < width then width else |s|
  {
    if |s| < width then Zeros(width - |s|) + s else s
  }

  lemma {:induction false} DigitsValueAppend(s: string, t: string)
    requires IsDigits(s) && IsDigits(t) && t != []
    ensures DigitsValue(s + t) == DigitsValue(s + t[..|t| - 1]) * 10 + (t[|t| - 1] as int - '0' as int)
  {
    assert (s + t)[..|s + t| - 1] == s + t[..|t| - 1];
  }

  /** Leading zeros do not change the value of a digit string. */
  lemma {:induction false} LeadingZerosValue(k: nat, s: string)
    requires IsDigits(s)
    ensures DigitsValue(Zeros(k) + s) == DigitsValue(s)
    decreases |s|
  {
    if s == [] {
      assert Zeros(k) + s == Zeros(k);
      ZerosValue(k);
    } else {
      DigitsValueAppend(Zeros(k), s);
      LeadingZerosValue(k, s[..|s| - 1]);
    }
  }

  lemma {:induction false} ZerosValue(k: nat)
    ensures DigitsValue(Zeros(k)) == 0
  {
    if k > 0 {
      assert Zeros(k) == Zeros(k - 1) + ['0'] by { ZerosSnoc(k); }
      assert Zeros(k)[..k - 1] == Zeros(k - 1);
      ZerosValue(k - 1);
    }
  }

  lemma {:induction false} ZerosSnoc(k: nat)
    requires k > 0
    ensures Zeros(k) == Zeros(k - 1) + ['0']
  {
    if k > 1 {
      ZerosSnoc(k - 1);
    }
  }

  /** `str(n).zfill(width)` is a digit string of at least `width` characters,
      exactly `width` when `n` has at most that many digits, and it still
      denotes `n`. */
  lemma PaddedNumber(n: nat, width: nat)
    ensures IsDigits(ZFill(NatToString(n), width))
    ensures |ZFill(NatToString(n), width)| >= width
    ensures |NatToString(n)| <= width ==> |ZFill(NatToString(n), width)| == width
    ensures DigitsValue(ZFill(NatToString(n), width)) == n
  {
    var s := NatToString(n);
    NatToStringValue(n);
    if |s| < width {
      LeadingZerosValue(width - |s|, s);
    }
  }
}
