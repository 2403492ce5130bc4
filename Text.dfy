/**
 * String operations of the Rust standard library that the watchers rely on,
 * over `string` (a sequence of Unicode scalar values): `split`, `join`,
 * `trim`, `lines`, `split_whitespace`, `contains`, ASCII case mapping, UTF-8
 * byte length, and decimal formatting and parsing of integers.
 */
module Text {
  import opened Base

  /* ---------------------------------------------------------------- */
  /* Whitespace and trimming                                          */
  /* ---------------------------------------------------------------- */

  /** `char::is_whitespace`: the Unicode White_Space property. */
  predicate IsWhitespace(c: char) {
    ('\t' <= c <= '\r') || c == ' ' || c == '\U{0085}' || c == '\U{00A0}'
    || c == '\U{1680}' || ('\U{2000}' <= c <= '\U{200A}') || c == '\U{2028}'
    || c == '\U{2029}' || c == '\U{202F}' || c == '\U{205F}' || c == '\U{3000}'
  }

  predicate IsBlank(s: string) {
    forall i :: 0 <= i < |s| ==> IsWhitespace(s[i])
  }

  /** `trim_start`: drops the leading whitespace and nothing else. */
  function TrimStart(s: string): (r: string)
    ensures |r| <= |s| && r == s[|s| - |r|..]
    ensures r == [] || !IsWhitespace(r[0])
    ensures IsBlank(s[..|s| - |r|])
  {
    if |s| > 0 && IsWhitespace(s[0]) then
      var r := TrimStart(s[1..]);
      TrimStartStep(s, r);
      r
    else
      assert s[..0] == [];
      s
  }

  /** `trim_end`: drops the trailing whitespace and nothing else. */
  function TrimEnd(s: string): (r: string)
    ensures |r| <= |s| && r == s[..|r|]
    ensures r == [] || !IsWhitespace(r[|r| - 1])
    ensures IsBlank(s[|r|..])
  {
    if |s| > 0 && IsWhitespace(s[|s| - 1]) then
      var r := TrimEnd(s[..|s| - 1]);
      TrimEndStep(s, r);
      r
    else
      assert s[|s|..] == [];
      s
  }

  lemma TrimStartStep(s: string, r: string)
    requires |s| > 0 && IsWhitespace(s[0])
    requires |r| < |s| && r == s[1..][|s| - 1 - |r|..] && IsBlank(s[1..][..|s| - 1 - |r|])
    ensures r == s[|s| - |r|..] && IsBlank(s[..|s| - |r|])
  {
    var k := |s| - |r|;
    assert s[1..][|s| - 1 - |r|..] == s[k..];
    BlankCons(s[0], s[1..][..k - 1]);
    assert s[..k] == [s[0]] + s[1..][..k - 1];
  }

  lemma TrimEndStep(s: string, r: string)
    requires |s| > 0 && IsWhitespace(s[|s| - 1])
    requires |r| < |s| && r == s[..|s| - 1][..|r|] && IsBlank(s[..|s| - 1][|r|..])
    ensures r == s[..|r|] && IsBlank(s[|r|..])
  {
    assert s[..|s| - 1][..|r|] == s[..|r|];
    BlankSnoc(s[..|s| - 1][|r|..], s[|s| - 1]);
    assert s[|r|..] == s[..|s| - 1][|r|..] + [s[|s| - 1]];
  }

  lemma BlankCons(c: char, s: string)
    requires IsWhitespace(c) && IsBlank(s)
    ensures IsBlank([c] + s)
  {
    forall i | 0 <= i < |[c] + s| ensures IsWhitespace(([c] + s)[i]) {
      if i > 0 {
        assert ([c] + s)[i] == s[i - 1];
      }
    }
  }

  lemma BlankSnoc(s: string, c: char)
    requires IsWhitespace(c) && IsBlank(s)
    ensures IsBlank(s + [c])
  {
    forall i | 0 <= i < |s + [c]| ensures IsWhitespace((s + [c])[i]) {
      if i < |s| {
        assert (s + [c])[i] == s[i];
      }
    }
  }

  /** `trim`: the text between the leading and the trailing whitespace. */
  function Trim(s: string): (r: string)
    ensures exists i, j :: 0 <= i <= j <= |s| && r == s[i..j] && IsBlank(s[..i]) && IsBlank(s[j..])
    ensures r == [] || (!IsWhitespace(r[0]) && !IsWhitespace(r[|r| - 1]))
    ensures r == [] <==> IsBlank(s)
  {
    var t := TrimStart(s);
    var r := TrimEnd(t);
    TrimPieces(s, t, r);
    r
  }

  /** Where the trimmed text sits in the original, from what trimming each end promises. */
  lemma TrimPieces(s: string, t: string, r: string)
    requires |t| <= |s| && t == s[|s| - |t|..] && IsBlank(s[..|s| - |t|]) && (t == [] || !IsWhitespace(t[0]))
    requires |r| <= |t| && r == t[..|r|] && IsBlank(t[|r|..]) && (r == [] || !IsWhitespace(r[|r| - 1]))
    ensures var i := |s| - |t|;
            && r == s[i..i + |r|] && IsBlank(s[..i]) && IsBlank(s[i + |r|..])
            && (r == [] || (!IsWhitespace(r[0]) && !IsWhitespace(r[|r| - 1])))
            && (r == [] <==> IsBlank(s))
  {
    var i := |s| - |t|;
    var j := i + |r|;
    SuffixSlices(s, i, |r|);
    assert i == j || s[i] == r[0];
    TrimmedEmptyMeansBlank(s, i, j);
  }

  /** Text with no blank at either end is its own trimming. */
  lemma TrimOfUnpadded(s: string)
    requires |s| > 0 && !IsWhitespace(s[0]) && !IsWhitespace(s[|s| - 1])
    ensures Trim(s) == s
  {
  }

  /** Blank padding on either side is exactly what trimming removes. */
  lemma TrimPadded(before: string, s: string, after: string)
    requires IsBlank(before) && IsBlank(after)
    requires |s| > 0 && !IsWhitespace(s[0]) && !IsWhitespace(s[|s| - 1])
    ensures Trim(before + s + after) == s
  {
    assert before + s + after == before + (s + after);
    TrimStartOfPadded(before, s + after);
    TrimEndOfPadded(s, after);
  }

  lemma {:induction false} TrimStartOfPadded(before: string, rest: string)
    requires IsBlank(before)
    requires |rest| > 0 && !IsWhitespace(rest[0])
    ensures TrimStart(before + rest) == rest
    decreases |before|
  {
    if before == [] {
      assert before + rest == rest;
    } else {
      var x := before + rest;
      assert x[0] == before[0];
      assert x[1..] == before[1..] + rest;
      TrimStartOfPadded(before[1..], rest);
    }
  }

  lemma {:induction false} TrimEndOfPadded(s: string, after: string)
    requires IsBlank(after)
    requires |s| > 0 && !IsWhitespace(s[|s| - 1])
    ensures TrimEnd(s + after) == s
    decreases |after|
  {
    if after == [] {
      assert s + after == s;
    } else {
      var x := s + after;
      var init := after[..|after| - 1];
      assert x[|x| - 1] == after[|after| - 1];
      assert x[..|x| - 1] == s + init;
      TrimEndOfPadded(s, init);
    }
  }

  lemma SuffixSlices(s: string, i: nat, n: nat)
    requires i + n <= |s|
    ensures s[i..][..n] == s[i..i + n] && s[i..][n..] == s[i + n..]
  {
  }

  lemma TrimmedEmptyMeansBlank(s: string, i: nat, j: nat)
    requires i <= j <= |s| && IsBlank(s[..i]) && IsBlank(s[j..])
    requires i == j || !IsWhitespace(s[i])
    ensures i == j <==> IsBlank(s)
  {
    if i == j {
      forall k | 0 <= k < |s| ensures IsWhitespace(s[k]) {
        if k < i { assert s[k] == s[..i][k]; } else { assert s[k] == s[j..][k - j]; }
      }
    }
  }

  /* ---------------------------------------------------------------- */
  /* Splitting and joining                                            */
  /* ---------------------------------------------------------------- */

  /** `parts.join(sep)`. */
  function Join(parts: seq<string>, sep: string): string
  {
    if |parts| == 0 then ""
    else if |parts| == 1 then parts[0]
    else parts[0] + sep + Join(parts[1..], sep)
  }

  /** `s.split(sep)`: always at least one piece, and no piece holds `sep`. */
  function Split(s: string, sep: char): (parts: seq<string>)
    ensures |parts| >= 1
    ensures forall i :: 0 <= i < |parts| ==> sep !in parts[i]
    decreases |s|
  {
    if |s| == 0 then [""]
    else if s[0] == sep then [""] + Split(s[1..], sep)
    else
      var rest := Split(s[1..], sep);
      [[s[0]] + rest[0]] + rest[1..]
  }

  function Last<T>(s: seq<T>): T
    requires |s| > 0
  {
    s[|s| - 1]
  }

  /** Joining the pieces of a split with the separator gives back the text. */
  lemma {:induction false} SplitJoin(s: string, sep: char)
    ensures Join(Split(s, sep), [sep]) == s
    decreases |s|
  {
    if |s| == 0 {
    } else if s[0] == sep {
      SplitJoin(s[1..], sep);
      assert s == [sep] + s[1..];
    } else {
      var rest := Split(s[1..], sep);
      SplitJoin(s[1..], sep);
      if |rest| == 1 {
        assert s == [s[0]] + s[1..];
      } else {
        assert Join(rest, [sep]) == rest[0] + [sep] + Join(rest[1..], [sep]);
        var parts := Split(s, sep);
        assert parts[1..] == rest[1..];
        assert s == [s[0]] + s[1..];
      }
    }
  }

  /** Splitting a join of separator-free pieces gives back the pieces. */
  lemma {:induction false} JoinSplit(parts: seq<string>, sep: char)
    requires |parts| >= 1
    requires forall i :: 0 <= i < |parts| ==> sep !in parts[i]
    ensures Split(Join(parts, [sep]), sep) == parts
    decreases |parts|, |parts[0]|
  {
    if |parts| == 1 {
      SplitOfSeparatorFree(parts[0], sep);
    } else if |parts[0]| == 0 {
      var tail := parts[1..];
      JoinSplit(tail, sep);
      assert Join(parts, [sep]) == [sep] + Join(tail, [sep]);
      assert parts == [""] + tail;
    } else {
      var p := parts[0];
      var shorter := [p[1..]] + parts[1..];
      JoinSplit(shorter, sep);
      assert Join(parts, [sep]) == [p[0]] + Join(shorter, [sep]);
      assert [p[0]] + p[1..] == p;
    }
  }

  lemma {:induction false} SplitOfSeparatorFree(s: string, sep: char)
    requires sep !in s
    ensures Split(s, sep) == [s]
    decreases |s|
  {
    if |s| > 0 {
      SplitOfSeparatorFree(s[1..], sep);
      assert [s[0]] + s[1..] == s;
    }
  }

  /** Splitting text glued at a separator splits each side. */
  lemma {:induction false} SplitConcat(x: string, y: string, sep: char)
    ensures Split(x + [sep] + y, sep) == Split(x, sep) + Split(y, sep)
    decreases |x|
  {
    if |x| == 0 {
      assert x + [sep] + y == [sep] + y;
      SplitCons(sep, y, sep);
      assert Split(x, sep) == [""];
    } else {
      var c, xs := x[0], x[1..];
      var t := xs + [sep] + y;
      assert x + [sep] + y == [c] + t;
      assert x == [c] + xs;
      SplitConcat(xs, y, sep);
      SplitCons(c, t, sep);
      SplitCons(c, xs, sep);
      ConsOntoPieces(c, sep, Split(xs, sep), Split(y, sep));
    }
  }

  /** Putting a character in front of the pieces commutes with appending more pieces. */
  lemma ConsOntoPieces(c: char, sep: char, a: seq<string>, b: seq<string>)
    requires |a| >= 1
    ensures (if c == sep then [""] + (a + b) else [[c] + (a + b)[0]] + (a + b)[1..])
            == (if c == sep then [""] + a else [[c] + a[0]] + a[1..]) + b
  {
    if c == sep {
      assert [""] + (a + b) == ([""] + a) + b;
    } else {
      assert (a + b)[1..] == a[1..] + b;
    }
  }

  /** How splitting sees the first character. */
  lemma SplitCons(c: char, t: string, sep: char)
    ensures Split([c] + t, sep)
            == if c == sep then [""] + Split(t, sep) else [[c] + Split(t, sep)[0]] + Split(t, sep)[1..]
  {
    assert ([c] + t)[0] == c;
    assert ([c] + t)[1..] == t;
  }

  /**
   * `s.lines()`: split on '\n', where a final empty piece (a trailing line
   * feed, or an empty text) is not a line and a '\r' just before a line
   * feed is dropped.
   */
  function Lines(s: string): (lines: seq<string>)
    ensures Last(Split(s, '\n')) == "" ==> |lines| == |Split(s, '\n')| - 1
    ensures Last(Split(s, '\n')) != "" ==>
              |lines| == |Split(s, '\n')| && Last(lines) == Last(Split(s, '\n'))
    ensures forall i :: 0 <= i < |Split(s, '\n')| - 1 ==> lines[i] == StripCr(Split(s, '\n')[i])
  {
    var parts := Split(s, '\n');
    var complete := parts[..|parts| - 1];
    var stripped := seq(|complete|, i requires 0 <= i < |complete| => StripCr(complete[i]));
    if Last(parts) == "" then stripped else stripped + [Last(parts)]
  }

  function StripCr(line: string): string {
    if |line| > 0 && line[|line| - 1] == '\r' then line[..|line| - 1] else line
  }

  /**
   * Writing lines each followed by a line feed and reading them back with
   * `Lines` gives the same lines, when none holds a line feed or ends in a
   * carriage return.
   */
  lemma LinesOfTerminated(ps: seq<string>)
    requires forall i :: 0 <= i < |ps| ==> '\n' !in ps[i] && StripCr(ps[i]) == ps[i]
    ensures Lines(Join(ps + [""], "\n")) == ps
  {
    var parts := ps + [""];
    forall i | 0 <= i < |parts| ensures '\n' !in parts[i] {
      if i < |ps| { assert parts[i] == ps[i]; }
    }
    JoinSplit(parts, '\n');
    LinesOfPieces(Join(parts, "\n"), ps);
  }

  lemma LinesOfPieces(s: string, ps: seq<string>)
    requires Split(s, '\n') == ps + [""]
    requires forall i :: 0 <= i < |ps| ==> StripCr(ps[i]) == ps[i]
    ensures Lines(s) == ps
  {
    var lines := Lines(s);
    assert Last(Split(s, '\n')) == "";
    forall i | 0 <= i < |ps| ensures lines[i] == ps[i] {
      assert Split(s, '\n')[i] == ps[i];
    }
  }

  /* ---------------------------------------------------------------- */
  /* Searching                                                        */
  /* ---------------------------------------------------------------- */

  predicate StartsWith(s: string, prefix: string) {
    |prefix| <= |s| && s[..|prefix|] == prefix
  }

  predicate EndsWithChar(s: string, c: char) {
    |s| > 0 && s[|s| - 1] == c
  }

  /** `s.contains(pattern)`, searched from the left. */
  predicate Contains(s: string, pattern: string)
    decreases |s|
  {
    StartsWith(s, pattern) || (|s| > 0 && Contains(s[1..], pattern))
  }

  /** The reference meaning of `contains`: `pattern` occurs at some position. */
  ghost predicate OccursIn(pattern: string, s: string) {
    exists i :: 0 <= i && OccursAt(pattern, s, i)
  }

  ghost predicate OccursAt(pattern: string, s: string, i: nat) {
    i + |pattern| <= |s| && s[i..i + |pattern|] == pattern
  }

  /** An occurrence in the tail of a text is an occurrence one position further in the text. */
  lemma OccursAtShift(pattern: string, s: string, i: nat)
    requires |s| > 0
    ensures OccursAt(pattern, s[1..], i) <==> OccursAt(pattern, s, i + 1)
  {
    if i + 1 + |pattern| <= |s| {
      assert s[1..][i..i + |pattern|] == s[i + 1..i + 1 + |pattern|];
    }
  }

  lemma {:induction false} ContainsMeansOccurs(s: string, pattern: string)
    ensures Contains(s, pattern) <==> OccursIn(pattern, s)
    decreases |s|
  {
    if |s| > 0 {
      ContainsMeansOccurs(s[1..], pattern);
      if OccursIn(pattern, s[1..]) {
        var i :| 0 <= i && OccursAt(pattern, s[1..], i);
        OccursAtShift(pattern, s, i);
      }
      if OccursIn(pattern, s) && !StartsWith(s, pattern) {
        var i :| 0 <= i && OccursAt(pattern, s, i);
        assert i != 0;
        OccursAtShift(pattern, s, i - 1);
      }
      if StartsWith(s, pattern) {
        assert OccursAt(pattern, s, 0);
      }
    } else {
      if OccursIn(pattern, s) {
        var i :| 0 <= i && OccursAt(pattern, s, i);
        assert |pattern| == 0;
      }
      if StartsWith(s, pattern) {
        assert OccursAt(pattern, s, 0);
      }
    }
  }

  /** Whether some word of `words` is contained in `s`. */
  predicate AnyContained(words: seq<string>, s: string) {
    exists k :: 0 <= k < |words| && Contains(s, words[k])
  }

  /** The reference meaning of `AnyContained`. */
  ghost predicate SomeOccursIn(words: seq<string>, s: string) {
    exists k :: 0 <= k < |words| && OccursIn(words[k], s)
  }

  lemma AnyContainedMeansOccurs(words: seq<string>, s: string)
    ensures AnyContained(words, s) <==> SomeOccursIn(words, s)
  {
    forall k | 0 <= k < |words| ensures Contains(s, words[k]) <==> OccursIn(words[k], s) {
      ContainsMeansOccurs(s, words[k]);
    }
  }

  /* ---------------------------------------------------------------- */
  /* ASCII case mapping                                               */
  /* ---------------------------------------------------------------- */

  function LowerChar(c: char): char {
    if 'A' <= c <= 'Z' then (c as int + 32) as char else c
  }

  function UpperChar(c: char): char {
    if 'a' <= c <= 'z' then (c as int - 32) as char else c
  }

  /** `to_lowercase`, for the ASCII letters. */
  function AsciiLower(s: string): (r: string)
    ensures |r| == |s|
    ensures forall i :: 0 <= i < |s| ==> r[i] == LowerChar(s[i])
  {
    seq(|s|, i requires 0 <= i < |s| => LowerChar(s[i]))
  }

  /** `to_uppercase`, for the ASCII letters. */
  function AsciiUpper(s: string): (r: string)
    ensures |r| == |s|
    ensures forall i :: 0 <= i < |s| ==> r[i] == UpperChar(s[i])
  {
    seq(|s|, i requires 0 <= i < |s| => UpperChar(s[i]))
  }

  /* ---------------------------------------------------------------- */
  /* UTF-8 length                                                     */
  /* ---------------------------------------------------------------- */

  /** Number of bytes UTF-8 uses for one scalar value. */
  function CharUtf8Len(c: char): (n: nat)
    ensures 1 <= n <= 4
  {
    if c as int < 0x80 then 1 else if c as int < 0x800 then 2 else if c as int < 0x1_0000 then 3 else 4
  }

  /** `str::len`: the length of a text in UTF-8 bytes. */
  function Utf8Len(s: string): (n: nat)
    ensures n >= |s|
  {
    if s == [] then 0 else Utf8Len(s[..|s| - 1]) + CharUtf8Len(s[|s| - 1])
  }

  predicate IsAscii(s: string) {
    forall i :: 0 <= i < |s| ==> s[i] as int < 0x80
  }

  lemma {:induction false} Utf8LenAscii(s: string)
    requires IsAscii(s)
    ensures Utf8Len(s) == |s|
    decreases |s|
  {
    if s != [] {
      Utf8LenAscii(s[..|s| - 1]);
    }
  }

  lemma {:induction false} Utf8LenAppend(a: string, b: string)
    ensures Utf8Len(a + b) == Utf8Len(a) + Utf8Len(b)
    decreases |b|
  {
    if b == [] {
      assert a + b == a;
    } else {
      Utf8LenAppend(a, b[..|b| - 1]);
      var ab := a + b;
      assert ab != [];
      assert ab[..|ab| - 1] == a + b[..|b| - 1];
      assert ab[|ab| - 1] == b[|b| - 1];
    }
  }

  /** The byte length of prefixes grows strictly with the prefix. */
  lemma {:induction false} Utf8LenPrefixMonotone(s: string, j: nat, k: nat)
    requires j < k <= |s|
    ensures Utf8Len(s[..j]) < Utf8Len(s[..k])
    decreases k - j
  {
    assert s[..k][..k - 1] == s[..k - 1];
    if j < k - 1 {
      Utf8LenPrefixMonotone(s, j, k - 1);
    }
  }

  /* ---------------------------------------------------------------- */
  /* Decimal numbers                                                  */
  /* ---------------------------------------------------------------- */

  predicate IsDigit(c: char) {
    '0' <= c <= '9'
  }

  predicate AllDigits(s: string) {
    forall i :: 0 <= i < |s| ==> IsDigit(s[i])
  }

  function DigitChar(d: nat): (c: char)
    requires d < 10
    ensures IsDigit(c)
  {
    ('0' as int + d) as char
  }

  /** The decimal rendering of a natural number (`format!("{}", n)`). */
  function NatToString(n: nat): (s: string)
    ensures |s| >= 1 && AllDigits(s)
  {
    if n < 10 then [DigitChar(n)] else NatToString(n / 10) + [DigitChar(n % 10)]
  }

  /** The value of a string of decimal digits (leading zeros allowed). */
  function DigitsValue(s: string): nat
    requires AllDigits(s)
  {
    if s == [] then 0 else DigitsValue(s[..|s| - 1]) * 10 + (s[|s| - 1] as int - '0' as int)
  }

  /** Reading back a rendered natural number gives the number. */
  lemma {:induction false} NatToStringRoundTrip(n: nat)
    ensures DigitsValue(NatToString(n)) == n
  {
    if n >= 10 {
      NatToStringRoundTrip(n / 10);
      var s := NatToString(n);
      assert s[..|s| - 1] == NatToString(n / 10);
    }
  }

  /** The decimal rendering of an integer, with a leading '-' when negative. */
  function IntToString(v: int): string {
    if v < 0 then "-" + NatToString(-v) else NatToString(v)
  }

  /**
   * `s.parse::<i64>()`: an optional sign followed by at least one decimal
   * digit, within the 64-bit signed range; anything else is an error.
   */
  function ParseInt64(s: string): (r: Option<int>)
    ensures r.Some? ==> -0x8000_0000_0000_0000 <= r.value <= 0x7fff_ffff_ffff_ffff
    ensures r.Some? ==> |s| > 0 && (IsDigit(s[0]) || s[0] == '-' || s[0] == '+')
  {
    if s == [] then None
    else
      var negative := s[0] == '-';
      var digits := if s[0] == '-' || s[0] == '+' then s[1..] else s;
      if digits == [] || !AllDigits(digits) then None
      else
        var magnitude: int := DigitsValue(digits);
        var v := if negative then -magnitude else magnitude;
        if -0x8000_0000_0000_0000 <= v <= 0x7fff_ffff_ffff_ffff then Some(v) else None
  }

  /** The decimal spelling of an integer carries no padding, so trimming keeps it. */
  lemma IntToStringIsTrimmed(v: int)
    ensures IntToString(v) != [] && Trim(IntToString(v)) == IntToString(v)
  {
    var s := IntToString(v);
    var digits := if v < 0 then NatToString(-v) else NatToString(v);
    assert s[|s| - 1] == digits[|digits| - 1];
    assert IsDigit(digits[|digits| - 1]);
    TrimOfUnpadded(s);
  }

  /** Parsing the rendering of any 64-bit integer gives the integer back. */
  lemma IntToStringRoundTrip(v: int)
    requires -0x8000_0000_0000_0000 <= v <= 0x7fff_ffff_ffff_ffff
    ensures ParseInt64(IntToString(v)) == Some(v)
  {
    if v < 0 {
      NatToStringRoundTrip(-v);
      ParsesNegative(NatToString(-v), -v);
    } else {
      NatToStringRoundTrip(v);
      ParsesUnsigned(NatToString(v), v);
    }
  }

  lemma ParsesNegative(digits: string, m: nat)
    requires digits != [] && AllDigits(digits) && DigitsValue(digits) == m && m <= 0x8000_0000_0000_0000
    ensures ParseInt64("-" + digits) == Some(-(m as int))
  {
    assert ("-" + digits)[1..] == digits;
  }

  lemma ParsesUnsigned(digits: string, m: nat)
    requires digits != [] && AllDigits(digits) && DigitsValue(digits) == m && m <= 0x7fff_ffff_ffff_ffff
    ensures ParseInt64(digits) == Some(m)
  {
  }

}
