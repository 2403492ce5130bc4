/**
 * Recognising that an agent is waiting for the user: the keyword detector
 * applied to Claude and Gemini replies, the turn-end detector applied to a
 * finished Codex turn, the byte-bounded truncation of the quoted prompt,
 * and the whitespace normalisation of prompt text.
 */
module Confirm {
  import opened Base
  import opened Text

  /* ---------------------------------------------------------------- */
  /* Truncation                                                       */
  /* ---------------------------------------------------------------- */

  /** Longest quoted prompt, in UTF-8 bytes. */
  const MaxPromptBytes: nat := 600

  const Ellipsis: string := "..."

  /** `max_len.saturating_sub(3)`: the bytes kept before the ellipsis. */
  function Cut(maxLen: nat): nat {
    if maxLen >= 3 then maxLen - 3 else 0
  }

  /** The longest prefix of `s` (in characters) whose encoding fits in `bytes`. */
  function CharsWithin(s: string, bytes: nat): (k: nat)
    ensures k <= |s| && Utf8Len(s[..k]) <= bytes
    ensures k == |s| || Utf8Len(s[..k + 1]) > bytes
  {
    if Utf8Len(s) <= bytes then
      assert s[..|s|] == s;
      |s|
    else
      var init := s[..|s| - 1];
      var k := CharsWithin(init, bytes);
      assert init[..k] == s[..k];
      assert k < |init| ==> init[..k + 1] == s[..k + 1];
      assert k == |init| ==> s[..k + 1] == s;
      k
  }

  /**
   * `truncate_text` as written: text over `maxLen` bytes is cut at byte
   * `maxLen - 3` and given an ellipsis. Slicing a Rust string off a
   * character boundary panics; `None` stands for that panic.
   */
  function TruncateTextAsWritten(text: string, maxLen: nat): Option<string> {
    if Utf8Len(text) <= maxLen then Some(text)
    else
      var k := CharsWithin(text, Cut(maxLen));
      if Utf8Len(text[..k]) == Cut(maxLen) then Some(text[..k] + Ellipsis) else None
  }

  /**
   * `truncate_text` as intended: the cut moves back to the nearest
   * character boundary, so the result never exceeds the byte budget.
   */
  function TruncateText(text: string, maxLen: nat): (r: string)
    ensures Utf8Len(text) <= maxLen ==> r == text
    ensures Utf8Len(text) > maxLen ==>
              |r| >= 3 && r[|r| - 3..] == Ellipsis
              && var p := r[..|r| - 3];
                 |p| < |text| && p == text[..|p|]
                 && Utf8Len(p) <= Cut(maxLen) < Utf8Len(text[..|p| + 1])
  {
    if Utf8Len(text) <= maxLen then text
    else
      var k := CharsWithin(text, Cut(maxLen));
      assert k < |text|;
      var r := text[..k] + Ellipsis;
      assert r[..|r| - 3] == text[..k];
      r
  }

  /** With a budget of at least three bytes the result fits in the budget. */
  lemma TruncateTextFits(text: string, maxLen: nat)
    requires maxLen >= 3
    ensures Utf8Len(TruncateText(text, maxLen)) <= maxLen
  {
    if Utf8Len(text) > maxLen {
      var k := CharsWithin(text, Cut(maxLen));
      Utf8LenAppend(text[..k], Ellipsis);
      Utf8LenAscii(Ellipsis);
    }
  }

  /** Text made only of ASCII is cut to exactly the budget. */
  lemma TruncateAsciiIsExact(text: string, maxLen: nat)
    requires IsAscii(text) && maxLen >= 3 && |text| > maxLen
    ensures TruncateText(text, maxLen) == text[..maxLen - 3] + Ellipsis
    ensures TruncateTextAsWritten(text, maxLen) == Some(TruncateText(text, maxLen))
  {
    Utf8LenAscii(text);
    var k := CharsWithin(text, Cut(maxLen));
    Utf8LenAscii(text[..k]);
    if k < |text| {
      Utf8LenAscii(text[..k + 1]);
    }
  }

  /** A prefix that ends exactly on the byte budget is the one the corrected cut keeps. */
  lemma BoundaryPrefixIsChosen(text: string, bytes: nat, j: nat)
    requires j <= |text| && Utf8Len(text[..j]) == bytes
    ensures CharsWithin(text, bytes) == j
  {
    var k := CharsWithin(text, bytes);
    if j < k {
      Utf8LenPrefixMonotone(text, j, k);
    } else if k + 1 < j {
      Utf8LenPrefixMonotone(text, k + 1, j);
    }
  }

  /** The written code fails exactly when the text is too long and no prefix ends on byte `maxLen - 3`; otherwise it agrees with the corrected cut. */
  lemma TruncateAsWrittenPanicsIff(text: string, maxLen: nat)
    ensures TruncateTextAsWritten(text, maxLen).None?
            <==> Utf8Len(text) > maxLen && forall j :: 0 <= j <= |text| ==> Utf8Len(text[..j]) != Cut(maxLen)
    ensures TruncateTextAsWritten(text, maxLen).Some? ==> TruncateTextAsWritten(text, maxLen).value == TruncateText(text, maxLen)
  {
    if Utf8Len(text) > maxLen {
      forall j | 0 <= j <= |text| && Utf8Len(text[..j]) == Cut(maxLen)
        ensures CharsWithin(text, Cut(maxLen)) == j
      {
        BoundaryPrefixIsChosen(text, Cut(maxLen), j);
      }
    }
  }

  /** One ASCII letter followed by `n` three-byte characters. */
  function LatinThenCjk(n: nat): (s: string)
    ensures |s| == n + 1 && s[0] == 'a'
    ensures forall i :: 1 <= i <= n ==> s[i] == '是'
  {
    ['a'] + seq(n, _ => '是')
  }

  lemma {:induction false} LatinThenCjkPrefixBytes(n: nat, j: nat)
    requires 1 <= j <= n + 1
    ensures Utf8Len(LatinThenCjk(n)[..j]) == 1 + 3 * (j - 1)
  {
    var s := LatinThenCjk(n);
    if j == 1 {
      assert s[..1] == ['a'];
      assert s[..1][..0] == [];
    } else {
      LatinThenCjkPrefixBytes(n, j - 1);
      assert s[..j][..j - 1] == s[..j - 1];
    }
  }

  /** A 601-byte text whose 597th byte falls inside a character makes the written code panic. */
  lemma TruncateAsWrittenPanics()
    ensures Utf8Len(LatinThenCjk(200)) == 601
    ensures TruncateTextAsWritten(LatinThenCjk(200), MaxPromptBytes).None?
  {
    var s := LatinThenCjk(200);
    LatinThenCjkPrefixBytes(200, 201);
    assert s[..201] == s;
    forall j | 0 <= j <= |s| ensures Utf8Len(s[..j]) != Cut(MaxPromptBytes) {
      if j > 0 {
        LatinThenCjkPrefixBytes(200, j);
      }
    }
    TruncateAsWrittenPanicsIff(s, MaxPromptBytes);
  }

  /* ---------------------------------------------------------------- */
  /* Keyword detector                                                 */
  /* ---------------------------------------------------------------- */

  const KeywordsCn: seq<string> := [
    "是否", "要不要", "能否", "可否", "可以吗", "可以么", "请确认",
    "确认一下", "是否确认", "是否继续", "同意", "允许", "授权", "批准"
  ]

  const KeywordsEn: seq<string> := [
    "confirm", "confirmation", "approve", "approval", "okay to", "is it ok",
    "is it okay", "shall i", "should i", "would you like", "do you want me",
    "may i", "permission", "allow", "authorize", "await your", "waiting for your"
  ]

  /**
   * `ConfirmDetector::detect`: when enabled, a text holding a Chinese
   * keyword, or whose lower-cased form holds an English one, is a prompt,
   * reported as its truncated text.
   */
  function Detect(enabled: bool, text: string): (r: Option<string>)
    ensures r.Some? <==> enabled && (SomeOccursIn(KeywordsCn, text) || SomeOccursIn(KeywordsEn, AsciiLower(text)))
    ensures r.Some? ==> r.value == TruncateText(text, MaxPromptBytes)
  {
    AnyContainedMeansOccurs(KeywordsCn, text);
    AnyContainedMeansOccurs(KeywordsEn, AsciiLower(text));
    if !enabled then None
    else if AnyContained(KeywordsCn, text) then Some(TruncateText(text, MaxPromptBytes))
    else if AnyContained(KeywordsEn, AsciiLower(text)) then Some(TruncateText(text, MaxPromptBytes))
    else None
  }

  /** What a detector call does as written: finds a prompt, finds none, or panics inside `truncate_text`. */
  datatype Detection = Found(prompt: string) | NotFound | Aborted

  /** The as-written truncation of a prompt the detector has found. */
  function TruncatedAsWritten(text: string): (r: Detection)
    ensures r.Aborted? <==> TruncateTextAsWritten(text, MaxPromptBytes).None?
    ensures r.Found? ==> r.prompt == TruncateText(text, MaxPromptBytes)
  {
    TruncateAsWrittenPanicsIff(text, MaxPromptBytes);
    var t := TruncateTextAsWritten(text, MaxPromptBytes);
    if t.Some? then Found(t.value) else Aborted
  }

  /**
   * `ConfirmDetector::detect` as written: the keyword test of `Detect`,
   * then the written truncation, which panics when byte 597 of a longer
   * text falls inside a character.
   */
  function DetectAsWritten(enabled: bool, text: string): (r: Detection)
    ensures r.NotFound? <==> Detect(enabled, text).None?
    ensures r.Found? ==> Detect(enabled, text) == Some(r.prompt)
    ensures r.Aborted? <==> Detect(enabled, text).Some? && Utf8Len(text) > MaxPromptBytes
                            && forall j :: 0 <= j <= |text| ==> Utf8Len(text[..j]) != Cut(MaxPromptBytes)
  {
    TruncateAsWrittenPanicsIff(text, MaxPromptBytes);
    if Detect(enabled, text).None? then NotFound else TruncatedAsWritten(text)
  }

  /** One ASCII letter, two hundred three-byte characters, then '否': 604 bytes holding "是否". */
  const KeywordPastCut: string := LatinThenCjk(200) + ['否']

  /**
   * A text holding the keyword "是否" whose byte 597 falls inside a
   * character is a prompt for the corrected detector and a panic for the
   * written one.
   */
  lemma KeywordPastCutAborts()
    ensures Detect(true, KeywordPastCut).Some?
    ensures DetectAsWritten(true, KeywordPastCut).Aborted?
  {
    var s := KeywordPastCut;
    var base := LatinThenCjk(200);
    assert s[200..202] == KeywordsCn[0];
    assert OccursAt(KeywordsCn[0], s, 200);
    assert SomeOccursIn(KeywordsCn, s);
    LatinThenCjkPrefixBytes(200, 201);
    assert s[..|s| - 1] == base && base[..201] == base;
    assert Utf8Len(s) == 604;
    forall j | 0 <= j <= |s| ensures Utf8Len(s[..j]) != Cut(MaxPromptBytes) {
      if 0 < j <= 201 {
        assert s[..j] == base[..j];
        LatinThenCjkPrefixBytes(200, j);
      } else if j == 202 {
        assert s[..j] == s;
      }
    }
  }

  /** The documented detector examples. */
  lemma DetectExamples()
    ensures Detect(true, "是否继续？").Some?
    ensures Detect(false, "是否继续？").None?
    ensures Detect(true, "Please confirm").Some?
  {
    assert Contains("是否继续？", KeywordsCn[0]);
    assert AsciiLower("Please confirm")[7..] == "confirm";
    assert Contains(AsciiLower("Please confirm")[7..], KeywordsEn[0]);
    ContainsMeansOccurs(AsciiLower("Please confirm")[7..], KeywordsEn[0]);
    var w := OccursAt(KeywordsEn[0], AsciiLower("Please confirm"), 7);
    assert AsciiLower("Please confirm")[7..14] == "confirm";
    assert OccursAt(KeywordsEn[0], AsciiLower("Please confirm"), 7);
  }

  /* ---------------------------------------------------------------- */
  /* Turn-end detector                                                */
  /* ---------------------------------------------------------------- */

  const TurnEndCues: seq<string> := [
    "请确认", "是否继续", "是否开始", "是否开始执行", "是否执行", "是否同意",
    "是否允许", "是否授权", "请选择", "请选", "你希望", "你想", "你要", "要不要",
    "可以吗", "可以么", "能否", "可否", "please confirm", "confirm", "approve",
    "approval", "proceed", "continue", "should i", "shall i", "do you want me",
    "would you like", "may i"
  ]

  const ActionWords: seq<string> := ["开始", "继续", "执行", "确认", "选择", "proceed", "execute", "run"]

  /** How many trailing lines the turn-end detector looks at. */
  const TailLineCount: nat := 6

  /** The last lines of `lines`, newest first, as `lines.iter().rev().take(6)` yields them. */
  function TailLines(lines: seq<string>): (t: seq<string>)
    ensures |t| == if |lines| < TailLineCount then |lines| else TailLineCount
  {
    var n := if |lines| < TailLineCount then |lines| else TailLineCount;
    seq(n, k requires 0 <= k < n => lines[|lines| - 1 - k])
  }

  /** The tail lines joined back with line feeds, in their reversed order. */
  function TailText(text: string): string {
    Join(TailLines(Split(text, '\n')), "\n")
  }

  /** The last line of the text, trimmed. */
  function LastLine(text: string): string {
    Trim(Last(Split(text, '\n')))
  }

  /** The question-mark test as written: the same ASCII mark tested twice. */
  predicate EndsWithQuestionAsWritten(line: string) {
    EndsWithChar(line, '?') || EndsWithChar(line, '?')
  }

  /** The question-mark test as intended: an ASCII or a full-width mark. */
  predicate EndsWithQuestion(line: string) {
    EndsWithChar(line, '?') || EndsWithChar(line, '？')
  }

  /** The detector's decision once the question-mark test is known. */
  function TurnEndOutcome(text: string, questioned: bool): Option<string> {
    var tail := TailText(text);
    if AnyContained(TurnEndCues, AsciiLower(tail)) then Some(TruncateText(tail, MaxPromptBytes))
    else if questioned && AnyContained(ActionWords, AsciiLower(text)) then Some(TruncateText(tail, MaxPromptBytes))
    else None
  }

  /** `detect_turn_end_confirm_prompt` as written, with the corrected truncation. */
  function DetectTurnEndConfirmPromptAsWritten(text: string): (r: Option<string>)
    ensures r.Some? <==> SomeOccursIn(TurnEndCues, AsciiLower(TailText(text)))
                         || (EndsWithChar(LastLine(text), '?') && SomeOccursIn(ActionWords, AsciiLower(text)))
    ensures r.Some? ==> r.value == TruncateText(TailText(text), MaxPromptBytes)
  {
    AnyContainedMeansOccurs(TurnEndCues, AsciiLower(TailText(text)));
    AnyContainedMeansOccurs(ActionWords, AsciiLower(text));
    TurnEndOutcome(text, EndsWithQuestionAsWritten(LastLine(text)))
  }

  /**
   * `detect_turn_end_confirm_prompt` entirely as written: the ASCII-only
   * question test, and the written truncation of the tail, which can panic.
   */
  function TurnEndAsWritten(text: string): (r: Detection)
    ensures r.NotFound? <==> DetectTurnEndConfirmPromptAsWritten(text).None?
    ensures r.Found? ==> DetectTurnEndConfirmPromptAsWritten(text) == Some(r.prompt)
    ensures r.Aborted? <==> DetectTurnEndConfirmPromptAsWritten(text).Some?
                            && TruncateTextAsWritten(TailText(text), MaxPromptBytes).None?
  {
    if DetectTurnEndConfirmPromptAsWritten(text).None? then NotFound else TruncatedAsWritten(TailText(text))
  }

  /**
   * `detect_turn_end_confirm_prompt` as intended: a cue in the last six
   * lines, or a last line ending in a question mark in a text that names
   * an action, marks a turn that ends by asking the user.
   */
  function DetectTurnEndConfirmPrompt(text: string): (r: Option<string>)
    ensures r.Some? <==> SomeOccursIn(TurnEndCues, AsciiLower(TailText(text)))
                         || (EndsWithQuestion(LastLine(text)) && SomeOccursIn(ActionWords, AsciiLower(text)))
    ensures r.Some? ==> r.value == TruncateText(TailText(text), MaxPromptBytes)
  {
    AnyContainedMeansOccurs(TurnEndCues, AsciiLower(TailText(text)));
    AnyContainedMeansOccurs(ActionWords, AsciiLower(text));
    TurnEndOutcome(text, EndsWithQuestion(LastLine(text)))
  }

  /** The two tests differ exactly on a full-width question mark. */
  lemma QuestionMarkTestsDiffer(line: string)
    ensures EndsWithQuestionAsWritten(line) ==> EndsWithQuestion(line)
    ensures EndsWithQuestion(line) && !EndsWithQuestionAsWritten(line) <==> EndsWithChar(line, '？')
  {
  }

  lemma OneLineTail(text: string)
    requires '\n' !in text && text != [] && !IsWhitespace(text[0]) && !IsWhitespace(text[|text| - 1])
    ensures LastLine(text) == text && TailText(text) == text
  {
    SplitOfSeparatorFree(text, '\n');
    TrimOfUnpadded(text);
    assert TailLines([text]) == [text];
  }

  lemma NotOccurringAt(pattern: string, s: string, i: nat)
    requires |pattern| > 0 && forall j :: 0 <= j < |s| ==> s[j] != pattern[0]
    ensures !OccursAt(pattern, s, i)
  {
    if i + |pattern| <= |s| {
      assert s[i..i + |pattern|][0] == s[i];
    }
  }

  lemma NoCueIn(text: string)
    requires forall i :: 0 <= i < |text| ==> text[i] in {'开', '始', '吗', '？'}
    ensures !AnyContained(TurnEndCues, text)
  {
    forall k | 0 <= k < |TurnEndCues| ensures !Contains(text, TurnEndCues[k]) {
      ContainsMeansOccurs(text, TurnEndCues[k]);
      forall i: nat ensures !OccursAt(TurnEndCues[k], text, i) {
        NotOccurringAt(TurnEndCues[k], text, i);
      }
    }
  }

  /** A one-line question that ends in a full-width mark and names an action but no cue is missed as written and caught as intended. */
  lemma FullWidthQuestionOutcome(text: string)
    requires '\n' !in text && text != [] && !IsWhitespace(text[0]) && EndsWithChar(text, '？')
    requires !AnyContained(TurnEndCues, AsciiLower(text)) && AnyContained(ActionWords, AsciiLower(text))
    ensures DetectTurnEndConfirmPromptAsWritten(text).None?
    ensures DetectTurnEndConfirmPrompt(text).Some?
  {
    OneLineTail(text);
  }

  /** The question "开始吗？" ("start?") is such a text. */
  lemma FullWidthQuestionExample()
    ensures DetectTurnEndConfirmPromptAsWritten("开始吗？").None?
    ensures DetectTurnEndConfirmPrompt("开始吗？").Some?
  {
    var text := "开始吗？";
    assert AsciiLower(text) == text;
    NoCueIn(text);
    assert Contains(text, ActionWords[0]);
    FullWidthQuestionOutcome(text);
  }

  /** The tail holds the last lines, newest first. */
  lemma TailLinesAreLastLines(lines: seq<string>, k: nat)
    requires k < |TailLines(lines)|
    ensures TailLines(lines)[k] == lines[|lines| - 1 - k]
  {
  }

  /* ---------------------------------------------------------------- */
  /* Whitespace normalisation                                         */
  /* ---------------------------------------------------------------- */

  predicate NoWhitespace(s: string) {
    forall i :: 0 <= i < |s| ==> !IsWhitespace(s[i])
  }

  /** The leading run of non-whitespace characters. */
  function FirstWord(s: string): (w: string)
    ensures |w| <= |s| && w == s[..|w|] && NoWhitespace(w)
    ensures |w| == |s| || IsWhitespace(s[|w|])
    ensures s != [] && !IsWhitespace(s[0]) ==> |w| > 0
  {
    if s == [] || IsWhitespace(s[0]) then []
    else
      var rest := FirstWord(s[1..]);
      assert [s[0]] + rest == s[..|rest| + 1];
      [s[0]] + rest
  }

  /** `split_whitespace`: the maximal runs of non-whitespace characters, in order. */
  function Words(s: string): (ws: seq<string>)
    ensures forall i :: 0 <= i < |ws| ==> ws[i] != [] && NoWhitespace(ws[i])
    decreases |s|
  {
    var t := TrimStart(s);
    if t == [] then []
    else
      var w := FirstWord(t);
      assert 0 < |w| <= |t| <= |s|;
      var rest := Words(t[|w|..]);
      AllWordsCons(w, rest);
      [w] + rest
  }

  lemma AllWordsCons(w: string, rest: seq<string>)
    requires w != [] && NoWhitespace(w)
    requires forall i :: 0 <= i < |rest| ==> rest[i] != [] && NoWhitespace(rest[i])
    ensures forall i :: 0 <= i < |[w] + rest| ==> ([w] + rest)[i] != [] && NoWhitespace(([w] + rest)[i])
  {
  }

  /** `normalize_confirm_text`: the words of the text separated by single spaces. */
  function NormalizeConfirmText(text: string): string {
    Join(Words(text), " ")
  }

  /** A word followed by whitespace or nothing is the first word, and the rest is split on its own. */
  lemma WordsStep(w: string, rest: string)
    requires w != [] && NoWhitespace(w)
    requires rest == [] || IsWhitespace(rest[0])
    ensures Words(w + rest) == [w] + Words(rest)
  {
    var s := w + rest;
    assert !IsWhitespace(s[0]);
    assert TrimStart(s) == s;
    FirstWordOfWord(w, rest);
    assert s[|w|..] == rest;
  }

  lemma WordsSkipSpace(s: string)
    ensures Words(" " + s) == Words(s)
  {
    assert (" " + s)[1..] == s;
    assert TrimStart(" " + s) == TrimStart(s);
  }

  /** Words joined by single spaces split back into the same words. */
  lemma {:induction false} WordsOfJoin(ws: seq<string>)
    requires forall i :: 0 <= i < |ws| ==> ws[i] != [] && NoWhitespace(ws[i])
    ensures Words(Join(ws, " ")) == ws
    decreases |ws|
  {
    if |ws| == 0 {
      WordsOfNothing();
    } else if |ws| == 1 {
      WordsOfWord(ws[0]);
      assert ws == [ws[0]];
    } else {
      var head, tail := ws[0], ws[1..];
      WordsOfJoin(tail);
      JoinCons(head, tail);
      WordsAroundSpace(head, Join(tail, " "));
      HeadTail(ws);
    }
  }

  lemma JoinCons(head: string, tail: seq<string>)
    requires |tail| >= 1
    ensures Join([head] + tail, " ") == head + " " + Join(tail, " ")
  {
    assert ([head] + tail)[1..] == tail;
  }

  lemma WordsOfWord(w: string)
    requires w != [] && NoWhitespace(w)
    ensures Words(w) == [w]
  {
    WordsOfNothing();
    WordsStep(w, "");
    assert w + "" == w;
  }

  /** A word, a space and more text split into the word and the words of the text. */
  lemma WordsAroundSpace(w: string, rest: string)
    requires w != [] && NoWhitespace(w)
    ensures Words(w + " " + rest) == [w] + Words(rest)
  {
    assert w + " " + rest == w + (" " + rest);
    WordsStep(w, " " + rest);
    WordsSkipSpace(rest);
  }

  lemma WordsOfNothing()
    ensures Words("") == []
  {
    assert TrimStart("") == "";
  }

  lemma {:induction false} FirstWordOfWord(w: string, tail: string)
    requires NoWhitespace(w)
    requires tail == [] || IsWhitespace(tail[0])
    ensures FirstWord(w + tail) == w
    decreases |w|
  {
    if w != [] {
      FirstWordOfWord(w[1..], tail);
      assert (w + tail)[1..] == w[1..] + tail;
    }
  }

  /** Leading blank text makes no difference to what `trim_start` leaves. */
  lemma {:induction false} TrimStartSkipsBlank(g: string, s: string)
    requires IsBlank(g)
    ensures TrimStart(g + s) == TrimStart(s)
    decreases |g|
  {
    if g != [] {
      TrimStartDropsFirst(g, s);
      TrimStartSkipsBlank(g[1..], s);
    } else {
      assert g + s == s;
    }
  }

  lemma TrimStartDropsFirst(g: string, s: string)
    requires g != [] && IsWhitespace(g[0])
    ensures TrimStart(g + s) == TrimStart(g[1..] + s)
  {
    assert (g + s)[0] == g[0] && (g + s)[1..] == g[1..] + s;
  }

  /** Leading blank text makes no difference to the words. */
  lemma WordsSkipBlank(g: string, s: string)
    requires IsBlank(g)
    ensures Words(g + s) == Words(s)
  {
    TrimStartSkipsBlank(g, s);
  }

  /** A word, a non-empty blank gap and more text split into the word and the words of the text. */
  lemma WordsAroundGap(w: string, g: string, rest: string)
    requires w != [] && NoWhitespace(w)
    requires g != [] && IsBlank(g)
    ensures Words(w + g + rest) == [w] + Words(rest)
  {
    assert w + g + rest == w + (g + rest);
    WordsStep(w, g + rest);
    WordsSkipBlank(g, rest);
  }

  /**
   * Words laid out between gaps: `gaps[0] + ws[0] + gaps[1] + ... + ws[n-1] + gaps[n]`.
   */
  function Spaced(ws: seq<string>, gaps: seq<string>): string
    requires |gaps| == |ws| + 1
    decreases |ws|
  {
    if ws == [] then gaps[0] else gaps[0] + ws[0] + Spaced(ws[1..], gaps[1..])
  }

  /** Gaps that `split_whitespace` skips: all blank, and those between two words non-empty. */
  predicate ValidGaps(ws: seq<string>, gaps: seq<string>) {
    && |gaps| == |ws| + 1
    && (forall i :: 0 <= i < |gaps| ==> IsBlank(gaps[i]))
    && (forall i :: 0 < i < |ws| ==> gaps[i] != [])
  }

  predicate AllWords(ws: seq<string>) {
    forall i :: 0 <= i < |ws| ==> ws[i] != [] && NoWhitespace(ws[i])
  }

  lemma SpacedCons(ws: seq<string>, gaps: seq<string>)
    requires |gaps| == |ws| + 1 && ws != []
    ensures Spaced(ws, gaps) == gaps[0] + (ws[0] + Spaced(ws[1..], gaps[1..]))
  {
  }

  /** Laid-out words begin with their first gap when it is not empty. */
  lemma SpacedStartsWithGap(ws: seq<string>, gaps: seq<string>)
    requires |gaps| == |ws| + 1 && gaps[0] != []
    ensures Spaced(ws, gaps) != [] && Spaced(ws, gaps)[0] == gaps[0][0]
  {
  }

  lemma ValidGapsTail(ws: seq<string>, gaps: seq<string>)
    requires ValidGaps(ws, gaps) && ws != []
    ensures ValidGaps(ws[1..], gaps[1..])
    ensures |ws| > 1 ==> gaps[1] != [] && IsBlank(gaps[1])
    ensures |ws| == 1 ==> IsBlank(gaps[1])
  {
    assert forall i :: 0 < i < |ws[1..]| ==> gaps[1..][i] == gaps[i + 1];
    assert forall i :: 0 <= i < |gaps[1..]| ==> gaps[1..][i] == gaps[i + 1];
  }

  /** Words laid out between blank gaps, however wide, split back into exactly those words. */
  lemma {:induction false} WordsOfSpaced(ws: seq<string>, gaps: seq<string>)
    requires AllWords(ws) && ValidGaps(ws, gaps)
    ensures Words(Spaced(ws, gaps)) == ws
    decreases |ws|
  {
    if ws == [] {
      WordsSkipBlank(gaps[0], "");
      assert gaps[0] + "" == gaps[0];
      WordsOfNothing();
    } else {
      var rest := Spaced(ws[1..], gaps[1..]);
      ValidGapsTail(ws, gaps);
      WordsOfSpaced(ws[1..], gaps[1..]);
      SpacedCons(ws, gaps);
      WordsSkipBlank(gaps[0], ws[0] + rest);
      if |ws| > 1 {
        SpacedStartsWithGap(ws[1..], gaps[1..]);
      }
      WordsStep(ws[0], rest);
      HeadTail(ws);
    }
  }

  /** Normalising words laid out between any blank gaps joins them with single spaces. */
  lemma NormalizeSpaced(ws: seq<string>, gaps: seq<string>)
    requires AllWords(ws) && ValidGaps(ws, gaps)
    ensures NormalizeConfirmText(Spaced(ws, gaps)) == Join(ws, " ")
  {
    WordsOfSpaced(ws, gaps);
  }

  /** The blank gaps around the words of `s`: the leading blank, then the gap after each word. */
  function Gaps(s: string): (gaps: seq<string>)
    ensures |gaps| >= 1
    decreases |s|
  {
    var t := TrimStart(s);
    if t == [] then [s]
    else
      var w := FirstWord(t);
      [s[..|s| - |t|]] + Gaps(t[|w|..])
  }

  /** One step of `Words` and `Gaps` together: the first word, and the gap before it. */
  lemma GapsStep(s: string)
    requires TrimStart(s) != []
    ensures var t := TrimStart(s); var w := FirstWord(t); var t' := t[|w|..];
            && Words(s) == [w] + Words(t')
            && Gaps(s) == [s[..|s| - |t|]] + Gaps(t')
  {
  }

  /** A text with a non-blank character is a blank lead, its first word, and a rest that starts with whitespace. */
  lemma SplitAtFirstWord(s: string)
    requires TrimStart(s) != []
    ensures var t := TrimStart(s); var w := FirstWord(t); var t' := t[|w|..];
            && w != [] && NoWhitespace(w)
            && IsBlank(s[..|s| - |t|])
            && s == s[..|s| - |t|] + (w + t')
            && (t' == [] || IsWhitespace(t'[0]))
  {
    LeadThenTrimmed(s);
    WordThenRest(TrimStart(s));
  }

  lemma LeadThenTrimmed(s: string)
    ensures s == s[..|s| - |TrimStart(s)|] + TrimStart(s)
  {
  }

  /** Text that starts with a non-blank is its first word followed by text that starts with whitespace. */
  lemma WordThenRest(t: string)
    requires t != [] && !IsWhitespace(t[0])
    ensures var w := FirstWord(t); var t' := t[|w|..];
            && w != [] && NoWhitespace(w) && t == w + t'
            && (t' == [] || IsWhitespace(t'[0]))
  {
    var w := FirstWord(t);
    assert t[|w|..] != [] ==> t[|w|..][0] == t[|w|];
  }

  /** Text that starts with whitespace has a non-empty leading gap. */
  lemma LeadingGapNonEmpty(s: string)
    requires s != [] && IsWhitespace(s[0])
    ensures Gaps(s)[0] != []
  {
    assert TrimStart(s) == TrimStart(s[1..]);
  }

  /**
   * Every text is its words laid out between blank gaps whose inner ones are
   * non-empty: the words are the maximal runs of non-whitespace, in order.
   */
  lemma {:induction false} SpacedWords(s: string)
    ensures ValidGaps(Words(s), Gaps(s))
    ensures Spaced(Words(s), Gaps(s)) == s
    decreases |s|
  {
    var t := TrimStart(s);
    if t != [] {
      GapsStep(s);
      SplitAtFirstWord(s);
      var w := FirstWord(t);
      var t' := t[|w|..];
      var lead := s[..|s| - |t|];
      SpacedWords(t');
      if t' != [] {
        LeadingGapNonEmpty(t');
      } else {
        WordsOfNothing();
      }
      ValidGapsCons(w, Words(t'), lead, Gaps(t'));
      SpacedCons(Words(s), Gaps(s));
      assert Words(s)[1..] == Words(t') && Gaps(s)[1..] == Gaps(t');
    } else {
      assert s[..|s|] == s;
      WordsOfNothing();
    }
  }

  lemma ValidGapsCons(w: string, ws: seq<string>, g: string, gaps: seq<string>)
    requires ValidGaps(ws, gaps) && IsBlank(g)
    requires ws != [] ==> gaps[0] != []
    ensures ValidGaps([w] + ws, [g] + gaps)
  {
    assert forall i :: 0 < i < |[g] + gaps| ==> ([g] + gaps)[i] == gaps[i - 1];
  }

  /** Normalising twice gives the same text as normalising once. */
  lemma NormalizeIdempotent(text: string)
    ensures NormalizeConfirmText(NormalizeConfirmText(text)) == NormalizeConfirmText(text)
  {
    WordsOfJoin(Words(text));
  }
}
