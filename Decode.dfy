/**
 * The pure decoders of the shipping watcher: timestamp normalisation, the
 * best-effort text extraction over heterogeneous message payloads, the
 * content-type probe, and the one-line summary of a dispatch result.
 */
module Decode {
  import opened Base
  import opened Json
  import opened Text

  /* ---------------------------------------------------------------- */
  /* Timestamps                                                       */
  /* ---------------------------------------------------------------- */

  /** Values below this are taken to be seconds rather than milliseconds. */
  const MillisThreshold: int := 1_000_000_000_000

  /** Seconds are scaled to milliseconds; larger values are kept. */
  function ToMillis(v: int): (r: int)
    ensures v < MillisThreshold ==> r == v * 1000
    ensures v >= MillisThreshold ==> r == v
  {
    if v < MillisThreshold then v * 1000 else v
  }

  /**
   * `parse_timestamp`: a JSON integer, or a string holding one, is
   * normalised to milliseconds; anything that is neither a number nor a
   * string gives nothing.
   */
  function ParseTimestamp(v: Json, textTime: string -> Option<int>): (r: Option<int>)
    ensures !(v.Num? || v.Str?) ==> r.None?
    ensures v.Num? ==> (r.Some? <==> v.n.Int? && InI64(v.n.v))
    ensures v.Num? && r.Some? && v.n.v < MillisThreshold ==> r.value == v.n.v * 1000
    ensures v.Num? && r.Some? && v.n.v >= MillisThreshold ==> r.value == v.n.v
  {
    match v
    case Num(_) =>
      var n := AsI64(v);
      if n.Some? then Some(ToMillis(n.value)) else None
    case Str(s) => TextTimestamp(s, textTime)
    case _ => None
  }

  /**
   * The string branch of `parse_timestamp`: a blank string gives nothing, a
   * decimal integer is normalised, and any other text goes to `textTime`,
   * which stands for the floating-point and RFC 3339 readings.
   */
  function TextTimestamp(s: string, textTime: string -> Option<int>): (r: Option<int>)
    ensures IsBlank(s) ==> r.None?
    ensures !IsBlank(s) && ParseInt64(Trim(s)).None? ==> r == textTime(Trim(s))
    ensures ParseInt64(Trim(s)).Some? ==> r == Some(ToMillis(ParseInt64(Trim(s)).value))
  {
    var trimmed := Trim(s);
    if trimmed == [] then None
    else
      var n := ParseInt64(trimmed);
      if n.Some? then Some(ToMillis(n.value)) else textTime(trimmed)
  }

  /** `obj.get("timestamp").and_then(parse_timestamp)`. */
  function TimestampOf(obj: Json, textTime: string -> Option<int>): (r: Option<int>)
    ensures r.Some? ==> Get(obj, "timestamp").Some? && (Get(obj, "timestamp").value.Num? || Get(obj, "timestamp").value.Str?)
  {
    var t := Get(obj, "timestamp");
    if t.Some? then ParseTimestamp(t.value, textTime) else None
  }

  lemma StringTimestamp(s: string, textTime: string -> Option<int>)
    ensures ParseTimestamp(Str(s), textTime) == TextTimestamp(s, textTime)
  {
  }

  lemma IntegerTimestamp(n: int, textTime: string -> Option<int>)
    requires InI64(n)
    ensures ParseTimestamp(Num(Int(n)), textTime) == Some(ToMillis(n))
  {
  }

  /** An unpadded string that parses as an integer gives that integer, normalised. */
  lemma ReadsTrimmedInteger(s: string, n: int, textTime: string -> Option<int>)
    requires s != [] && Trim(s) == s && ParseInt64(s) == Some(n)
    ensures TextTimestamp(s, textTime) == Some(ToMillis(n))
  {
  }

  /** A decimal string is read exactly as the number it spells. */
  lemma TimestampStringAgreesWithNumber(n: int, textTime: string -> Option<int>)
    requires InI64(n)
    ensures ParseTimestamp(Str(IntToString(n)), textTime) == ParseTimestamp(Num(Int(n)), textTime)
  {
    var s := IntToString(n);
    IntToStringRoundTrip(n);
    IntToStringIsTrimmed(n);
    ReadsTrimmedInteger(s, n, textTime);
    IntegerTimestamp(n, textTime);
    StringTimestamp(s, textTime);
  }

  /** Normalising twice changes nothing exactly when the value is zero or already at least 10^9. */
  lemma ToMillisIdempotentIff(v: int)
    ensures ToMillis(ToMillis(v)) == ToMillis(v) <==> v == 0 || v >= 1_000_000_000
  {
    if v < 1_000_000_000 && v != 0 {
      if v > 0 {
        assert v * 1000 < MillisThreshold;
        assert v * 1000 * 1000 != v * 1000;
      } else {
        assert v * 1000 < 0;
        assert v * 1000 * 1000 < v * 1000;
      }
    } else if v >= 1_000_000_000 && v < MillisThreshold {
      assert v * 1000 >= MillisThreshold;
    }
  }

  /** The example readings of seconds and of milliseconds. */
  lemma TimestampExamples(textTime: string -> Option<int>)
    ensures ParseTimestamp(Num(Int(1700000000)), textTime) == Some(1700000000000)
    ensures ParseTimestamp(Num(Int(1700000000000)), textTime) == Some(1700000000000)
  {
    IntegerTimestamp(1700000000, textTime);
    IntegerTimestamp(1700000000000, textTime);
  }

  /* ---------------------------------------------------------------- */
  /* Content probes and text extraction                               */
  /* ---------------------------------------------------------------- */

  /** `has_content_type`: some item of the `content` array has `type == expected`. */
  function HasContentType(message: Json, expected: string): (r: bool)
    ensures r <==> AsArray(Get(message, "content")).Some?
                   && exists i :: 0 <= i < |AsArray(Get(message, "content")).value|
                                  && StrField(AsArray(Get(message, "content")).value[i], "type") == Some(expected)
  {
    var items := AsArray(Get(message, "content"));
    items.Some? && AnyHasType(items.value, expected)
  }

  function AnyHasType(items: seq<Json>, expected: string): (r: bool)
    ensures r <==> exists i :: 0 <= i < |items| && StrField(items[i], "type") == Some(expected)
  {
    if items == [] then false
    else StrField(items[0], "type") == Some(expected) || AnyHasType(items[1..], expected)
  }

  /** The object members tried, in order, by the extractor. */
  const TextFields: seq<string> := ["text", "content", "message", "value", "data"]

  /** The non-empty strings of `xs`, in order. */
  function NonEmpty(xs: seq<string>): (r: seq<string>)
    ensures |r| <= |xs|
    ensures forall i :: 0 <= i < |r| ==> r[i] != "" && r[i] in xs
    ensures r == [] <==> forall i :: 0 <= i < |xs| ==> xs[i] == ""
    ensures "" !in xs ==> r == xs
  {
    if xs == [] then []
    else if xs[0] == "" then NonEmpty(xs[1..])
    else [xs[0]] + NonEmpty(xs[1..])
  }

  /**
   * `extract_text_from_any`: a string is itself; an array joins the
   * non-empty extractions of its elements with line feeds; an object gives
   * the first of its text-like members that is a string, or the first that
   * is an array with a non-empty extraction; anything else gives "".
   */
  function ExtractTextFromAny(v: Json): string
    decreases v, 6
  {
    match v
    case Str(s) => s
    case Arr(items) =>
      Join(NonEmpty(seq(|items|, i requires 0 <= i < |items| => ExtractTextFromAny(items[i]))), "\n")
    case Obj(m) => FieldScan(m, TextFields)
    case _ => ""
  }

  function FieldScan(m: map<string, Json>, fields: seq<string>): string
    decreases Obj(m), |fields|
  {
    if fields == [] then ""
    else
      var f := fields[0];
      if f in m && m[f].Str? then m[f].s
      else if f in m && m[f].Arr? && ExtractTextFromAny(m[f]) != "" then ExtractTextFromAny(m[f])
      else FieldScan(m, fields[1..])
  }

  /** One step of the filter: the first string is kept when it is not empty. */
  lemma NonEmptyCons(a: seq<string>, b: seq<string>)
    requires a != []
    ensures NonEmpty(a + b) == (if a[0] == "" then [] else [a[0]]) + NonEmpty(a[1..] + b)
  {
    assert (a + b)[0] == a[0] && (a + b)[1..] == a[1..] + b;
  }

  /** Dropping the empty strings of two lists joined drops them from each, keeping the order. */
  lemma {:induction false} NonEmptyAppend(a: seq<string>, b: seq<string>)
    ensures NonEmpty(a + b) == NonEmpty(a) + NonEmpty(b)
    decreases |a|
  {
    if a == [] {
      assert a + b == b;
    } else {
      NonEmptyCons(a, b);
      NonEmptyAppend(a[1..], b);
      ConcatRegroup(NonEmpty(a + b), NonEmpty(a), if a[0] == "" then [] else [a[0]], NonEmpty(a[1..]), NonEmpty(b));
    }
  }

  /** A member the object scan accepts: a string, or an array with a non-empty extraction. */
  predicate Qualifies(m: map<string, Json>, f: string) {
    f in m && (m[f].Str? || (m[f].Arr? && ExtractTextFromAny(m[f]) != ""))
  }

  /** One step of the object scan: the first listed member if it qualifies, else the scan of the rest. */
  lemma FieldScanStep(m: map<string, Json>, fields: seq<string>)
    requires fields != []
    ensures FieldScan(m, fields) == if Qualifies(m, fields[0]) then ExtractTextFromAny(m[fields[0]]) else FieldScan(m, fields[1..])
  {
  }

  /** The object scan gives "" when no listed member qualifies. */
  lemma {:induction false} FieldScanNoneQualifies(m: map<string, Json>, fields: seq<string>)
    requires forall j :: 0 <= j < |fields| ==> !Qualifies(m, fields[j])
    ensures FieldScan(m, fields) == ""
    decreases |fields|
  {
    if fields != [] {
      FieldScanStep(m, fields);
      assert forall j :: 0 <= j < |fields| - 1 ==> fields[1..][j] == fields[j + 1];
      FieldScanNoneQualifies(m, fields[1..]);
    }
  }

  /** The object scan gives the extraction of the first listed member that qualifies. */
  lemma {:induction false} FieldScanPicksFirst(m: map<string, Json>, fields: seq<string>, k: nat)
    requires k < |fields| && Qualifies(m, fields[k])
    requires forall j :: 0 <= j < k ==> !Qualifies(m, fields[j])
    ensures FieldScan(m, fields) == ExtractTextFromAny(m[fields[k]])
    decreases k
  {
    FieldScanStep(m, fields);
    if k > 0 {
      assert fields[1..][k - 1] == fields[k];
      assert forall j :: 0 <= j < k - 1 ==> fields[1..][j] == fields[j + 1];
      FieldScanPicksFirst(m, fields[1..], k - 1);
    }
  }

  /** The extractions of the elements of an array, in order. */
  function ItemTexts(items: seq<Json>): (ts: seq<string>)
    ensures |ts| == |items|
    ensures forall i :: 0 <= i < |items| ==> ts[i] == ExtractTextFromAny(items[i])
  {
    seq(|items|, i requires 0 <= i < |items| => ExtractTextFromAny(items[i]))
  }

  lemma ItemTextsAppend(a: seq<Json>, b: seq<Json>)
    ensures ItemTexts(a + b) == ItemTexts(a) + ItemTexts(b)
  {
  }

  /** Joining two non-empty lists of pieces puts one separator between their joins. */
  lemma {:induction false} JoinAppend(p: seq<string>, q: seq<string>, sep: string)
    requires |p| > 0 && |q| > 0
    ensures Join(p + q, sep) == Join(p, sep) + sep + Join(q, sep)
    decreases |p|
  {
    if |p| > 1 {
      JoinAppend(p[1..], q, sep);
      assert (p + q)[1..] == p[1..] + q;
    } else {
      assert (p + q)[1..] == q;
    }
  }

  /** An array extracts to the join of its elements' non-empty extractions. */
  lemma ExtractArray(items: seq<Json>)
    ensures ExtractTextFromAny(Arr(items)) == Join(NonEmpty(ItemTexts(items)), "\n")
  {
    assert ItemTexts(items) == seq(|items|, i requires 0 <= i < |items| => ExtractTextFromAny(items[i]));
  }

  /** An array of one element extracts to what the element extracts to. */
  lemma ExtractSingleton(v: Json)
    ensures ExtractTextFromAny(Arr([v])) == ExtractTextFromAny(v)
  {
    ExtractArray([v]);
    assert ItemTexts([v]) == [ExtractTextFromAny(v)];
  }

  /**
   * The extraction of two arrays joined keeps the order: the first part's
   * text, a line feed, then the second's, with an empty part leaving no
   * line feed behind.
   */
  lemma ExtractArrayConcat(a: seq<Json>, b: seq<Json>)
    ensures var x, y := ExtractTextFromAny(Arr(a)), ExtractTextFromAny(Arr(b));
            ExtractTextFromAny(Arr(a + b)) == if x == "" then y else if y == "" then x else x + "\n" + y
  {
    var p, q := NonEmpty(ItemTexts(a)), NonEmpty(ItemTexts(b));
    ExtractArray(a);
    ExtractArray(b);
    ExtractArray(a + b);
    ItemTextsAppend(a, b);
    NonEmptyAppend(ItemTexts(a), ItemTexts(b));
    if p != [] {
      JoinOfNonEmptyIsNonEmpty(p, "\n");
    }
    if q != [] {
      JoinOfNonEmptyIsNonEmpty(q, "\n");
    }
    if p == [] {
      assert p + q == q;
    } else if q == [] {
      assert p + q == p;
    } else {
      JoinAppend(p, q, "\n");
    }
  }

  /** `extract_message_text`: a `content` array first, then a `content` string, then the general extractor. */
  function ExtractMessageText(message: Json): string {
    var content := Get(message, "content");
    if AsArray(content).Some? then ExtractTextFromAny(content.value)
    else if AsStr(content).Some? then AsStr(content).value
    else ExtractTextFromAny(message)
  }

  /** `obj.get(key).unwrap_or(&Value::Null)`. */
  function MemberOrNull(obj: Json, key: string): Json {
    Get(obj, key).GetOr(Null)
  }

  /** Whether `c` occurs in some string anywhere inside `v`. */
  ghost predicate Mentions(v: Json, c: char)
    decreases v
  {
    match v
    case Str(s) => c in s
    case Arr(items) => exists i :: 0 <= i < |items| && Mentions(items[i], c)
    case Obj(m) => exists k :: k in m && Mentions(m[k], c)
    case _ => false
  }

  lemma {:induction false} JoinChars(parts: seq<string>, sep: string, c: char)
    requires c in Join(parts, sep)
    ensures c in sep || exists i :: 0 <= i < |parts| && c in parts[i]
  {
    if |parts| > 1 {
      if c !in parts[0] && c !in sep {
        JoinChars(parts[1..], sep, c);
        var i :| 0 <= i < |parts[1..]| && c in parts[1..][i];
        assert c in parts[i + 1];
      }
    }
  }

  /** The extractor never invents text: every character it returns is a line feed or comes from a string inside the value. */
  lemma {:induction false} ExtractNeverInvents(v: Json, c: char)
    requires c in ExtractTextFromAny(v)
    ensures c == '\n' || Mentions(v, c)
    decreases v, 6
  {
    match v
    case Str(s) =>
    case Arr(items) =>
      var texts := seq(|items|, i requires 0 <= i < |items| => ExtractTextFromAny(items[i]));
      JoinChars(NonEmpty(texts), "\n", c);
      if c != '\n' {
        var j :| 0 <= j < |NonEmpty(texts)| && c in NonEmpty(texts)[j];
        var i :| 0 <= i < |texts| && texts[i] == NonEmpty(texts)[j];
        ExtractNeverInvents(items[i], c);
      }
    case Obj(m) =>
      FieldScanNeverInvents(m, TextFields, c);
    case _ =>
  }

  lemma {:induction false} FieldScanNeverInvents(m: map<string, Json>, fields: seq<string>, c: char)
    requires c in FieldScan(m, fields)
    ensures c == '\n' || Mentions(Obj(m), c)
    decreases Obj(m), |fields|
  {
    var f := fields[0];
    if f in m && m[f].Str? {
      assert Mentions(m[f], c);
    } else if f in m && m[f].Arr? && ExtractTextFromAny(m[f]) != "" {
      ExtractNeverInvents(m[f], c);
    } else {
      FieldScanNeverInvents(m, fields[1..], c);
    }
  }

  /** An array extracts to "" exactly when every element does. */
  lemma ExtractArrayEmptyIff(items: seq<Json>)
    ensures ExtractTextFromAny(Arr(items)) == ""
            <==> forall i :: 0 <= i < |items| ==> ExtractTextFromAny(items[i]) == ""
  {
    var texts := seq(|items|, i requires 0 <= i < |items| => ExtractTextFromAny(items[i]));
    var parts := NonEmpty(texts);
    assert ExtractTextFromAny(Arr(items)) == Join(parts, "\n");
    assert forall i :: 0 <= i < |items| ==> texts[i] == ExtractTextFromAny(items[i]);
    if parts != [] {
      JoinOfNonEmptyIsNonEmpty(parts, "\n");
    }
  }

  lemma {:induction false} JoinOfNonEmptyIsNonEmpty(parts: seq<string>, sep: string)
    requires |parts| > 0 && parts[0] != ""
    ensures Join(parts, sep) != ""
  {
    if |parts| > 1 {
      assert |Join(parts, sep)| >= |parts[0]|;
    }
  }

  /** A message whose `content` is a string reads as that string even when it also has a `text` member, unlike the general extractor. */
  lemma MessageTextPrefersContent(content: string, text: string)
    ensures ExtractMessageText(Obj(map["content" := Str(content), "text" := Str(text)])) == content
    ensures ExtractTextFromAny(Obj(map["content" := Str(content), "text" := Str(text)])) == text
  {
  }

  /** The two example messages: a plain content string, and a content array with one text block. */
  lemma MessageTextExamples()
    ensures ExtractMessageText(Obj(map["content" := Str("Hello world")])) == "Hello world"
    ensures ExtractMessageText(Obj(map["content" := Arr([Obj(map["type" := Str("text"), "text" := Str("Hello")])])])) == "Hello"
  {
    var block := Obj(map["type" := Str("text"), "text" := Str("Hello")]);
    assert ExtractTextFromAny(block) == "Hello";
    var texts := seq(1, i requires 0 <= i < 1 => ExtractTextFromAny([block][i]));
    assert texts == ["Hello"];
    assert NonEmpty(texts) == ["Hello"];
  }

  /* ---------------------------------------------------------------- */
  /* Dispatch result summary                                          */
  /* ---------------------------------------------------------------- */

  /** A channel result whose `ok` is `true`. */
  predicate IsOk(result: Json) {
    AsBool(Get(result, "ok")) == Some(true)
  }

  /** Number of channel results whose `ok` member is `true`. */
  function CountOk(results: seq<Json>): (n: nat)
    ensures n <= |results|
    ensures n == |results| <==> forall i :: 0 <= i < |results| ==> IsOk(results[i])
    ensures n == 0 <==> forall i :: 0 <= i < |results| ==> !IsOk(results[i])
  {
    if results == [] then 0
    else
      var rest := results[1..];
      assert forall i :: 1 <= i < |results| ==> results[i] == rest[i - 1];
      (if IsOk(results[0]) then 1 else 0) + CountOk(rest)
  }

  /** Counting the successes of two runs of results adds up. */
  lemma {:induction false} CountOkAppend(a: seq<Json>, b: seq<Json>)
    ensures CountOk(a + b) == CountOk(a) + CountOk(b)
  {
    if a != [] {
      assert (a + b)[0] == a[0];
      assert (a + b)[1..] == a[1..] + b;
      CountOkAppend(a[1..], b);
    } else {
      assert a + b == b;
    }
  }

  /** The successful and the total number of channel results reported by a dispatch result. */
  function OkAndTotal(result: Json): (counts: (nat, nat))
    ensures counts.0 <= counts.1
  {
    var results := AsArray(Get(result, "results"));
    if results.Some? then (CountOk(results.value), |results.value|) else (0, 0)
  }

  /** `summarize_result`: "skipped: <reason>", or "sent: <ok>/<total>". */
  function SummarizeResult(result: Json): string {
    if AsBool(Get(result, "skipped")) == Some(true) then
      "skipped: " + StrField(result, "reason").GetOr("")
    else
      var counts := OkAndTotal(result);
      "sent: " + NatToString(counts.0) + "/" + NatToString(counts.1)
  }

  /** Two digit strings joined by a slash split back into the two. */
  lemma SlashPairSplits(a: string, b: string)
    requires AllDigits(a) && AllDigits(b)
    ensures Split(a + "/" + b, '/') == [a, b]
  {
    assert '/' !in a && '/' !in b;
    assert a + "/" + b == Join([a, b], ['/']);
    JoinSplit([a, b], '/');
  }

  /** A summary that is not "skipped" reads back as the two counts it reports. */
  lemma SummaryReadsBack(result: Json)
    requires AsBool(Get(result, "skipped")) != Some(true)
    ensures StartsWith(SummarizeResult(result), "sent: ")
    ensures var parts := Split(SummarizeResult(result)[6..], '/');
            |parts| == 2 && AllDigits(parts[0]) && AllDigits(parts[1])
            && DigitsValue(parts[0]) == OkAndTotal(result).0
            && DigitsValue(parts[1]) == OkAndTotal(result).1
  {
    var counts := OkAndTotal(result);
    NatToStringRoundTrip(counts.0);
    NatToStringRoundTrip(counts.1);
    SentLineParts(NatToString(counts.0), NatToString(counts.1));
  }

  /** The text after "sent: " splits at the slash into the two digit strings. */
  lemma SentLineParts(a: string, b: string)
    requires AllDigits(a) && AllDigits(b)
    ensures StartsWith("sent: " + a + "/" + b, "sent: ")
    ensures Split(("sent: " + a + "/" + b)[6..], '/') == [a, b]
  {
    assert ("sent: " + a + "/" + b)[6..] == a + "/" + b;
    SlashPairSplits(a, b);
  }
}
