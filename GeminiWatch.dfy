/**
 * The Gemini watcher of the shipping backend. Gemini keeps each chat as one
 * JSON document holding a `messages` array, so each tick re-reads the
 * newest chat file when its modification time moved and hands the messages
 * past the last count to `process_gemini_message`. A reply either raises a
 * confirm reminder at once or arms a debounce timer; the timer, when it
 * fires, notifies only if no later reply replaced the one it was armed for
 * and that reply was not notified yet. The sleeping task is modelled as an
 * explicit `Timer` value that `Fire` consumes.
 */
module GeminiWatch {
  import opened Base
  import opened Json
  import opened Text
  import opened Decode
  import opened Confirm
  import opened Watch
  import Follower

  const GeminiSource: string := "gemini"
  const GeminiDone: string := "Gemini 完成"

  /** `GeminiState`. */
  datatype GeminiState = GeminiState(
    currentFile: Option<string>,
    currentMtimeMs: int,
    lastCount: nat,
    lastUserAt: Option<int>,
    lastGeminiAt: Option<int>,
    lastNotifiedGeminiAt: Option<int>,
    lastGeminiContent: Option<string>,
    lastUserText: string,
    lastGeminiText: string,
    lastConfirmKey: string,
    lastConfirmAt: int,
    confirmNotifiedForTurn: bool)

  /** `GeminiState::new`. */
  const Initial: GeminiState := GeminiState(None, 0, 0, None, None, None, None, "", "", "", 0, false)

  /** A spawned debounce task: how long it sleeps, the reply time it was armed for, and the directory it will report. */
  datatype Timer = Timer(delayMs: nat, targetAt: Option<int>, cwd: string)

  /** What processing one message starts: nothing, a confirm reminder sent now, or a debounce timer. */
  datatype GeminiEffect = NoEffect | SendConfirm(notice: Notification) | Arm(timer: Timer)

  /** `trim_start_matches('\u{feff}')`: every leading byte order mark removed. */
  function StripLeadingBoms(s: string): string {
    if s != [] && s[0] == Follower.ByteOrderMark then StripLeadingBoms(s[1..]) else s
  }

  /** What stripping removes is a run of byte order marks at the front, and what it keeps does not start with one. */
  lemma {:induction false} StrippedBoms(s: string)
    ensures var r := StripLeadingBoms(s);
            && |r| <= |s| && r == s[|s| - |r|..]
            && (forall i :: 0 <= i < |s| - |r| ==> s[i] == Follower.ByteOrderMark)
            && (r == [] || r[0] != Follower.ByteOrderMark)
  {
    if s != [] && s[0] == Follower.ByteOrderMark {
      StrippedBoms(s[1..]);
      var r := StripLeadingBoms(s[1..]);
      assert s[1..][|s| - 1 - |r|..] == s[|s| - |r|..];
      forall i | 0 <= i < |s| - |r|
        ensures s[i] == Follower.ByteOrderMark
      {
        if i > 0 {
          assert s[i] == s[1..][i - 1];
        }
      }
    }
  }

  /** The string items of an array, in order. */
  function StringItems(items: seq<Json>): (r: seq<string>)
    ensures |r| <= |items|
    ensures forall t :: t in r <==> exists i :: 0 <= i < |items| && items[i] == Str(t)
  {
    if items == [] then []
    else
      var rest := items[1..];
      assert forall i :: 1 <= i < |items| ==> items[i] == rest[i - 1];
      (if items[0].Str? then [items[0].s] else []) + StringItems(rest)
  }

  /** The string items of two runs of items come out in run order. */
  lemma {:induction false} StringItemsAppend(a: seq<Json>, b: seq<Json>)
    ensures StringItems(a + b) == StringItems(a) + StringItems(b)
  {
    if a == [] {
      assert a + b == b;
    } else {
      assert (a + b)[0] == a[0];
      assert (a + b)[1..] == a[1..] + b;
      StringItemsAppend(a[1..], b);
    }
  }

  /** The string `text` members of an array's items, in order. */
  function PartTexts(items: seq<Json>): (r: seq<string>)
    ensures |r| <= |items|
    ensures forall t :: t in r <==> exists i :: 0 <= i < |items| && StrField(items[i], "text") == Some(t)
  {
    if items == [] then []
    else
      var rest := items[1..];
      assert forall i :: 1 <= i < |items| ==> items[i] == rest[i - 1];
      var t := StrField(items[0], "text");
      (if t.Some? then [t.value] else []) + PartTexts(rest)
  }

  /** The part texts of two runs of items come out in run order. */
  lemma {:induction false} PartTextsAppend(a: seq<Json>, b: seq<Json>)
    ensures PartTexts(a + b) == PartTexts(a) + PartTexts(b)
  {
    if a == [] {
      assert a + b == b;
    } else {
      assert (a + b)[0] == a[0];
      assert (a + b)[1..] == a[1..] + b;
      PartTextsAppend(a[1..], b);
    }
  }

  /** A reply's content: its `content` strings, else its parts' texts, else its `text`, the first of these that is not empty. */
  function ReplyContent(msg: Json): string {
    var content := Get(msg, "content");
    var fromContent :=
      if content.Some? && content.value.Arr? then Join(StringItems(content.value.items), "\n\n")
      else if content.Some? && content.value.Str? then content.value.s
      else "";
    var parts := AsArray(Get(msg, "parts"));
    var fromParts := if parts.Some? && fromContent == [] then Join(PartTexts(parts.value), "\n\n") else fromContent;
    var text := StrField(msg, "text");
    if text.Some? && fromParts == [] then text.value else fromParts
  }

  /**
   * What the watcher reads from a message: its time, its type, its text,
   * whether that text is a confirm prompt, and its reply content.
   */
  datatype Message = Message(ts: Option<int>, kind: Option<string>, text: string, prompt: bool, content: string)

  function ReadMessage(msg: Json, textTime: string -> Option<int>): Message {
    var text := ExtractMessageText(msg);
    Message(TimestampOf(msg, textTime), StrField(msg, "type"), text, Detect(true, text).Some?, ReplyContent(msg))
  }

  /** The messages of a chat, read. */
  function ReadAll(msgs: seq<Json>, textTime: string -> Option<int>): (ms: seq<Message>)
    ensures |ms| == |msgs|
  {
    seq(|msgs|, i requires 0 <= i < |msgs| => ReadMessage(msgs[i], textTime))
  }

  /** A message's reading marks a confirm prompt exactly when its text holds a confirm keyword. */
  lemma PromptMeansKeyword(msg: Json, textTime: string -> Option<int>)
    ensures var text := ExtractMessageText(msg);
            ReadMessage(msg, textTime).prompt <==> SomeOccursIn(KeywordsCn, text) || SomeOccursIn(KeywordsEn, AsciiLower(text))
  {
  }

  /** A user message starts a turn: its time and text; the reply, its notification mark, the key and the flag are cleared. */
  function UserStep(s: GeminiState, m: Message): GeminiState {
    s.(lastUserAt := m.ts, lastUserText := m.text, lastGeminiAt := None, lastNotifiedGeminiAt := None,
       lastGeminiText := "", lastConfirmKey := "", confirmNotifiedForTurn := false)
  }

  /** The content kept after a reply: the reply's content unless it is blank. */
  function KeptContent(kept: Option<string>, content: string): Option<string> {
    if !IsBlank(content) then Some(content) else kept
  }

  /** Blank is what trimming to nothing means: the content is kept exactly when its trimmed form is not empty. */
  lemma KeptUnlessTrimmedEmpty(kept: Option<string>, content: string)
    ensures KeptContent(kept, content) == if Trim(content) != [] then Some(content) else kept
  {
  }

  /** The text kept after a reply: the reply's text unless it is empty. */
  function KeptText(kept: string, text: string): string {
    if text != [] then text else kept
  }

  /** A reply's time, its content unless blank, and its text unless empty. */
  function TakeReply(s: GeminiState, m: Message): GeminiState {
    s.(lastGeminiAt := m.ts, lastGeminiContent := KeptContent(s.lastGeminiContent, m.content),
       lastGeminiText := KeptText(s.lastGeminiText, m.text))
  }

  /** A reply: a reminder when the detector is on and finds a prompt, otherwise a timer armed for this reply, unless the turn was notified. */
  function ReplyStep(s: GeminiState, m: Message, cx: Context, cfg: Settings): (GeminiState, GeminiEffect) {
    var s1 := TakeReply(s, m);
    if s1.confirmNotifiedForTurn then (s1, NoEffect)
    else if cfg.confirmEnabled && m.prompt then
      (s1.(confirmNotifiedForTurn := true, lastConfirmAt := cx.now), SendConfirm(ConfirmNotice(GeminiSource, cx)))
    else (s1, Arm(Timer(cfg.quietMs, s1.lastGeminiAt, cx.currentDir)))
  }

  /**
   * `ReplyStep` as written: when the detector is consulted on a reply whose
   * written truncation panics, the watch loop's task stops (`None`);
   * otherwise it steps as `ReplyStep` does.
   */
  function ReplyStepAsWritten(s: GeminiState, m: Message, cx: Context, cfg: Settings)
    : (o: Option<(GeminiState, GeminiEffect)>)
    ensures o.None? <==> cfg.confirmEnabled && !s.confirmNotifiedForTurn && DetectAsWritten(true, m.text).Aborted?
    ensures o.Some? ==> o.value == ReplyStep(s, m, cx, cfg)
  {
    if !TakeReply(s, m).confirmNotifiedForTurn && cfg.confirmEnabled && DetectAsWritten(true, m.text).Aborted? then None
    else Some(ReplyStep(s, m, cx, cfg))
  }

  /**
   * A reply whose text holds "是否" and whose byte 597 falls inside a
   * character: as written the watcher stops on it; as intended it sends
   * the confirm reminder.
   */
  lemma KeywordPastCutStopsWatcher(s: GeminiState, msg: Json, textTime: string -> Option<int>, cx: Context, cfg: Settings)
    requires ExtractMessageText(msg) == KeywordPastCut && cfg.confirmEnabled && !s.confirmNotifiedForTurn
    ensures ReplyStepAsWritten(s, ReadMessage(msg, textTime), cx, cfg).None?
    ensures ReplyStep(s, ReadMessage(msg, textTime), cx, cfg).1.SendConfirm?
  {
    KeywordPastCutAborts();
  }

  /** `process_gemini_message`. */
  function Step(s: GeminiState, m: Message, cx: Context, cfg: Settings): (o: (GeminiState, GeminiEffect))
    ensures m.kind != Some("user") && m.kind != Some("gemini") ==> o == (s, NoEffect)
    ensures !o.1.NoEffect? ==> m.kind == Some("gemini") && !s.confirmNotifiedForTurn
  {
    if m.kind == Some("user") then (UserStep(s, m), NoEffect)
    else if m.kind == Some("gemini") then ReplyStep(s, m, cx, cfg)
    else (s, NoEffect)
  }

  /** The timer callback: it notifies only while the reply it was armed for is the latest one and was not notified. */
  function Fire(s: GeminiState, t: Timer): (o: (GeminiState, Option<Notification>))
    ensures o.1.Some? <==> s.lastGeminiAt == t.targetAt && s.lastNotifiedGeminiAt != t.targetAt
    ensures o.1.Some? ==> o.0.lastNotifiedGeminiAt == t.targetAt && o.0.confirmNotifiedForTurn
    ensures o.1.None? ==> o.0 == s
  {
    if s.lastGeminiAt == t.targetAt && s.lastNotifiedGeminiAt != t.targetAt then
      (s.(lastNotifiedGeminiAt := t.targetAt, confirmNotifiedForTurn := true),
       Some(Notification(GeminiSource, GeminiDone, ElapsedBetween(s.lastUserAt, t.targetAt), t.cwd)))
    else (s, None)
  }

  /** The state after a run of messages, and the effect of each. */
  function Replay(s: GeminiState, ms: seq<Message>, cx: Context, cfg: Settings): (r: (GeminiState, seq<GeminiEffect>))
    ensures |r.1| == |ms|
  {
    if ms == [] then (s, [])
    else
      var (s1, es) := Replay(s, ms[..|ms| - 1], cx, cfg);
      var (s2, e) := Step(s1, ms[|ms| - 1], cx, cfg);
      (s2, es + [e])
  }

  /** One message of a chat seen for the first time: a timed user or reply message sets that side's time and text. */
  function SeedMessage(s: GeminiState, m: Message): GeminiState {
    if m.ts.None? then s
    else if m.kind == Some("user") then s.(lastUserAt := m.ts, lastUserText := m.text)
    else if m.kind == Some("gemini") then s.(lastGeminiAt := m.ts, lastGeminiText := m.text)
    else s
  }

  function Seeded(s: GeminiState, ms: seq<Message>): GeminiState {
    if ms == [] then s else SeedMessage(Seeded(s, ms[..|ms| - 1]), ms[|ms| - 1])
  }

  /** The reset before a chat seen for the first time is read. */
  function ClearForFile(s: GeminiState): GeminiState {
    s.(lastUserAt := None, lastGeminiAt := None, lastUserText := "", lastGeminiText := "", lastConfirmKey := "",
       confirmNotifiedForTurn := false)
  }

  /** Taking up a new chat: its history sets the times and texts, and its last reply counts as notified. */
  function AttachTo(s: GeminiState, path: string, mtime: int, ms: seq<Message>): (r: GeminiState)
    ensures r.currentFile == Some(path) && r.currentMtimeMs == mtime && r.lastCount == |ms|
    ensures r.lastNotifiedGeminiAt == r.lastGeminiAt
  {
    var s1 := Seeded(ClearForFile(s), ms);
    s1.(lastCount := |ms|, currentFile := Some(path), currentMtimeMs := mtime, lastNotifiedGeminiAt := s1.lastGeminiAt)
  }

  /** The document of a chat file: its text without leading byte order marks, parsed. */
  function ParseChat(content: string, cfg: Settings): Option<Json> {
    cfg.parse(StripLeadingBoms(content))
  }

  /** The counts and times after a re-read with `count` messages. */
  function Counted(s: GeminiState, mtime: int, count: nat): GeminiState {
    s.(currentMtimeMs := mtime, lastCount := count)
  }

  /** The `messages` array of a chat file seen for the first time; none when the file cannot be read or parsed or has no such array. */
  function FirstMessages(content: Option<string>, cfg: Settings): Option<seq<Json>> {
    var doc := if content.Some? then ParseChat(content.value, cfg) else None;
    if doc.Some? then AsArray(Get(doc.value, "messages")) else None
  }

  /** The messages of a re-read chat file, empty when it has no `messages` array; none when it cannot be read or parsed. */
  function RereadMessages(content: Option<string>, cfg: Settings): (r: Option<seq<Json>>)
    ensures r.Some? <==> content.Some? && ParseChat(content.value, cfg).Some?
    ensures r.Some? && AsArray(Get(ParseChat(content.value, cfg).value, "messages")).None? ==> r.value == []
  {
    var doc := if content.Some? then ParseChat(content.value, cfg) else None;
    if doc.Some? then Some(AsArray(Get(doc.value, "messages")).GetOr([])) else None
  }

  /** A re-read chat whose modification time moved: the messages past the last count are processed. */
  function OnReread(s: GeminiState, mtime: int, msgs: seq<Json>, cx: Context, cfg: Settings): (GeminiState, seq<GeminiEffect>) {
    if |msgs| <= s.lastCount then (Counted(s, mtime, |msgs|), [])
    else
      var r := Replay(s, ReadAll(msgs[s.lastCount..], cfg.textTime), cx, cfg);
      (Counted(r.0, mtime, |msgs|), r.1)
  }

  /**
   * One tick, given whether the root exists, the newest chat file, its
   * modification time (none when it cannot be read) and its text (none
   * when reading fails). A new chat is taken up when its `messages` array
   * can be read; a known chat is re-read only when its time moved.
   */
  function Tick(s: GeminiState, rootExists: bool, latest: Option<string>, mtime: Option<int>, content: Option<string>,
                cx: Context, cfg: Settings): (r: (GeminiState, seq<GeminiEffect>))
    ensures r.1 != [] ==> latest.Some? && s.currentFile == latest && mtime.Some? && mtime.value > s.currentMtimeMs
  {
    if !rootExists || latest.None? || mtime.None? then (s, [])
    else if s.currentFile != latest then
      var msgs := FirstMessages(content, cfg);
      if msgs.None? then (s, [])
      else (AttachTo(s, latest.value, mtime.value, ReadAll(msgs.value, cfg.textTime)), [])
    else if mtime.value <= s.currentMtimeMs then (s, [])
    else
      var msgs := RereadMessages(content, cfg);
      if msgs.None? then (s, []) else OnReread(s, mtime.value, msgs.value, cx, cfg)
  }

  /** The watcher's `GeminiState`, shared between the poll loop and the timers it spawns. */
  class GeminiWatcher {
    const settings: Settings
    var currentFile: Option<string>
    var currentMtimeMs: int
    var lastCount: nat
    var lastUserAt: Option<int>
    var lastGeminiAt: Option<int>
    var lastNotifiedGeminiAt: Option<int>
    var lastGeminiContent: Option<string>
    var lastUserText: string
    var lastGeminiText: string
    var lastConfirmKey: string
    var lastConfirmAt: int
    var confirmNotifiedForTurn: bool

    function State(): GeminiState
      reads this
    {
      GeminiState(currentFile, currentMtimeMs, lastCount, lastUserAt, lastGeminiAt, lastNotifiedGeminiAt,
                  lastGeminiContent, lastUserText, lastGeminiText, lastConfirmKey, lastConfirmAt, confirmNotifiedForTurn)
    }

    /** `start_gemini_watch`: a fresh state and the quiet period raised to the minimum. */
    constructor(confirmEnabled: bool, quietPeriodMs: nat, textTime: string -> Option<int>, parse: string -> Option<Json>)
      ensures settings == Settings(confirmEnabled, QuietMs(quietPeriodMs), textTime, parse)
      ensures State() == Initial
    {
      settings := Settings(confirmEnabled, QuietMs(quietPeriodMs), textTime, parse);
      currentFile := None;
      currentMtimeMs := 0;
      lastCount := 0;
      lastUserAt := None;
      lastGeminiAt := None;
      lastNotifiedGeminiAt := None;
      lastGeminiContent := None;
      lastUserText := "";
      lastGeminiText := "";
      lastConfirmKey := "";
      lastConfirmAt := 0;
      confirmNotifiedForTurn := false;
    }

    /** `process_gemini_message`. */
    method ProcessMessage(msg: Json, cx: Context) returns (effect: GeminiEffect)
      modifies this
      ensures (State(), effect) == Step(old(State()), ReadMessage(msg, settings.textTime), cx, settings)
    {
      effect := Process(ReadMessage(msg, settings.textTime), cx);
    }

    method Process(m: Message, cx: Context) returns (effect: GeminiEffect)
      modifies this
      ensures (State(), effect) == Step(old(State()), m, cx, settings)
    {
      effect := NoEffect;
      if m.kind == Some("user") {
        OnUser(m);
      } else if m.kind == Some("gemini") {
        OnReply(m);
        if confirmNotifiedForTurn {
          return;
        }
        if settings.confirmEnabled && m.prompt {
          confirmNotifiedForTurn := true;
          lastConfirmAt := cx.now;
          return SendConfirm(ConfirmNotice(GeminiSource, cx));
        }
        effect := Arm(Timer(settings.quietMs, lastGeminiAt, cx.currentDir));
      }
    }

    /** The user-message branch. */
    method OnUser(m: Message)
      modifies this
      ensures State() == UserStep(old(State()), m)
    {
      lastUserAt := m.ts;
      lastUserText := m.text;
      lastGeminiAt := None;
      lastNotifiedGeminiAt := None;
      lastGeminiText := "";
      lastConfirmKey := "";
      confirmNotifiedForTurn := false;
    }

    /** The part of the reply branch that records the reply. */
    method OnReply(m: Message)
      modifies this
      ensures State() == TakeReply(old(State()), m)
    {
      var content := KeptContent(lastGeminiContent, m.content);
      var text := KeptText(lastGeminiText, m.text);
      lastGeminiAt, lastGeminiContent, lastGeminiText := m.ts, content, text;
    }

    /** The debounce task waking up. */
    method FireTimer(t: Timer) returns (notice: Option<Notification>)
      modifies this
      ensures (State(), notice) == Fire(old(State()), t)
    {
      notice := None;
      if lastGeminiAt == t.targetAt && lastNotifiedGeminiAt != t.targetAt {
        notice := Some(Notification(GeminiSource, GeminiDone, ElapsedBetween(lastUserAt, t.targetAt), t.cwd));
        lastNotifiedGeminiAt := t.targetAt;
        confirmNotifiedForTurn := true;
      }
    }

    /** The new messages of a re-read chat, in order. */
    method ProcessAll(ms: seq<Message>, cx: Context) returns (effects: seq<GeminiEffect>)
      modifies this
      ensures (State(), effects) == Replay(old(State()), ms, cx, settings)
    {
      effects := [];
      for k := 0 to |ms|
        invariant (State(), effects) == Replay(old(State()), ms[..k], cx, settings)
      {
        var e := Process(ms[k], cx);
        assert ms[..k + 1][..k] == ms[..k];
        effects := effects + [e];
      }
      assert ms[..|ms|] == ms;
    }

    /** The history loop for a chat seen for the first time. */
    method SeedFrom(ms: seq<Message>)
      modifies this
      ensures State() == Seeded(old(State()), ms)
    {
      for k := 0 to |ms|
        invariant State() == Seeded(old(State()), ms[..k])
      {
        var m := ms[k];
        if m.ts.Some? && m.kind == Some("user") {
          lastUserAt := m.ts;
          lastUserText := m.text;
        } else if m.ts.Some? && m.kind == Some("gemini") {
          lastGeminiAt := m.ts;
          lastGeminiText := m.text;
        }
        assert ms[..k + 1][..k] == ms[..k];
      }
      assert ms[..|ms|] == ms;
    }

    /** Taking up a chat seen for the first time. */
    method TakeUp(path: string, mtime: int, ms: seq<Message>)
      modifies this
      ensures State() == AttachTo(old(State()), path, mtime, ms)
    {
      ClearFile();
      SeedFrom(ms);
      lastCount := |ms|;
      currentFile := Some(path);
      currentMtimeMs := mtime;
      lastNotifiedGeminiAt := lastGeminiAt;
    }

    method ClearFile()
      modifies this
      ensures State() == ClearForFile(old(State()))
    {
      lastUserAt := None;
      lastGeminiAt := None;
      lastUserText := "";
      lastGeminiText := "";
      lastConfirmKey := "";
      confirmNotifiedForTurn := false;
    }

    /** One tick of the poll loop. */
    method PollTick(rootExists: bool, latest: Option<string>, mtime: Option<int>, content: Option<string>, cx: Context)
      returns (effects: seq<GeminiEffect>)
      modifies this
      ensures (State(), effects) == Tick(old(State()), rootExists, latest, mtime, content, cx, settings)
    {
      effects := [];
      if !rootExists || latest.None? || mtime.None? {
        return;
      }
      if currentFile != latest {
        var msgs := FirstMessages(content, settings);
        if msgs.Some? {
          TakeUp(latest.value, mtime.value, ReadAll(msgs.value, settings.textTime));
        }
        return;
      }
      if mtime.value <= currentMtimeMs {
        return;
      }
      var msgs := RereadMessages(content, settings);
      if msgs.Some? {
        effects := Reread(mtime.value, msgs.value, cx);
      }
    }

    /** A re-read chat whose modification time moved. */
    method Reread(mtime: int, msgs: seq<Json>, cx: Context) returns (effects: seq<GeminiEffect>)
      modifies this
      ensures (State(), effects) == OnReread(old(State()), mtime, msgs, cx, settings)
    {
      effects := [];
      if |msgs| > lastCount {
        effects := ProcessAll(ReadAll(msgs[lastCount..], settings.textTime), cx);
      }
      currentMtimeMs := mtime;
      lastCount := |msgs|;
    }
  }

  /* ---------------------------------------------------------------- */
  /* Properties                                                       */
  /* ---------------------------------------------------------------- */

  /**
   * What a reply starts: a reminder exactly when the turn is open and the
   * detector is on and finds a prompt, and otherwise, while the turn is
   * open, a timer armed for the reply's time. Only the reminder closes the
   * turn; the timer closes it when it notifies.
   */
  lemma ReplyIff(s: GeminiState, m: Message, cx: Context, cfg: Settings)
    requires m.kind == Some("gemini")
    ensures var (s1, e) := Step(s, m, cx, cfg);
            && (e.SendConfirm? <==> !s.confirmNotifiedForTurn && cfg.confirmEnabled && m.prompt)
            && (e.Arm? <==> !s.confirmNotifiedForTurn && !(cfg.confirmEnabled && m.prompt))
            && (e.SendConfirm? ==> e.notice == ConfirmNotice(GeminiSource, cx) && s1.lastConfirmAt == cx.now)
            && (e.Arm? ==> e.timer == Timer(cfg.quietMs, m.ts, cx.currentDir))
            && s1.lastGeminiAt == m.ts
            && (e.SendConfirm? || s.confirmNotifiedForTurn ==> s1.confirmNotifiedForTurn)
  {
  }

  /** Once a turn was notified, replies start nothing until the next user message. */
  lemma NotifiedTurnIsQuiet(s: GeminiState, m: Message, cx: Context, cfg: Settings)
    requires s.confirmNotifiedForTurn && m.kind != Some("user")
    ensures Step(s, m, cx, cfg).1 == NoEffect && Step(s, m, cx, cfg).0.confirmNotifiedForTurn
  {
  }

  /**
   * A timer armed by a reply, firing before anything else happens, notifies
   * exactly when that reply's time was not notified yet; the notice carries
   * the time from the user's message to the reply when that is not negative.
   */
  lemma ArmedTimerFires(s: GeminiState, m: Message, cx: Context, cfg: Settings)
    requires Step(s, m, cx, cfg).1.Arm?
    ensures var (s1, e) := Step(s, m, cx, cfg);
            var (s2, n) := Fire(s1, e.timer);
            && (n.Some? <==> s.lastNotifiedGeminiAt != m.ts)
            && (n.Some? ==>
                  && n.value == Notification(GeminiSource, GeminiDone, ElapsedBetween(s.lastUserAt, m.ts), cx.currentDir)
                  && s2.lastNotifiedGeminiAt == m.ts && s2.confirmNotifiedForTurn)
  {
  }

  /** A timer that already notified, or any other timer for the same reply time, does nothing when it fires again. */
  lemma RepeatedFireIsNoOp(s: GeminiState, t: Timer, t2: Timer)
    requires Fire(s, t).1.Some? && t2.targetAt == t.targetAt
    ensures Fire(Fire(s, t).0, t2) == (Fire(s, t).0, None)
  {
  }

  /** A reply with another time makes an earlier timer stale: it does nothing when it fires. */
  lemma LaterReplyMakesTimerStale(s: GeminiState, m: Message, t: Timer, cx: Context, cfg: Settings)
    requires m.kind == Some("gemini") && m.ts != t.targetAt
    ensures var s1 := Step(s, m, cx, cfg).0;
            Fire(s1, t) == (s1, None)
  {
  }

  /** A user message makes every timer armed for a timed reply stale. */
  lemma UserMessageMakesTimerStale(s: GeminiState, m: Message, t: Timer, cx: Context, cfg: Settings)
    requires m.kind == Some("user") && t.targetAt.Some?
    ensures var s1 := Step(s, m, cx, cfg).0;
            Fire(s1, t) == (s1, None)
  {
  }

  /**
   * A timer armed for a reply without a time notifies only while no reply
   * time is kept and a notified time is; after a user message the notified
   * time is cleared, so such a timer then never notifies.
   */
  lemma UntimedTimerIff(s: GeminiState, t: Timer)
    requires t.targetAt.None?
    ensures Fire(s, t).1.Some? <==> s.lastGeminiAt.None? && s.lastNotifiedGeminiAt.Some?
    ensures forall m: Message {:trigger UserStep(s, m)} :: m.kind == Some("user") ==> Fire(UserStep(s, m), t).1.None?
  {
  }

  /** The timed history of a chat: the time of its last timed reply, if any. */
  function LastReplyAt(ms: seq<Message>): Option<int> {
    if ms == [] then None
    else if ms[|ms| - 1].ts.Some? && ms[|ms| - 1].kind == Some("gemini") then ms[|ms| - 1].ts
    else LastReplyAt(ms[..|ms| - 1])
  }

  /** The history loop keeps the last timed reply's time, or the time it started with when there is none. */
  lemma {:induction false} SeededReplyTime(s: GeminiState, ms: seq<Message>)
    ensures Seeded(s, ms).lastGeminiAt == LastReplyAt(ms).Or(s.lastGeminiAt)
    ensures Seeded(s, ms).lastNotifiedGeminiAt == s.lastNotifiedGeminiAt
    ensures Seeded(s, ms).confirmNotifiedForTurn == s.confirmNotifiedForTurn
  {
    if ms != [] {
      SeededReplyTime(s, ms[..|ms| - 1]);
    }
  }

  /**
   * Taking up a chat starts nothing, keeps its last timed reply's time as
   * already notified, and so leaves every pending timer without effect:
   * replayed history never notifies.
   */
  lemma AttachIsQuiet(s: GeminiState, path: string, mtime: Option<int>, content: Option<string>, cx: Context, cfg: Settings,
                      t: Timer)
    requires s.currentFile != Some(path) && mtime.Some?
    ensures var (s1, es) := Tick(s, true, Some(path), mtime, content, cx, cfg);
            && es == []
            && (FirstMessages(content, cfg).Some? ==>
                  && s1.currentFile == Some(path) && s1.lastCount == |FirstMessages(content, cfg).value|
                  && s1.lastGeminiAt == LastReplyAt(ReadAll(FirstMessages(content, cfg).value, cfg.textTime))
                  && s1.lastNotifiedGeminiAt == s1.lastGeminiAt && !s1.confirmNotifiedForTurn)
            && (FirstMessages(content, cfg).None? ==> s1 == s)
            && (Fire(s1, t).1.Some? ==> FirstMessages(content, cfg).None? && Fire(s, t).1.Some?)
  {
    var msgs := FirstMessages(content, cfg);
    if msgs.Some? {
      SeededReplyTime(ClearForFile(s), ReadAll(msgs.value, cfg.textTime));
    }
  }

  /** A chat whose modification time did not move is left alone. */
  lemma UnchangedFileIsNoOp(s: GeminiState, latest: Option<string>, mtime: int, content: Option<string>, cx: Context, cfg: Settings)
    requires latest.Some? && s.currentFile == latest && mtime <= s.currentMtimeMs
    ensures Tick(s, true, latest, Some(mtime), content, cx, cfg) == (s, [])
  {
  }

  /** A re-read chat processes exactly the messages past the last count, one effect each, and records the new count and time. */
  lemma RereadProcessesNewMessages(s: GeminiState, latest: Option<string>, mtime: int, content: Option<string>,
                                   cx: Context, cfg: Settings)
    requires latest.Some? && s.currentFile == latest && mtime > s.currentMtimeMs
    requires RereadMessages(content, cfg).Some?
    ensures var msgs := RereadMessages(content, cfg).value;
            var r := Tick(s, true, latest, Some(mtime), content, cx, cfg);
            && r.0.lastCount == |msgs| && r.0.currentMtimeMs == mtime && r.0.currentFile == latest
            && |r.1| == (if |msgs| > s.lastCount then |msgs| - s.lastCount else 0)
            && (|msgs| > s.lastCount ==> r.1 == Replay(s, ReadAll(msgs[s.lastCount..], cfg.textTime), cx, cfg).1)
  {
    var msgs := RereadMessages(content, cfg).value;
    RereadCounts(s, mtime, msgs, cx, cfg);
    assert Tick(s, true, latest, Some(mtime), content, cx, cfg) == OnReread(s, mtime, msgs, cx, cfg);
  }

  lemma RereadCounts(s: GeminiState, mtime: int, msgs: seq<Json>, cx: Context, cfg: Settings)
    ensures var r := OnReread(s, mtime, msgs, cx, cfg);
            && r.0.lastCount == |msgs| && r.0.currentMtimeMs == mtime && r.0.currentFile == s.currentFile
            && |r.1| == (if |msgs| > s.lastCount then |msgs| - s.lastCount else 0)
            && (|msgs| > s.lastCount ==> r.1 == Replay(s, ReadAll(msgs[s.lastCount..], cfg.textTime), cx, cfg).1)
  {
    if |msgs| > s.lastCount {
      ReplayKeepsFile(s, ReadAll(msgs[s.lastCount..], cfg.textTime), cx, cfg);
    }
  }

  /** Messages never change which chat the state belongs to. */
  lemma {:induction false} ReplayKeepsFile(s: GeminiState, ms: seq<Message>, cx: Context, cfg: Settings)
    ensures Replay(s, ms, cx, cfg).0.currentFile == s.currentFile
  {
    if ms != [] {
      ReplayKeepsFile(s, ms[..|ms| - 1], cx, cfg);
    }
  }
}
