/**
 * The Claude watcher of the shipping backend: each tick follows the newest
 * transcript, and `process_claude_object` folds every decoded record into a
 * `ClaudeState`. A live assistant reply either raises a confirm reminder at
 * once or, the first time in a turn, schedules the completion notice to be
 * sent after a fixed delay. The spawned tasks are outside the model: the
 * effect a record produces names what the watch loop will send, and the reset the
 * confirm task performs after sending is the event `ConfirmDelivered`.
 */
module ClaudeWatch {
  import opened Base
  import opened Json
  import opened Text
  import opened Decode
  import opened Confirm
  import opened Follower
  import opened Watch
  import Locking

  const ClaudeSource: string := "claude"
  const ClaudeDone: string := "Claude 完成"

  /** `ClaudeState`. */
  datatype ClaudeState = ClaudeState(
    currentFile: Option<string>,
    lastUserTextAt: Option<int>,
    lastAssistantAt: Option<int>,
    lastNotifiedAt: Option<int>,
    notifiedForTurn: bool,
    confirmNotifiedForTurn: bool,
    lastCwd: Option<string>,
    lastAssistantContent: Option<string>,
    lastAssistantHadToolUse: bool,
    lastUserText: string,
    lastAssistantText: string,
    lastConfirmKey: string,
    lastConfirmAt: int)

  /** `ClaudeState::new`. */
  const Initial: ClaudeState :=
    ClaudeState(None, None, None, None, false, false, None, None, false, "", "", "", 0)

  /** What processing one record starts: nothing, a confirm reminder sent now, or a completion notice sent after a delay. */
  datatype ClaudeEffect =
    | NoEffect
    | SendConfirm(notice: Notification)
    | CompletionAfter(delayMs: nat, notice: Notification)

  /** The longest delay after a reply that used no tool. */
  const NoToolDelayCapMs: nat := 15000

  /** The wait before the completion notice: the quiet period after tool use, otherwise at most 15 seconds. */
  function CompletionDelay(toolUse: bool, quietMs: nat): (d: nat)
    ensures d <= quietMs
    ensures toolUse ==> d == quietMs
    ensures !toolUse ==> d <= NoToolDelayCapMs && (d == quietMs || d == NoToolDelayCapMs)
    ensures quietMs >= MinQuietMs ==> d >= MinQuietMs
  {
    if toolUse || quietMs <= NoToolDelayCapMs then quietMs else NoToolDelayCapMs
  }

  /** The text a content block contributes: its `text`, when its type is "text". */
  function BlockText(item: Json): Option<string> {
    if StrField(item, "type") == Some("text") then StrField(item, "text") else None
  }

  /** The `text` of each content block whose type is "text", in order. */
  function TextBlocks(items: seq<Json>): (r: seq<string>)
    ensures |r| <= |items|
    ensures forall t :: t in r <==> exists i :: 0 <= i < |items| && BlockText(items[i]) == Some(t)
  {
    if items == [] then []
    else
      var rest := items[1..];
      assert forall i :: 1 <= i < |items| ==> items[i] == rest[i - 1];
      var t := BlockText(items[0]);
      (if t.Some? then [t.value] else []) + TextBlocks(rest)
  }

  /** Blocks are read one at a time, so the texts of two runs of blocks come out in run order. */
  lemma {:induction false} TextBlocksAppend(a: seq<Json>, b: seq<Json>)
    ensures TextBlocks(a + b) == TextBlocks(a) + TextBlocks(b)
  {
    if a == [] {
      assert a + b == b;
    } else {
      assert (a + b)[0] == a[0];
      assert (a + b)[1..] == a[1..] + b;
      TextBlocksAppend(a[1..], b);
    }
  }

  /** The reply's content: its text blocks joined by a blank line, else a content string, else its `text`. */
  function ReplyContent(message: Option<Json>): string {
    if message.None? then ""
    else
      var blocks := AsArray(Get(message.value, "content"));
      if blocks.Some? then Join(TextBlocks(blocks.value), "\n\n")
      else StrField(message.value, "content").Or(StrField(message.value, "text")).GetOr("")
  }

  /** The records the watcher looks at: objects that are not side-chain messages. */
  predicate Considered(obj: Json) {
    obj.Obj? && !AsBool(Get(obj, "isSidechain")).GetOr(false)
  }

  /** The text the confirm detector looks at. */
  function ReplyText(obj: Json): string {
    ExtractMessageText(MemberOrNull(obj, "message"))
  }

  function UsedTool(obj: Json): bool {
    HasContentType(MemberOrNull(obj, "message"), "tool_use")
  }

  /**
   * What `process_claude_object` reads from a record it considers: its
   * type, time and directory, its message text, whether that text is a
   * confirm prompt, whether it used a tool, and its reply content.
   */
  datatype Reading = Reading(
    kind: Option<string>,
    ts: Option<int>,
    cwd: Option<string>,
    text: string,
    prompt: bool,
    toolUse: bool,
    content: string)

  function ReadRecord(obj: Json, textTime: string -> Option<int>): Reading {
    var text := ReplyText(obj);
    Reading(StrField(obj, "type"), TimestampOf(obj, textTime), StrField(obj, "cwd"), text,
            Detect(true, text).Some?, UsedTool(obj), ReplyContent(Get(obj, "message")))
  }

  /** A record as the watcher sees it: nothing for one it skips, its reading otherwise. */
  function Observe(obj: Json, textTime: string -> Option<int>): (r: Option<Reading>)
    ensures r.Some? <==> Considered(obj)
  {
    if Considered(obj) then Some(ReadRecord(obj, textTime)) else None
  }

  /** A record's reading marks a confirm prompt exactly when its text holds a confirm keyword. */
  lemma PromptMeansKeyword(obj: Json, textTime: string -> Option<int>)
    ensures var text := ReplyText(obj);
            ReadRecord(obj, textTime).prompt <==> SomeOccursIn(KeywordsCn, text) || SomeOccursIn(KeywordsEn, AsciiLower(text))
  {
  }

  /** The six fields a user record resets, the user text taking the record's text. */
  function ClearTurn(s: ClaudeState, userText: string): ClaudeState {
    s.(lastUserText := userText, lastAssistantText := "", lastAssistantContent := None,
       lastAssistantHadToolUse := false, lastConfirmKey := "", confirmNotifiedForTurn := false)
  }

  /** A live user record always starts the turn's clock, at its time or now; a replayed one only when it has a time. */
  function StampTurn(s: ClaudeState, ts: Option<int>, seed: bool, now: int): ClaudeState {
    if !seed then s.(lastUserTextAt := Some(ts.GetOr(now)), notifiedForTurn := false)
    else if ts.Some? then s.(lastUserTextAt := ts, notifiedForTurn := false)
    else s
  }

  /** A user record starts a turn: texts and flags are cleared, and the turn's start time is taken when known. */
  function UserStep(s: ClaudeState, r: Reading, seed: bool, now: int): (u: ClaudeState)
    ensures u.lastUserText == r.text && u.lastAssistantText == "" && u.lastAssistantContent.None?
    ensures !u.confirmNotifiedForTurn && !u.lastAssistantHadToolUse
    ensures !seed ==> u.lastUserTextAt == Some(r.ts.GetOr(now)) && !u.notifiedForTurn
    ensures seed && r.ts.None? ==> u.lastUserTextAt == s.lastUserTextAt
  {
    StampTurn(ClearTurn(s, r.text), r.ts, seed, now)
  }

  /** An assistant record is remembered: its text when non-empty, whether it used a tool, its content when not blank, and its time. */
  function Remember(s: ClaudeState, r: Reading, at: int): ClaudeState {
    s.(lastAssistantText := if r.text != [] then r.text else s.lastAssistantText,
       lastAssistantHadToolUse := r.toolUse,
       lastAssistantContent := if !IsBlank(r.content) then Some(r.content) else s.lastAssistantContent,
       lastAssistantAt := Some(at))
  }

  /** The completion notice of a turn that started at `userAt` and ended at `at`. */
  function CompletionNotice(s: ClaudeState, at: int, cx: Context): (n: Notification)
    requires s.lastUserTextAt.Some?
  {
    Notification(ClaudeSource, ClaudeDone, Elapsed(s.lastUserTextAt.value, at), s.lastCwd.GetOr(cx.currentDir))
  }

  /** After a live reply is remembered: raise a confirm reminder, or schedule the completion notice once per turn. */
  function Decide(s: ClaudeState, r: Reading, at: int, cx: Context, cfg: Settings): (o: (ClaudeState, ClaudeEffect))
    ensures !o.1.NoEffect? ==> !s.confirmNotifiedForTurn && o.0.confirmNotifiedForTurn
    ensures o.1.CompletionAfter? ==> s.lastUserTextAt.Some? && !s.notifiedForTurn && o.0.notifiedForTurn
    ensures o.1.NoEffect? ==> o.0 == s
  {
    if cfg.confirmEnabled && !s.confirmNotifiedForTurn && r.prompt then
      (s.(confirmNotifiedForTurn := true, lastConfirmAt := cx.now), SendConfirm(ConfirmNotice(ClaudeSource, cx)))
    else if s.lastUserTextAt.Some? && !s.notifiedForTurn && !s.confirmNotifiedForTurn then
      (s.(notifiedForTurn := true, confirmNotifiedForTurn := true),
       CompletionAfter(CompletionDelay(r.toolUse, cfg.quietMs), CompletionNotice(s, at, cx)))
    else (s, NoEffect)
  }

  /**
   * `Decide` as written: when the detector is consulted on a reply whose
   * written truncation panics, the watch loop's task stops (`None`);
   * otherwise it decides as `Decide` does.
   */
  function DecideAsWritten(s: ClaudeState, r: Reading, at: int, cx: Context, cfg: Settings)
    : (o: Option<(ClaudeState, ClaudeEffect)>)
    ensures o.None? <==> cfg.confirmEnabled && !s.confirmNotifiedForTurn && DetectAsWritten(true, r.text).Aborted?
    ensures o.Some? ==> o.value == Decide(s, r, at, cx, cfg)
  {
    if cfg.confirmEnabled && !s.confirmNotifiedForTurn && DetectAsWritten(true, r.text).Aborted? then None
    else Some(Decide(s, r, at, cx, cfg))
  }

  /**
   * A live reply whose text holds "是否" and whose byte 597 falls inside a
   * character: as written the watcher stops on it; as intended it sends
   * the confirm reminder.
   */
  lemma KeywordPastCutStopsWatcher(s: ClaudeState, obj: Json, textTime: string -> Option<int>, at: int,
                                   cx: Context, cfg: Settings)
    requires ReplyText(obj) == KeywordPastCut && cfg.confirmEnabled && !s.confirmNotifiedForTurn
    ensures DecideAsWritten(s, ReadRecord(obj, textTime), at, cx, cfg).None?
    ensures Decide(s, ReadRecord(obj, textTime), at, cx, cfg).1.SendConfirm?
  {
    KeywordPastCutAborts();
  }

  /** An assistant record: remember the reply; a replayed one stops there. */
  function AssistantStep(s: ClaudeState, r: Reading, seed: bool, cx: Context, cfg: Settings): (o: (ClaudeState, ClaudeEffect))
    ensures seed ==> o.1.NoEffect?
    ensures o.0.lastAssistantAt == Some(r.ts.GetOr(cx.now)) && o.0.lastUserTextAt == s.lastUserTextAt
  {
    var at := r.ts.GetOr(cx.now);
    var s1 := Remember(s, r, at);
    if seed then (s1, NoEffect) else Decide(s1, r, at, cx, cfg)
  }

  /** `process_claude_object` on a considered record: the directory first, then the branch for its type. */
  function StepOn(s: ClaudeState, r: Reading, seed: bool, cx: Context, cfg: Settings): (ClaudeState, ClaudeEffect) {
    var s1 := if r.cwd.Some? then s.(lastCwd := r.cwd) else s;
    if r.kind == Some("user") then (UserStep(s1, r, seed, cx.now), NoEffect)
    else if r.kind == Some("assistant") then AssistantStep(s1, r, seed, cx, cfg)
    else (s1, NoEffect)
  }

  /** Something the watcher's state reacts to: a record from the follower, or the end of a confirm task. */
  datatype ClaudeEvent = Line(reading: Option<Reading>, seed: bool) | ConfirmDelivered

  function Apply(s: ClaudeState, ev: ClaudeEvent, cx: Context, cfg: Settings): (ClaudeState, ClaudeEffect) {
    match ev
    case Line(r, seed) => if r.Some? then StepOn(s, r.value, seed, cx, cfg) else (s, NoEffect)
    case ConfirmDelivered => (s.(confirmNotifiedForTurn := false), NoEffect)
  }

  /** The state after a run of events, and the effect of each. */
  function Replay(s: ClaudeState, evs: seq<ClaudeEvent>, cx: Context, cfg: Settings): (r: (ClaudeState, seq<ClaudeEffect>))
    ensures |r.1| == |evs|
  {
    if evs == [] then (s, [])
    else
      var (s1, es) := Replay(s, evs[..|evs| - 1], cx, cfg);
      var (s2, e) := Apply(s1, evs[|evs| - 1], cx, cfg);
      (s2, es + [e])
  }

  /** The records of a tick as events. */
  function LinesOf(records: seq<Record>, textTime: string -> Option<int>): (evs: seq<ClaudeEvent>)
    ensures |evs| == |records|
    ensures forall i :: 0 <= i < |evs| ==> evs[i] == Line(Observe(records[i].obj, textTime), records[i].seed)
  {
    seq(|records|, i requires 0 <= i < |records| => Line(Observe(records[i].obj, textTime), records[i].seed))
  }

  /** A different newest file clears everything that belongs to a turn; the directory and the confirm time stay. */
  function SwitchTo(s: ClaudeState, path: string): ClaudeState {
    ClearTurn(s, "").(currentFile := Some(path), lastUserTextAt := None, lastAssistantAt := None,
                      lastNotifiedAt := None, notifiedForTurn := false)
  }

  /** One tick: with no transcript nothing happens; a new newest file is attached; otherwise the follower polls. */
  function Tick(s: ClaudeState, f: FollowerState, rootExists: bool, latest: Option<string>, file: FileView,
                cx: Context, cfg: Settings): (ClaudeState, FollowerState, seq<ClaudeEffect>)
  {
    if !rootExists || latest.None? then (s, f, [])
    else if latest != s.currentFile then
      var (f1, records) := AttachStep(FollowerState(None, 0, ""), latest.value, file, SeedBytes, cfg.parse);
      var (s1, es) := Replay(SwitchTo(s, latest.value), LinesOf(records, cfg.textTime), cx, cfg);
      (s1, f1, es)
    else
      var (f1, records) := PollStep(f, file, cfg.parse);
      var (s1, es) := Replay(s, LinesOf(records, cfg.textTime), cx, cfg);
      (s1, f1, es)
  }

  /** `process_claude_object` takes the state lock for an object that is not a side-chain message. */
  predicate TakesLock(ev: ClaudeEvent) {
    ev.Line? && ev.reading.Some?
  }

  /** The state an event leaves. */
  function StateStep(cx: Context, cfg: Settings): (ClaudeState, ClaudeEvent) -> ClaudeState {
    (s, ev) => Apply(s, ev, cx, cfg).0
  }

  lemma {:induction false} ReplayIsFold(s: ClaudeState, evs: seq<ClaudeEvent>, cx: Context, cfg: Settings)
    ensures Replay(s, evs, cx, cfg).0 == Locking.Fold(s, evs, StateStep(cx, cfg))
  {
    if evs != [] {
      ReplayIsFold(s, evs[..|evs| - 1], cx, cfg);
    }
  }

  /**
   * A tick hands its records to the callback while it still holds the
   * state lock: as written it hangs at the first record the watcher
   * considers. With the lock released first, as intended, the records are
   * replayed.
   */
  lemma RecordsUnderHeldLock(s: ClaudeState, records: seq<Record>, textTime: string -> Option<int>, cx: Context, cfg: Settings)
    ensures var evs := LinesOf(records, textTime);
            Locking.Deliver(Locking.Held, s, evs, TakesLock, StateStep(cx, cfg)).Blocked?
            <==> exists i :: 0 <= i < |records| && Considered(records[i].obj)
    ensures Locking.Deliver(Locking.Free, s, LinesOf(records, textTime), TakesLock, StateStep(cx, cfg))
            == Locking.Finished(Replay(s, LinesOf(records, textTime), cx, cfg).0)
  {
    var evs := LinesOf(records, textTime);
    Locking.HeldBlocksIff(s, evs, TakesLock, StateStep(cx, cfg));
    ReplayIsFold(s, evs, cx, cfg);
    assert forall i :: 0 <= i < |records| ==> (TakesLock(evs[i]) <==> Considered(records[i].obj));
  }

  /** The watcher's `ClaudeState`, shared between the watch loop and the timers it spawns. */
  class ClaudeWatcher {
    const settings: Settings
    var currentFile: Option<string>
    var lastUserTextAt: Option<int>
    var lastAssistantAt: Option<int>
    var lastNotifiedAt: Option<int>
    var notifiedForTurn: bool
    var confirmNotifiedForTurn: bool
    var lastCwd: Option<string>
    var lastAssistantContent: Option<string>
    var lastAssistantHadToolUse: bool
    var lastUserText: string
    var lastAssistantText: string
    var lastConfirmKey: string
    var lastConfirmAt: int

    function State(): ClaudeState
      reads this
    {
      ClaudeState(currentFile, lastUserTextAt, lastAssistantAt, lastNotifiedAt, notifiedForTurn,
                  confirmNotifiedForTurn, lastCwd, lastAssistantContent, lastAssistantHadToolUse,
                  lastUserText, lastAssistantText, lastConfirmKey, lastConfirmAt)
    }

    /** `start_claude_watch`: a fresh state, with the quiet period raised to the minimum. */
    constructor(confirmEnabled: bool, claudeQuietMs: nat, textTime: string -> Option<int>, parse: string -> Option<Json>)
      ensures settings == Settings(confirmEnabled, QuietMs(claudeQuietMs), textTime, parse)
      ensures State() == Initial
    {
      settings := Settings(confirmEnabled, QuietMs(claudeQuietMs), textTime, parse);
      currentFile := None;
      lastUserTextAt := None;
      lastAssistantAt := None;
      lastNotifiedAt := None;
      notifiedForTurn := false;
      confirmNotifiedForTurn := false;
      lastCwd := None;
      lastAssistantContent := None;
      lastAssistantHadToolUse := false;
      lastUserText := "";
      lastAssistantText := "";
      lastConfirmKey := "";
      lastConfirmAt := 0;
    }

    /** `process_claude_object`. */
    method ProcessObject(obj: Json, seed: bool, cx: Context) returns (effect: ClaudeEffect)
      modifies this
      ensures (State(), effect) == Apply(old(State()), Line(Observe(obj, settings.textTime), seed), cx, settings)
    {
      effect := NoEffect;
      if !obj.Obj? || AsBool(Get(obj, "isSidechain")).GetOr(false) {
        return;
      }
      var text := ExtractMessageText(MemberOrNull(obj, "message"));
      var r := Reading(StrField(obj, "type"), TimestampOf(obj, settings.textTime), StrField(obj, "cwd"), text,
                       Detect(true, text).Some?, HasContentType(MemberOrNull(obj, "message"), "tool_use"),
                       ReplyContent(Get(obj, "message")));
      effect := ProcessReading(r, seed, cx);
    }

    /** The body of `process_claude_object` once the record is read. */
    method ProcessReading(r: Reading, seed: bool, cx: Context) returns (effect: ClaudeEffect)
      modifies this
      ensures (State(), effect) == StepOn(old(State()), r, seed, cx, settings)
    {
      effect := NoEffect;
      if r.cwd.Some? {
        lastCwd := r.cwd;
      }
      if r.kind == Some("user") {
        ResetTurn(r.text);
        StartClock(r.ts, seed, cx.now);
      } else if r.kind == Some("assistant") {
        var at := r.ts.GetOr(cx.now);
        RememberReply(r, at);
        if !seed {
          effect := DecideReply(r, at, cx);
        }
      }
    }

    /** The resets of the user branch. */
    method ResetTurn(userText: string)
      modifies this
      ensures State() == ClearTurn(old(State()), userText)
    {
      lastUserText := userText;
      lastAssistantText := "";
      lastAssistantContent := None;
      lastAssistantHadToolUse := false;
      lastConfirmKey := "";
      confirmNotifiedForTurn := false;
    }

    /** The turn's start time, in the user branch. */
    method StartClock(ts: Option<int>, seed: bool, now: int)
      modifies this
      ensures State() == StampTurn(old(State()), ts, seed, now)
    {
      if !seed {
        lastUserTextAt := Some(ts.GetOr(now));
        notifiedForTurn := false;
      } else if ts.Some? {
        lastUserTextAt := ts;
        notifiedForTurn := false;
      }
    }

    /** The assistant branch of `process_claude_object`, up to the seed check. */
    method RememberReply(r: Reading, at: int)
      modifies this
      ensures State() == Remember(old(State()), r, at)
    {
      if r.text != [] {
        lastAssistantText := r.text;
      }
      lastAssistantHadToolUse := r.toolUse;
      if !IsBlank(r.content) {
        lastAssistantContent := Some(r.content);
      }
      lastAssistantAt := Some(at);
    }

    /** The assistant branch of `process_claude_object`, after the seed check. */
    method DecideReply(r: Reading, at: int, cx: Context) returns (effect: ClaudeEffect)
      modifies this
      ensures (State(), effect) == Decide(old(State()), r, at, cx, settings)
    {
      effect := NoEffect;
      if settings.confirmEnabled && !confirmNotifiedForTurn && r.prompt {
        confirmNotifiedForTurn := true;
        lastConfirmAt := cx.now;
        return SendConfirm(ConfirmNotice(ClaudeSource, cx));
      }
      if lastUserTextAt.Some? && !notifiedForTurn && !confirmNotifiedForTurn {
        var duration := Elapsed(lastUserTextAt.value, at);
        var notice := Notification(ClaudeSource, ClaudeDone, duration, lastCwd.GetOr(cx.currentDir));
        notifiedForTurn := true;
        confirmNotifiedForTurn := true;
        effect := CompletionAfter(CompletionDelay(r.toolUse, settings.quietMs), notice);
      }
    }

    /** The reset when a different file becomes the newest. */
    method SwitchFile(path: string)
      modifies this
      ensures State() == SwitchTo(old(State()), path)
    {
      ResetTurn("");
      ForgetTimes(path);
    }

    /** The part of the file-change reset that is not a turn reset. */
    method ForgetTimes(path: string)
      modifies this
      ensures State() == old(State()).(currentFile := Some(path), lastUserTextAt := None, lastAssistantAt := None,
                                       lastNotifiedAt := None, notifiedForTurn := false)
    {
      currentFile := Some(path);
      lastUserTextAt := None;
      lastAssistantAt := None;
      lastNotifiedAt := None;
      notifiedForTurn := false;
    }

    /** The end of a confirm task: the turn may raise a reminder again, and may still complete. */
    method ConfirmSent()
      modifies this
      ensures State() == old(State()).(confirmNotifiedForTurn := false)
    {
      confirmNotifiedForTurn := false;
    }

    /** The records of one tick, in order. */
    method ProcessRecords(records: seq<Record>, cx: Context) returns (effects: seq<ClaudeEffect>)
      modifies this
      ensures (State(), effects) == Replay(old(State()), LinesOf(records, settings.textTime), cx, settings)
    {
      effects := [];
      for k := 0 to |records|
        invariant (State(), effects) == Replay(old(State()), LinesOf(records[..k], settings.textTime), cx, settings)
      {
        var e := ProcessObject(records[k].obj, records[k].seed, cx);
        assert LinesOf(records[..k + 1], settings.textTime)
               == LinesOf(records[..k], settings.textTime) + [Line(Observe(records[k].obj, settings.textTime), records[k].seed)];
        effects := effects + [e];
      }
      assert records[..|records|] == records;
    }
  }

  /** One tick of the watch loop, given what the file system shows: `follower` is the loop's follower, `next` the one it keeps. */
  method WatchTick(w: ClaudeWatcher, follower: JsonlFollower, rootExists: bool, latest: Option<string>, file: FileView, cx: Context)
    returns (next: JsonlFollower, effects: seq<ClaudeEffect>)
    modifies w, follower
    ensures next == follower || fresh(next)
    ensures (w.State(), next.State(), effects)
            == Tick(old(w.State()), old(follower.State()), rootExists, latest, file, cx, w.settings)
  {
    next := follower;
    effects := [];
    if !rootExists || latest.None? {
      return;
    }
    var records: seq<Record>;
    if latest != w.currentFile {
      w.SwitchFile(latest.value);
      next := new JsonlFollower(SeedBytes);
      records := next.Attach(latest.value, file, w.settings.parse);
    } else {
      records := next.Poll(file, w.settings.parse);
    }
    effects := w.ProcessRecords(records, cx);
  }

  /* ---------------------------------------------------------------- */
  /* Properties                                                       */
  /* ---------------------------------------------------------------- */

  predicate IsAssistantLine(ev: ClaudeEvent) {
    ev.Line? && ev.reading.Some? && ev.reading.value.kind == Some("assistant")
  }

  predicate IsUserLine(ev: ClaudeEvent) {
    ev.Line? && ev.reading.Some? && ev.reading.value.kind == Some("user")
  }

  /** A live assistant reply schedules the completion notice exactly when the turn has a start time, neither per-turn flag is set and no confirm reminder is raised; the notice then carries the turn's duration and the delay rule, and both flags are set. */
  lemma CompletionScheduledIff(s: ClaudeState, ev: ClaudeEvent, cx: Context, cfg: Settings)
    ensures var (t, e) := Apply(s, ev, cx, cfg);
            e.CompletionAfter? <==>
              && IsAssistantLine(ev) && !ev.seed
              && s.lastUserTextAt.Some? && !s.notifiedForTurn && !s.confirmNotifiedForTurn
              && !(cfg.confirmEnabled && ev.reading.value.prompt)
    ensures var (t, e) := Apply(s, ev, cx, cfg);
            e.CompletionAfter? ==>
              var r := ev.reading.value;
              var at := r.ts.GetOr(cx.now);
              && t.notifiedForTurn && t.confirmNotifiedForTurn
              && e.delayMs == CompletionDelay(r.toolUse, cfg.quietMs)
              && e.notice.source == ClaudeSource && e.notice.taskInfo == ClaudeDone
              && e.notice.durationMs == Elapsed(s.lastUserTextAt.value, at)
              && e.notice.cwd == (if r.cwd.Some? then r.cwd else s.lastCwd).GetOr(cx.currentDir)
  {
  }

  /** A replayed record never sends or schedules anything. */
  lemma SeedIsQuiet(s: ClaudeState, r: Option<Reading>, cx: Context, cfg: Settings)
    ensures Apply(s, Line(r, true), cx, cfg).1 == NoEffect
  {
  }

  /** A confirm reminder is raised only for a live reply read as a prompt, with the detector on, once until its task ends. */
  lemma ConfirmIff(s: ClaudeState, ev: ClaudeEvent, cx: Context, cfg: Settings)
    ensures var (t, e) := Apply(s, ev, cx, cfg);
            e.SendConfirm? <==>
              IsAssistantLine(ev) && !ev.seed && cfg.confirmEnabled && !s.confirmNotifiedForTurn && ev.reading.value.prompt
    ensures var (t, e) := Apply(s, ev, cx, cfg);
            e.SendConfirm? ==> t.confirmNotifiedForTurn && e.notice == ConfirmNotice(ClaudeSource, cx)
  {
  }

  /** Only a user record clears the turn's notified flag, and scheduling a completion sets it. */
  lemma NotifiedIsSticky(s: ClaudeState, ev: ClaudeEvent, cx: Context, cfg: Settings)
    requires !IsUserLine(ev)
    ensures var (t, e) := Apply(s, ev, cx, cfg);
            && (s.notifiedForTurn ==> t.notifiedForTurn && !e.CompletionAfter?)
            && (e.CompletionAfter? ==> t.notifiedForTurn)
  {
  }

  /** The number of completion notices among some effects. */
  function Completions(es: seq<ClaudeEffect>): (n: nat)
    ensures n <= |es|
  {
    if es == [] then 0
    else Completions(es[..|es| - 1]) + (if es[|es| - 1].CompletionAfter? then 1 else 0)
  }

  /** Between two user records at most one completion notice is scheduled, whatever confirm tasks end meanwhile, and none once the turn was notified. */
  lemma {:induction false} OneCompletionPerTurn(s: ClaudeState, evs: seq<ClaudeEvent>, cx: Context, cfg: Settings)
    requires forall i :: 0 <= i < |evs| ==> !IsUserLine(evs[i])
    ensures var (t, es) := Replay(s, evs, cx, cfg);
            && Completions(es) <= (if s.notifiedForTurn then 0 else 1)
            && (s.notifiedForTurn || Completions(es) > 0 ==> t.notifiedForTurn)
  {
    if evs != [] {
      var init := evs[..|evs| - 1];
      OneCompletionPerTurn(s, init, cx, cfg);
      var (s1, es) := Replay(s, init, cx, cfg);
      NotifiedIsSticky(s1, evs[|evs| - 1], cx, cfg);
      var (s2, e) := Apply(s1, evs[|evs| - 1], cx, cfg);
      assert Replay(s, evs, cx, cfg) == (s2, es + [e]);
      assert (es + [e])[..|es|] == es;
    }
  }

  /** Replayed history sends nothing. */
  lemma {:induction false} SeedReplayIsQuiet(s: ClaudeState, evs: seq<ClaudeEvent>, cx: Context, cfg: Settings)
    requires forall i :: 0 <= i < |evs| ==> evs[i].Line? && evs[i].seed
    ensures forall i :: 0 <= i < |evs| ==> Replay(s, evs, cx, cfg).1[i] == NoEffect
  {
    if evs != [] {
      var init := evs[..|evs| - 1];
      SeedReplayIsQuiet(s, init, cx, cfg);
      SeedIsQuiet(Replay(s, init, cx, cfg).0, evs[|evs| - 1].reading, cx, cfg);
    }
  }

  /** Attaching to a new newest file replays its tail without notifying, and starts from a cleared turn. */
  lemma SwitchingFilesIsQuiet(s: ClaudeState, f: FollowerState, path: string, file: FileView, cx: Context, cfg: Settings)
    requires Some(path) != s.currentFile
    ensures var (t, g, es) := Tick(s, f, true, Some(path), file, cx, cfg);
            && t.currentFile == Some(path)
            && g.filePath == (if file.Present? then Some(path) else None)
            && forall i :: 0 <= i < |es| ==> es[i] == NoEffect
  {
    var (f1, records) := AttachStep(FollowerState(None, 0, ""), path, file, SeedBytes, cfg.parse);
    AttachRecordsAreSeeds(path, file, cfg.parse);
    var evs := LinesOf(records, cfg.textTime);
    SeedReplayIsQuiet(SwitchTo(s, path), evs, cx, cfg);
    ReplayKeepsFile(SwitchTo(s, path), evs, cx, cfg);
  }

  /** Records never change which file the state belongs to. */
  lemma {:induction false} ReplayKeepsFile(s: ClaudeState, evs: seq<ClaudeEvent>, cx: Context, cfg: Settings)
    ensures Replay(s, evs, cx, cfg).0.currentFile == s.currentFile
  {
    if evs != [] {
      ReplayKeepsFile(s, evs[..|evs| - 1], cx, cfg);
      ApplyKeepsFile(Replay(s, evs[..|evs| - 1], cx, cfg).0, evs[|evs| - 1], cx, cfg);
    }
  }

  lemma ApplyKeepsFile(s: ClaudeState, ev: ClaudeEvent, cx: Context, cfg: Settings)
    ensures Apply(s, ev, cx, cfg).0.currentFile == s.currentFile
  {
    if ev.Line? && ev.reading.Some? {
      var r := ev.reading.value;
      var s1 := if r.cwd.Some? then s.(lastCwd := r.cwd) else s;
      if r.kind == Some("user") {
        UserStepKeepsFile(s1, r, ev.seed, cx.now);
      } else if r.kind == Some("assistant") {
        AssistantStepKeepsFile(s1, r, ev.seed, cx, cfg);
      }
    }
  }

  lemma UserStepKeepsFile(s: ClaudeState, r: Reading, seed: bool, now: int)
    ensures UserStep(s, r, seed, now).currentFile == s.currentFile
  {
    assert ClearTurn(s, r.text).currentFile == s.currentFile;
  }

  lemma AssistantStepKeepsFile(s: ClaudeState, r: Reading, seed: bool, cx: Context, cfg: Settings)
    ensures AssistantStep(s, r, seed, cx, cfg).0.currentFile == s.currentFile
  {
    var at := r.ts.GetOr(cx.now);
    assert Remember(s, r, at).currentFile == s.currentFile;
  }

  /** A confirm reminder holds back the completion notice until its task ends; after that the same turn can still complete. */
  lemma ConfirmThenCompletion(s: ClaudeState, r: Reading, cx: Context, cfg: Settings)
    requires s.lastUserTextAt.Some? && !s.notifiedForTurn && s.confirmNotifiedForTurn
    requires r.kind == Some("assistant") && !(cfg.confirmEnabled && r.prompt)
    ensures Apply(s, Line(Some(r), false), cx, cfg).1 == NoEffect
    ensures Apply(Apply(s, ConfirmDelivered, cx, cfg).0, Line(Some(r), false), cx, cfg).1.CompletionAfter?
  {
    CompletionScheduledIff(s, Line(Some(r), false), cx, cfg);
    CompletionScheduledIff(s.(confirmNotifiedForTurn := false), Line(Some(r), false), cx, cfg);
  }
}
