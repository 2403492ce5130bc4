/**
 * The Codex watcher of the shipping backend: each tick follows the newest
 * session log, and `process_codex_object` folds every decoded record into a
 * `CodexState`. A live `task_complete` event either raises a confirm
 * reminder, when the agent's last message ends the turn with a question, or
 * sends the completion notice at once; a turn id that was already notified
 * is ignored. The spawned sending tasks are outside the model: the effect a
 * record produces names what the watch loop will send.
 */
module CodexWatch {
  import opened Base
  import opened Json
  import opened Decode
  import opened Follower
  import opened Watch
  import Confirm

  const CodexSource: string := "codex"
  const CodexDone: string := "Codex 完成"

  /** Whether the agent's last message ends the turn by asking the user (`detect_turn_end_confirm_prompt`). */
  const TurnEnds: string -> bool := text => Confirm.DetectTurnEndConfirmPrompt(text).Some?

  /** The same test with the question-mark check as written, which misses a full-width '？'. */
  const TurnEndsAsWritten: string -> bool := text => Confirm.DetectTurnEndConfirmPromptAsWritten(text).Some?

  /** `CodexState`. */
  datatype CodexState = CodexState(
    lastTaskStartedAt: Option<int>,
    lastUserAt: Option<int>,
    lastAssistantAt: Option<int>,
    lastNotifiedAssistantAt: Option<int>,
    currentTurnId: string,
    collaborationModeKind: string,
    lastNotifiedTurnId: string,
    lastCwd: Option<string>,
    lastAgentContent: Option<string>,
    lastUserText: string,
    lastAssistantText: string,
    lastConfirmKey: string,
    lastConfirmAt: int,
    confirmNotifiedForTurn: bool,
    interactionRequiredForTurn: bool,
    lastInteractionResolvedAt: Option<int>)

  /** `CodexState::new`. */
  const Initial: CodexState :=
    CodexState(None, None, None, None, "", "", "", None, None, "", "", "", 0, false, false, None)

  /** What processing one record starts: nothing, a confirm reminder, or the completion notice, each sent at once. */
  datatype CodexEffect = NoEffect | SendConfirm(notice: Notification) | SendCompletion(notice: Notification)

  /** The kinds of record `process_codex_object` acts on, with the members each branch reads. */
  datatype CodexRecord =
    | TurnContext(cwd: Option<string>, turnId: Option<string>, mode: Option<string>)
    | UserMessage(ts: Option<int>, text: string)
    | AssistantMessage(ts: Option<int>, text: string)
    | TaskStarted(ts: Option<int>, turnId: Option<string>, mode: Option<string>)
    | TaskComplete(ts: Option<int>, turnId: Option<string>, lastAgentMessage: Option<string>)
    | AgentMessage(ts: Option<int>, content: Option<string>)
    | Ignored

  /** The string member `key` of `parent`'s member `outer`. */
  function NestedStr(parent: Json, outer: string, key: string): Option<string> {
    var inner := Get(parent, outer);
    if inner.Some? then StrField(inner.value, key) else None
  }

  /** How `process_codex_object` classifies a record: by its `type`, then by its payload's `type` and `role`. */
  function Classify(obj: Json, textTime: string -> Option<int>): (r: CodexRecord)
    ensures !obj.Obj? ==> r.Ignored?
    ensures r.TaskComplete? <==> obj.Obj? && StrField(obj, "type") == Some("event_msg") && Get(obj, "payload").Some?
                                 && StrField(Get(obj, "payload").value, "type") == Some("task_complete")
  {
    var ts := TimestampOf(obj, textTime);
    var kind := StrField(obj, "type");
    var payload := Get(obj, "payload");
    if !obj.Obj? then Ignored
    else if kind == Some("turn_context") then
      if payload.None? then TurnContext(None, None, None)
      else
        var p := payload.value;
        TurnContext(StrField(p, "cwd"), StrField(p, "turn_id"), NestedStr(p, "collaboration_mode", "mode"))
    else if payload.None? then Ignored
    else
      var p := payload.value;
      var ptype := StrField(p, "type");
      if kind == Some("response_item") then
        if ptype == Some("message") && StrField(p, "role") == Some("user") then UserMessage(ts, ExtractTextFromAny(p))
        else if ptype == Some("message") && StrField(p, "role") == Some("assistant") then AssistantMessage(ts, ExtractTextFromAny(p))
        else Ignored
      else if kind == Some("event_msg") then
        if ptype == Some("task_started") then TaskStarted(ts, StrField(p, "turn_id"), StrField(p, "collaboration_mode_kind"))
        else if ptype == Some("task_complete") then TaskComplete(ts, StrField(p, "turn_id"), StrField(p, "last_agent_message"))
        else if ptype == Some("agent_message") then AgentMessage(ts, StrField(p, "content"))
        else Ignored
      else Ignored
  }

  /** What starts a new turn: the confirm key and the per-turn flags are cleared. */
  function ClearTurnFlags(s: CodexState): CodexState {
    s.(lastConfirmKey := "", confirmNotifiedForTurn := false, interactionRequiredForTurn := false)
  }

  /** `turn_context`: the directory, a new turn id (which clears the turn's flags) and the collaboration mode. */
  function TurnContextStep(s: CodexState, cwd: Option<string>, turnId: Option<string>, mode: Option<string>): CodexState {
    var s1 := if cwd.Some? then s.(lastCwd := cwd) else s;
    var s2 :=
      if turnId.Some? && s1.currentTurnId != turnId.value then
        ClearTurnFlags(s1).(currentTurnId := turnId.value, lastInteractionResolvedAt := None)
      else s1;
    if mode.Some? then s2.(collaborationModeKind := mode.value) else s2
  }

  /** A user message: a live one forgets its task start; the user's time (possibly none) and text are taken and the turn's flags cleared. */
  function UserMessageStep(s: CodexState, ts: Option<int>, text: string, seed: bool): CodexState {
    var s1 := if !seed then s.(lastTaskStartedAt := None) else s;
    ClearTurnFlags(s1).(lastUserAt := ts, lastUserText := text)
  }

  /** A live assistant message: its text when non-empty, and its time. */
  function AssistantMessageStep(s: CodexState, ts: Option<int>, text: string, seed: bool, now: int): CodexState {
    if seed then s
    else
      var s1 := if text != [] then s.(lastAssistantText := text, lastAgentContent := Some(text)) else s;
      s1.(lastAssistantAt := Some(ts.GetOr(now)))
  }

  /** `task_started`: the turn id and mode when given, the start time (possibly none), and cleared flags. */
  function TaskStartedStep(s: CodexState, ts: Option<int>, turnId: Option<string>, mode: Option<string>): CodexState {
    var s1 := if turnId.Some? then s.(currentTurnId := turnId.value) else s;
    var s2 := if mode.Some? then s1.(collaborationModeKind := mode.value) else s1;
    ClearTurnFlags(s2).(lastTaskStartedAt := ts)
  }

  /** A live `agent_message`: its content when it is a string, and its time. */
  function AgentMessageStep(s: CodexState, ts: Option<int>, content: Option<string>, seed: bool, now: int): CodexState {
    if seed then s
    else
      var s1 := if content.Some? then s.(lastAssistantText := content.value) else s;
      s1.(lastAssistantAt := Some(ts.GetOr(now)))
  }

  /** The completion's duration: from the user's message, else from its task start, when not negative. */
  function TurnDuration(s: CodexState, at: int): (d: Option<int>)
    ensures var start := s.lastUserAt.Or(s.lastTaskStartedAt);
            d.Some? <==> start.Some? && start.value <= at
    ensures d.Some? ==> d.value >= 0 && s.lastUserAt.Or(s.lastTaskStartedAt).value + d.value == at
  {
    var start := s.lastUserAt.Or(s.lastTaskStartedAt);
    if start.Some? then Elapsed(start.value, at) else None
  }

  /** A non-empty `last_agent_message` becomes the turn's text, content and time. */
  function TakeLastMessage(s: CodexState, lastAgentMessage: Option<string>, at: int): (r: CodexState)
    ensures r.lastAgentContent == ContentAt(s, lastAgentMessage)
    ensures r.(lastAssistantText := s.lastAssistantText, lastAgentContent := s.lastAgentContent,
               lastAssistantAt := s.lastAssistantAt) == s
  {
    if lastAgentMessage.Some? && lastAgentMessage.value != [] then
      s.(lastAssistantText := lastAgentMessage.value, lastAgentContent := lastAgentMessage, lastAssistantAt := Some(at))
    else s
  }

  /** After the last message is taken: a reminder when the content ends the turn with a question, otherwise the completion notice. */
  function ConfirmOrComplete(s: CodexState, tid: string, at: int, cx: Context, cfg: Settings, turnEnd: string -> bool)
    : (r: (CodexState, CodexEffect))
    ensures r.1.NoEffect? <==> s.confirmNotifiedForTurn
    ensures r.0.confirmNotifiedForTurn
    ensures r.1.SendCompletion? ==> r.0.lastNotifiedTurnId == tid && r.0.lastNotifiedAssistantAt == Some(at)
    ensures !r.1.SendCompletion? ==> r.0.lastNotifiedTurnId == s.lastNotifiedTurnId
  {
    if s.confirmNotifiedForTurn then (s, NoEffect)
    else if cfg.confirmEnabled && s.lastAgentContent.Some? && turnEnd(s.lastAgentContent.value) then
      (s.(confirmNotifiedForTurn := true, lastConfirmAt := cx.now), SendConfirm(ConfirmNotice(CodexSource, cx)))
    else
      (s.(lastNotifiedAssistantAt := Some(at), lastNotifiedTurnId := tid, confirmNotifiedForTurn := true),
       SendCompletion(Notification(CodexSource, CodexDone, TurnDuration(s, at), s.lastCwd.GetOr(cx.currentDir))))
  }

  /** `task_complete`: replayed ones and already notified turn ids are ignored. */
  function TaskCompleteStep(s: CodexState, ts: Option<int>, turnId: Option<string>, lastAgentMessage: Option<string>,
                            seed: bool, cx: Context, cfg: Settings, turnEnd: string -> bool): (r: (CodexState, CodexEffect))
    ensures seed || s.lastNotifiedTurnId == turnId.GetOr("") ==> r == (s, NoEffect)
    ensures r.1.SendCompletion? ==> r.0.lastNotifiedTurnId == turnId.GetOr("")
  {
    var tid := turnId.GetOr("");
    if seed || s.lastNotifiedTurnId == tid then (s, NoEffect)
    else
      var at := ts.GetOr(cx.now);
      ConfirmOrComplete(TakeLastMessage(s, lastAgentMessage, at), tid, at, cx, cfg, turnEnd)
  }

  /** `process_codex_object` on a classified record. */
  function Step(s: CodexState, r: CodexRecord, seed: bool, cx: Context, cfg: Settings, turnEnd: string -> bool)
    : (o: (CodexState, CodexEffect))
    ensures !o.1.NoEffect? ==> r.TaskComplete? && !seed
  {
    match r
    case TurnContext(cwd, turnId, mode) => (TurnContextStep(s, cwd, turnId, mode), NoEffect)
    case UserMessage(ts, text) => (UserMessageStep(s, ts, text, seed), NoEffect)
    case AssistantMessage(ts, text) => (AssistantMessageStep(s, ts, text, seed, cx.now), NoEffect)
    case TaskStarted(ts, turnId, mode) => (TaskStartedStep(s, ts, turnId, mode), NoEffect)
    case TaskComplete(ts, turnId, msg) => TaskCompleteStep(s, ts, turnId, msg, seed, cx, cfg, turnEnd)
    case AgentMessage(ts, content) => (AgentMessageStep(s, ts, content, seed, cx.now), NoEffect)
    case Ignored => (s, NoEffect)
  }

  /** A classified record with its seed mark. */
  datatype CodexLine = CodexLine(record: CodexRecord, seed: bool)

  /** The state after a run of records, and the effect of each. */
  function Replay(s: CodexState, lines: seq<CodexLine>, cx: Context, cfg: Settings, turnEnd: string -> bool)
    : (r: (CodexState, seq<CodexEffect>))
    ensures |r.1| == |lines|
  {
    if lines == [] then (s, [])
    else
      var (s1, es) := Replay(s, lines[..|lines| - 1], cx, cfg, turnEnd);
      var last := lines[|lines| - 1];
      var (s2, e) := Step(s1, last.record, last.seed, cx, cfg, turnEnd);
      (s2, es + [e])
  }

  /** The records of a tick, classified. */
  function LinesOf(records: seq<Record>, textTime: string -> Option<int>): (lines: seq<CodexLine>)
    ensures |lines| == |records|
    ensures forall i :: 0 <= i < |lines| ==> lines[i] == CodexLine(Classify(records[i].obj, textTime), records[i].seed)
  {
    seq(|records|, i requires 0 <= i < |records| => CodexLine(Classify(records[i].obj, textTime), records[i].seed))
  }

  /** The reset when the follower is not on the newest file: turn ids, texts and flags; the times stay. */
  function SwitchReset(s: CodexState): CodexState {
    ClearTurnFlags(s).(currentTurnId := "", collaborationModeKind := "", lastNotifiedTurnId := "", lastCwd := None,
                       lastAgentContent := None, lastUserText := "", lastAssistantText := "",
                       lastInteractionResolvedAt := None)
  }

  /** One tick: with no log nothing happens; when the follower is not on the newest file it is attached to it; otherwise it polls. */
  function Tick(s: CodexState, f: FollowerState, rootExists: bool, latest: Option<string>, file: FileView,
                cx: Context, cfg: Settings, turnEnd: string -> bool): (CodexState, FollowerState, seq<CodexEffect>)
  {
    if !rootExists || latest.None? then (s, f, [])
    else if f.filePath != latest then
      var (f1, records) := AttachStep(FollowerState(None, 0, ""), latest.value, file, SeedBytes, cfg.parse);
      var (s1, es) := Replay(SwitchReset(s), LinesOf(records, cfg.textTime), cx, cfg, turnEnd);
      (s1, f1, es)
    else
      var (f1, records) := PollStep(f, file, cfg.parse);
      var (s1, es) := Replay(s, LinesOf(records, cfg.textTime), cx, cfg, turnEnd);
      (s1, f1, es)
  }

  /** The watcher's `CodexState`, shared between the watch loop and the timers it spawns. */
  class CodexWatcher {
    const settings: Settings
    const turnEnd: string -> bool
    var lastTaskStartedAt: Option<int>
    var lastUserAt: Option<int>
    var lastAssistantAt: Option<int>
    var lastNotifiedAssistantAt: Option<int>
    var currentTurnId: string
    var collaborationModeKind: string
    var lastNotifiedTurnId: string
    var lastCwd: Option<string>
    var lastAgentContent: Option<string>
    var lastUserText: string
    var lastAssistantText: string
    var lastConfirmKey: string
    var lastConfirmAt: int
    var confirmNotifiedForTurn: bool
    var interactionRequiredForTurn: bool
    var lastInteractionResolvedAt: Option<int>

    function State(): CodexState
      reads this
    {
      CodexState(lastTaskStartedAt, lastUserAt, lastAssistantAt, lastNotifiedAssistantAt, currentTurnId,
                 collaborationModeKind, lastNotifiedTurnId, lastCwd, lastAgentContent, lastUserText,
                 lastAssistantText, lastConfirmKey, lastConfirmAt, confirmNotifiedForTurn,
                 interactionRequiredForTurn, lastInteractionResolvedAt)
    }

    /** `start_codex_watch`: a fresh state; the turn-end test is `detect_turn_end_confirm_prompt` finding a prompt. */
    constructor(confirmEnabled: bool, textTime: string -> Option<int>, parse: string -> Option<Json>)
      ensures settings == Settings(confirmEnabled, 0, textTime, parse) && turnEnd == TurnEnds
      ensures State() == Initial
    {
      settings := Settings(confirmEnabled, 0, textTime, parse);
      turnEnd := TurnEnds;
      lastTaskStartedAt := None;
      lastUserAt := None;
      lastAssistantAt := None;
      lastNotifiedAssistantAt := None;
      currentTurnId := "";
      collaborationModeKind := "";
      lastNotifiedTurnId := "";
      lastCwd := None;
      lastAgentContent := None;
      lastUserText := "";
      lastAssistantText := "";
      lastConfirmKey := "";
      lastConfirmAt := 0;
      confirmNotifiedForTurn := false;
      interactionRequiredForTurn := false;
      lastInteractionResolvedAt := None;
    }

    /** `process_codex_object`. */
    method ProcessObject(obj: Json, seed: bool, cx: Context) returns (effect: CodexEffect)
      modifies this
      ensures (State(), effect) == Step(old(State()), Classify(obj, settings.textTime), seed, cx, settings, turnEnd)
    {
      var r := Classify(obj, settings.textTime);
      effect := ProcessRecord(r, seed, cx);
    }

    /** The branches of `process_codex_object`. */
    method ProcessRecord(r: CodexRecord, seed: bool, cx: Context) returns (effect: CodexEffect)
      modifies this
      ensures (State(), effect) == Step(old(State()), r, seed, cx, settings, turnEnd)
    {
      effect := NoEffect;
      match r
      case TurnContext(cwd, turnId, mode) =>
        OnTurnContext(cwd, turnId, mode);
      case UserMessage(ts, text) =>
        OnUserMessage(ts, text, seed);
      case AssistantMessage(ts, text) =>
        if !seed {
          OnAssistantMessage(ts, text, cx.now);
        }
      case TaskStarted(ts, turnId, mode) =>
        OnTaskStarted(ts, turnId, mode);
      case TaskComplete(ts, turnId, msg) =>
        effect := OnTaskComplete(ts, turnId, msg, seed, cx);
      case AgentMessage(ts, content) =>
        if !seed {
          OnAgentMessage(ts, content, cx.now);
        }
      case Ignored =>
    }

    method ClearFlags()
      modifies this
      ensures State() == ClearTurnFlags(old(State()))
    {
      lastConfirmKey := "";
      confirmNotifiedForTurn := false;
      interactionRequiredForTurn := false;
    }

    /** The `turn_context` branch. */
    method OnTurnContext(cwd: Option<string>, turnId: Option<string>, mode: Option<string>)
      modifies this
      ensures State() == TurnContextStep(old(State()), cwd, turnId, mode)
    {
      ghost var s0 := State();
      if cwd.Some? {
        lastCwd := cwd;
      }
      ghost var s1 := State();
      assert s1 == if cwd.Some? then s0.(lastCwd := cwd) else s0;
      if turnId.Some? && currentTurnId != turnId.value {
        currentTurnId := turnId.value;
        ClearFlags();
        lastInteractionResolvedAt := None;
      }
      assert State() == if turnId.Some? && s1.currentTurnId != turnId.value then
        ClearTurnFlags(s1).(currentTurnId := turnId.value, lastInteractionResolvedAt := None) else s1;
      if mode.Some? {
        collaborationModeKind := mode.value;
      }
    }

    /** The user-message branch. */
    method OnUserMessage(ts: Option<int>, text: string, seed: bool)
      modifies this
      ensures State() == UserMessageStep(old(State()), ts, text, seed)
    {
      if !seed {
        lastTaskStartedAt := None;
      }
      lastUserAt := ts;
      lastUserText := text;
      ClearFlags();
    }

    /** The assistant-message branch, for a live record. */
    method OnAssistantMessage(ts: Option<int>, text: string, now: int)
      modifies this
      ensures State() == AssistantMessageStep(old(State()), ts, text, false, now)
    {
      if text != [] {
        lastAssistantText := text;
        lastAgentContent := Some(text);
      }
      lastAssistantAt := Some(ts.GetOr(now));
    }

    /** The `task_started` branch. */
    method OnTaskStarted(ts: Option<int>, turnId: Option<string>, mode: Option<string>)
      modifies this
      ensures State() == TaskStartedStep(old(State()), ts, turnId, mode)
    {
      if turnId.Some? {
        currentTurnId := turnId.value;
      }
      if mode.Some? {
        collaborationModeKind := mode.value;
      }
      lastTaskStartedAt := ts;
      ClearFlags();
    }

    /** The `agent_message` branch, for a live record. */
    method OnAgentMessage(ts: Option<int>, content: Option<string>, now: int)
      modifies this
      ensures State() == AgentMessageStep(old(State()), ts, content, false, now)
    {
      if content.Some? {
        lastAssistantText := content.value;
      }
      lastAssistantAt := Some(ts.GetOr(now));
    }

    /** The `task_complete` branch. */
    method OnTaskComplete(ts: Option<int>, turnId: Option<string>, msg: Option<string>, seed: bool, cx: Context)
      returns (effect: CodexEffect)
      modifies this
      ensures (State(), effect) == TaskCompleteStep(old(State()), ts, turnId, msg, seed, cx, settings, turnEnd)
    {
      var tid := turnId.GetOr("");
      if seed || lastNotifiedTurnId == tid {
        return NoEffect;
      }
      var at := ts.GetOr(cx.now);
      if msg.Some? && msg.value != [] {
        lastAssistantText := msg.value;
        lastAgentContent := msg;
        lastAssistantAt := Some(at);
      }
      effect := Conclude(tid, at, cx);
    }

    /** The end of the `task_complete` branch: a reminder or the completion notice, unless the turn was already notified. */
    method Conclude(tid: string, at: int, cx: Context) returns (effect: CodexEffect)
      modifies this
      ensures (State(), effect) == ConfirmOrComplete(old(State()), tid, at, cx, settings, turnEnd)
    {
      if confirmNotifiedForTurn {
        return NoEffect;
      }
      if settings.confirmEnabled && lastAgentContent.Some? && turnEnd(lastAgentContent.value) {
        confirmNotifiedForTurn := true;
        lastConfirmAt := cx.now;
        return SendConfirm(ConfirmNotice(CodexSource, cx));
      }
      var notice := Notification(CodexSource, CodexDone, TurnDuration(State(), at), lastCwd.GetOr(cx.currentDir));
      lastNotifiedAssistantAt := Some(at);
      lastNotifiedTurnId := tid;
      confirmNotifiedForTurn := true;
      effect := SendCompletion(notice);
    }

    /** The reset when the follower is not on the newest file. */
    method ResetForFile()
      modifies this
      ensures State() == SwitchReset(old(State()))
    {
      ClearFlags();
      ForgetTurnIds();
      ForgetTexts();
    }

    /** The turn ids, the mode and the resolution time of the file-change reset. */
    method ForgetTurnIds()
      modifies this
      ensures State() == old(State()).(currentTurnId := "", collaborationModeKind := "", lastNotifiedTurnId := "",
                                       lastInteractionResolvedAt := None)
    {
      currentTurnId := "";
      collaborationModeKind := "";
      lastNotifiedTurnId := "";
      lastInteractionResolvedAt := None;
    }

    /** The directory and the texts of the file-change reset. */
    method ForgetTexts()
      modifies this
      ensures State() == old(State()).(lastCwd := None, lastAgentContent := None, lastUserText := "", lastAssistantText := "")
    {
      lastCwd := None;
      lastAgentContent := None;
      lastUserText := "";
      lastAssistantText := "";
    }

    /** The records of one tick, in order. */
    method ProcessRecords(records: seq<Record>, cx: Context) returns (effects: seq<CodexEffect>)
      modifies this
      ensures (State(), effects) == Replay(old(State()), LinesOf(records, settings.textTime), cx, settings, turnEnd)
    {
      effects := [];
      for k := 0 to |records|
        invariant (State(), effects) == Replay(old(State()), LinesOf(records[..k], settings.textTime), cx, settings, turnEnd)
      {
        var e := ProcessObject(records[k].obj, records[k].seed, cx);
        assert LinesOf(records[..k + 1], settings.textTime)
               == LinesOf(records[..k], settings.textTime) + [CodexLine(Classify(records[k].obj, settings.textTime), records[k].seed)];
        effects := effects + [e];
      }
      assert records[..|records|] == records;
    }
  }

  /** One tick of the watch loop: `follower` is the loop's follower, `next` the one it keeps. */
  method WatchTick(w: CodexWatcher, follower: JsonlFollower, rootExists: bool, latest: Option<string>, file: FileView, cx: Context)
    returns (next: JsonlFollower, effects: seq<CodexEffect>)
    modifies w, follower
    ensures next == follower || fresh(next)
    ensures (w.State(), next.State(), effects)
            == Tick(old(w.State()), old(follower.State()), rootExists, latest, file, cx, w.settings, w.turnEnd)
  {
    next := follower;
    effects := [];
    if !rootExists || latest.None? {
      return;
    }
    var records: seq<Record>;
    if follower.filePath != latest {
      w.ResetForFile();
      next := new JsonlFollower(SeedBytes);
      records := next.Attach(latest.value, file, w.settings.parse);
    } else {
      records := next.Poll(file, w.settings.parse);
    }
    effects := w.ProcessRecords(records, cx);
  }

  /* ---------------------------------------------------------------- */
  /* Properties                                                       */
  /* ---------------------------------------------------------------- */

  /** Only a live `task_complete` record produces an effect. */
  lemma OnlyLiveCompletionsSignal(s: CodexState, r: CodexRecord, seed: bool, cx: Context, cfg: Settings, turnEnd: string -> bool)
    ensures Step(s, r, seed, cx, cfg, turnEnd).1 != NoEffect ==> r.TaskComplete? && !seed
  {
  }

  /** The agent content the turn-end test sees at a `task_complete`: its non-empty last message, else the content already kept. */
  function ContentAt(s: CodexState, lastAgentMessage: Option<string>): Option<string> {
    if lastAgentMessage.Some? && lastAgentMessage.value != [] then lastAgentMessage else s.lastAgentContent
  }

  /** A `task_complete` that is replayed, or whose turn id (missing counts as empty) was the last one notified, changes nothing. */
  lemma IgnoredCompletion(s: CodexState, ts: Option<int>, turnId: Option<string>, msg: Option<string>, seed: bool,
                          cx: Context, cfg: Settings, turnEnd: string -> bool)
    requires seed || s.lastNotifiedTurnId == turnId.GetOr("")
    ensures Step(s, TaskComplete(ts, turnId, msg), seed, cx, cfg, turnEnd) == (s, NoEffect)
  {
  }

  /**
   * When a live `task_complete` sends the reminder and when the completion
   * notice, and what each leaves behind: the completion records the turn id
   * and carries the time since the user's message (else since the
   * task start) when that is not negative; the reminder does not record the turn.
   */
  lemma CompletionIff(s: CodexState, ts: Option<int>, turnId: Option<string>, msg: Option<string>,
                      cx: Context, cfg: Settings, turnEnd: string -> bool)
    ensures var (s1, e) := Step(s, TaskComplete(ts, turnId, msg), false, cx, cfg, turnEnd);
            var tid := turnId.GetOr("");
            var at := ts.GetOr(cx.now);
            var content := ContentAt(s, msg);
            var asks := cfg.confirmEnabled && content.Some? && turnEnd(content.value);
            var open := s.lastNotifiedTurnId != tid && !s.confirmNotifiedForTurn;
            && (e.SendCompletion? <==> open && !asks)
            && (e.SendConfirm? <==> open && asks)
            && (e.SendCompletion? ==>
                  && e.notice == Notification(CodexSource, CodexDone, ElapsedBetween(s.lastUserAt.Or(s.lastTaskStartedAt), Some(at)),
                                              s.lastCwd.GetOr(cx.currentDir))
                  && s1.lastNotifiedTurnId == tid && s1.lastNotifiedAssistantAt == Some(at) && s1.confirmNotifiedForTurn)
            && (e.SendConfirm? ==>
                  && e.notice == ConfirmNotice(CodexSource, cx)
                  && s1.lastNotifiedTurnId == s.lastNotifiedTurnId && s1.lastConfirmAt == cx.now && s1.confirmNotifiedForTurn)
  {
    var tid := turnId.GetOr("");
    if s.lastNotifiedTurnId != tid {
      var at := ts.GetOr(cx.now);
      var t := TakeLastMessage(s, msg, at);
      assert t.lastAgentContent == ContentAt(s, msg);
      assert t.lastUserAt == s.lastUserAt && t.lastTaskStartedAt == s.lastTaskStartedAt && t.lastCwd == s.lastCwd;
    }
  }

  /**
   * A live completion of a fresh turn whose last agent message is "开始吗？"
   * ("start?"): as written the watcher sends "Codex 完成" and records the
   * turn id, so the question is never raised; as intended it sends the
   * confirm reminder and leaves the turn id alone.
   */
  lemma StartQuestionCompletesAsWritten(s: CodexState, ts: Option<int>, turnId: Option<string>, cx: Context, cfg: Settings)
    requires cfg.confirmEnabled && s.lastNotifiedTurnId != turnId.GetOr("") && !s.confirmNotifiedForTurn
    ensures var (s1, e) := Step(s, TaskComplete(ts, turnId, Some("开始吗？")), false, cx, cfg, TurnEndsAsWritten);
            e.SendCompletion? && e.notice.taskInfo == CodexDone && s1.lastNotifiedTurnId == turnId.GetOr("")
    ensures var (s1, e) := Step(s, TaskComplete(ts, turnId, Some("开始吗？")), false, cx, cfg, TurnEnds);
            e.SendConfirm? && s1.lastNotifiedTurnId == s.lastNotifiedTurnId
  {
    var q := "开始吗？";
    Confirm.FullWidthQuestionExample();
    assert ContentAt(s, Some(q)) == Some(q);
    assert !TurnEndsAsWritten(q) && TurnEnds(q);
    CompletionIff(s, ts, turnId, Some(q), cx, cfg, TurnEndsAsWritten);
    CompletionIff(s, ts, turnId, Some(q), cx, cfg, TurnEnds);
  }

  /** Once a turn id is notified, a repeated `task_complete` for it is a no-op, whatever it carries. */
  lemma RepeatedCompletionIsNoOp(s: CodexState, ts: Option<int>, turnId: Option<string>, msg: Option<string>,
                                 ts2: Option<int>, msg2: Option<string>, seed2: bool,
                                 cx: Context, cx2: Context, cfg: Settings, turnEnd: string -> bool)
    requires Step(s, TaskComplete(ts, turnId, msg), false, cx, cfg, turnEnd).1.SendCompletion?
    ensures var s1 := Step(s, TaskComplete(ts, turnId, msg), false, cx, cfg, turnEnd).0;
            Step(s1, TaskComplete(ts2, turnId, msg2), seed2, cx2, cfg, turnEnd) == (s1, NoEffect)
  {
    CompletionIff(s, ts, turnId, msg, cx, cfg, turnEnd);
  }

  /** Replayed records produce no effect. */
  lemma {:induction false} SeedReplayIsQuiet(s: CodexState, lines: seq<CodexLine>, cx: Context, cfg: Settings, turnEnd: string -> bool)
    requires forall i :: 0 <= i < |lines| ==> lines[i].seed
    ensures forall i :: 0 <= i < |lines| ==> Replay(s, lines, cx, cfg, turnEnd).1[i] == NoEffect
  {
    if lines != [] {
      var init := lines[..|lines| - 1];
      SeedReplayIsQuiet(s, init, cx, cfg, turnEnd);
      var s0 := Replay(s, init, cx, cfg, turnEnd).0;
      var es0 := Replay(s, init, cx, cfg, turnEnd).1;
      var last := lines[|lines| - 1];
      OnlyLiveCompletionsSignal(s0, last.record, last.seed, cx, cfg, turnEnd);
      var e := Step(s0, last.record, last.seed, cx, cfg, turnEnd).1;
      assert Replay(s, lines, cx, cfg, turnEnd).1 == es0 + [e];
    }
  }

  /**
   * While nothing was notified, a `task_complete` without a turn id is
   * skipped as already notified, and nothing else records a turn id: a log
   * whose completions carry no turn id never produces an effect.
   */
  lemma {:induction false} UnnumberedCompletionsNeverSignal(s: CodexState, lines: seq<CodexLine>, cx: Context, cfg: Settings,
                                                            turnEnd: string -> bool)
    requires s.lastNotifiedTurnId == ""
    requires forall i :: 0 <= i < |lines| ==> lines[i].record.TaskComplete? ==> lines[i].record.turnId.None?
    ensures Replay(s, lines, cx, cfg, turnEnd).0.lastNotifiedTurnId == ""
    ensures forall i :: 0 <= i < |lines| ==> Replay(s, lines, cx, cfg, turnEnd).1[i] == NoEffect
  {
    if lines != [] {
      var init := lines[..|lines| - 1];
      UnnumberedCompletionsNeverSignal(s, init, cx, cfg, turnEnd);
      var last := lines[|lines| - 1];
      var s0 := Replay(s, init, cx, cfg, turnEnd).0;
      if last.record.TaskComplete? {
        IgnoredCompletion(s0, last.record.ts, last.record.turnId, last.record.lastAgentMessage, last.seed, cx, cfg, turnEnd);
      }
    }
  }

  /** The interaction bookkeeping that is never set: no outstanding interaction, no resolution time, no confirm key. */
  predicate NoInteraction(s: CodexState) {
    !s.interactionRequiredForTurn && s.lastInteractionResolvedAt.None? && s.lastConfirmKey == ""
  }

  /** No record sets the interaction flag, a resolution time or a confirm key. */
  lemma StepKeepsNoInteraction(s: CodexState, r: CodexRecord, seed: bool, cx: Context, cfg: Settings, turnEnd: string -> bool)
    requires NoInteraction(s)
    ensures NoInteraction(Step(s, r, seed, cx, cfg, turnEnd).0)
  {
  }

  /** Hence the flag that would hold completion back while an interaction is outstanding stays clear throughout. */
  lemma {:induction false} InteractionNeverRequired(s: CodexState, lines: seq<CodexLine>, cx: Context, cfg: Settings,
                                                    turnEnd: string -> bool)
    requires NoInteraction(s)
    ensures NoInteraction(Replay(s, lines, cx, cfg, turnEnd).0)
  {
    if lines != [] {
      var init := lines[..|lines| - 1];
      InteractionNeverRequired(s, init, cx, cfg, turnEnd);
      var last := lines[|lines| - 1];
      StepKeepsNoInteraction(Replay(s, init, cx, cfg, turnEnd).0, last.record, last.seed, cx, cfg, turnEnd);
    }
  }

  /** The same across ticks, from the initial state on. */
  lemma TickKeepsNoInteraction(s: CodexState, f: FollowerState, rootExists: bool, latest: Option<string>, file: FileView,
                               cx: Context, cfg: Settings, turnEnd: string -> bool)
    requires NoInteraction(s)
    ensures NoInteraction(Initial)
    ensures NoInteraction(Tick(s, f, rootExists, latest, file, cx, cfg, turnEnd).0)
  {
    if rootExists && latest.Some? {
      if f.filePath != latest {
        var records := AttachStep(FollowerState(None, 0, ""), latest.value, file, SeedBytes, cfg.parse).1;
        InteractionNeverRequired(SwitchReset(s), LinesOf(records, cfg.textTime), cx, cfg, turnEnd);
      } else {
        var records := PollStep(f, file, cfg.parse).1;
        InteractionNeverRequired(s, LinesOf(records, cfg.textTime), cx, cfg, turnEnd);
      }
    }
  }

  /** The records after which a turn may be notified again: a user message, a task start, a turn context naming a turn. */
  predicate Rearms(r: CodexRecord) {
    r.UserMessage? || r.TaskStarted? || (r.TurnContext? && r.turnId.Some?)
  }

  /** How many effects are a reminder or a completion. */
  function Signals(es: seq<CodexEffect>): (n: nat)
    ensures n <= |es|
  {
    if es == [] then 0 else Signals(es[..|es| - 1]) + (if es[|es| - 1] == NoEffect then 0 else 1)
  }

  /** Any effect sets the per-turn flag, and a set flag silences every record that does not rearm and stays set. */
  lemma StepSignalsOnce(s: CodexState, r: CodexRecord, seed: bool, cx: Context, cfg: Settings, turnEnd: string -> bool)
    requires !Rearms(r)
    ensures var (s1, e) := Step(s, r, seed, cx, cfg, turnEnd);
            && (e != NoEffect ==> s1.confirmNotifiedForTurn)
            && (s.confirmNotifiedForTurn ==> s1.confirmNotifiedForTurn && e == NoEffect)
  {
  }

  /** Between records that rearm, a Codex log produces at most one reminder or completion, and none once the turn was notified. */
  lemma {:induction false} AtMostOneSignalPerTurn(s: CodexState, lines: seq<CodexLine>, cx: Context, cfg: Settings,
                                                  turnEnd: string -> bool)
    requires forall i :: 0 <= i < |lines| ==> !Rearms(lines[i].record)
    ensures var (s1, es) := Replay(s, lines, cx, cfg, turnEnd);
            && Signals(es) <= (if s.confirmNotifiedForTurn then 0 else 1)
            && (s.confirmNotifiedForTurn || Signals(es) > 0 ==> s1.confirmNotifiedForTurn)
  {
    if lines != [] {
      var init := lines[..|lines| - 1];
      AtMostOneSignalPerTurn(s, init, cx, cfg, turnEnd);
      var (s0, es0) := Replay(s, init, cx, cfg, turnEnd);
      var last := lines[|lines| - 1];
      StepSignalsOnce(s0, last.record, last.seed, cx, cfg, turnEnd);
      var e := Step(s0, last.record, last.seed, cx, cfg, turnEnd).1;
      assert (es0 + [e])[..|es0|] == es0;
    }
  }

  /** Attaching to a new newest file replays its tail without an effect, from a state whose turn was forgotten. */
  lemma SwitchingFilesIsQuiet(s: CodexState, f: FollowerState, path: string, file: FileView, cx: Context, cfg: Settings,
                              turnEnd: string -> bool)
    requires f.filePath != Some(path)
    ensures var r := Tick(s, f, true, Some(path), file, cx, cfg, turnEnd);
            && r.1.filePath == (if file.Present? then Some(path) else None)
            && forall i :: 0 <= i < |r.2| ==> r.2[i] == NoEffect
  {
    var (f1, records) := AttachStep(FollowerState(None, 0, ""), path, file, SeedBytes, cfg.parse);
    AttachRecordsAreSeeds(path, file, cfg.parse);
    var lines := LinesOf(records, cfg.textTime);
    assert forall i :: 0 <= i < |lines| ==> lines[i].seed;
    SeedReplayIsQuiet(SwitchReset(s), lines, cx, cfg, turnEnd);
    var t := Replay(SwitchReset(s), lines, cx, cfg, turnEnd).0;
    var es := Replay(SwitchReset(s), lines, cx, cfg, turnEnd).1;
    assert forall i :: 0 <= i < |es| ==> es[i] == NoEffect;
    var r := Tick(s, f, true, Some(path), file, cx, cfg, turnEnd);
    assert r == (t, f1, es);
  }
}
