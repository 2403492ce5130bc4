/**
 * The watcher of the earlier command-line build (`src/src/watch.rs`): one
 * task that, every tick, reads what was appended to the newest Claude and
 * Codex session logs and re-reads the newest Gemini chat file, keeps a
 * `FileState` per followed path and one pending completion timer per path.
 *
 * A spawned timer task is represented by a `Timer` record with an identity
 * drawn from a counter; aborting a task removes its record, and a firing is
 * an explicit call (`FireTimer`) naming the identity of the timer that went
 * off, so an aborted or replaced timer does nothing when it fires. A task
 * that has run to completion is left in the source's map, where it behaves
 * exactly like no entry: the model removes it when it fires.
 */
module LegacyWatch {
  import opened Base
  import opened Json
  import opened Text
  import opened Decode
  import opened Watch
  import Follower
  import ClaudeWatch

  /* ---------------------------------------------------------------- */
  /* State                                                            */
  /* ---------------------------------------------------------------- */

  /** `FileState`: the read position and the turn bookkeeping of one followed file. */
  datatype FileState = FileState(
    position: nat,
    lastUserAt: Option<int>,
    lastAssistantAt: Option<int>,
    lastNotifiedAt: Option<int>,
    notifiedForTurn: bool,
    lastNotifiedTurnId: Option<string>)

  /** The entry created when a path is first followed, starting to read at `position`. */
  function Following(position: nat): (fs: FileState)
    ensures fs.position == position && !fs.notifiedForTurn
    ensures fs.lastUserAt.None? && fs.lastAssistantAt.None? && fs.lastNotifiedAt.None? && fs.lastNotifiedTurnId.None?
  {
    FileState(position, None, None, None, false, None)
  }

  /** A spawned completion timer: its identity, what it will announce, and its delay. */
  datatype Timer = Timer(id: nat, source: string, taskInfo: string, delayMs: nat)

  /** The whole watch task: file states, pending timers, the next timer identity and the cleanup counter. */
  datatype LegacyState = LegacyState(
    states: map<string, FileState>,
    timers: map<string, Timer>,
    nextId: nat,
    cleanupCounter: nat)

  const Initial: LegacyState := LegacyState(map[], map[], 0, 0)

  /** Every pending timer has an identity below the next one handed out. */
  predicate TimersBelowNext(L: LegacyState) {
    forall p :: p in L.timers ==> L.timers[p].id < L.nextId
  }

  /**
   * What the watch loop is started with: the Claude and Gemini quiet periods
   * (already raised to the minimum), and the parsers outside the model
   * (RFC 3339 timestamps and JSON).
   */
  datatype LegacySettings = LegacySettings(
    claudeQuietMs: nat,
    geminiQuietMs: nat,
    rfc3339: string -> Option<int>,
    parse: string -> Option<Json>)

  /** `configured.max(500)` on the signed configuration value: a negative value is raised like any other below the floor. */
  function LegacyQuiet(configured: int): (q: nat)
    ensures q >= MinQuietMs
    ensures q == configured || (q == MinQuietMs && configured < MinQuietMs)
  {
    if configured < 0 then MinQuietMs else QuietMs(configured)
  }

  /* ---------------------------------------------------------------- */
  /* Reading appended content                                         */
  /* ---------------------------------------------------------------- */

  /** The outcome of `read_new_content`: an I/O error, or the new text and the new position. */
  datatype Chunk = Failed | Chunk(content: string, position: nat)

  /** The size `metadata` reports for a file, or 0 when it cannot be read. */
  function SizeOf(file: Follower.FileView): nat {
    if file.Present? then |file.bytes| else 0
  }

  /**
   * `read_new_content`: a file shorter than the position reads as nothing
   * and position 0, one of exactly that length as nothing, and otherwise
   * everything from the position to the end, with the end as new position.
   */
  function ReadNewContent(file: Follower.FileView, position: nat): (r: Chunk)
    ensures r.Failed? <==> file.Missing? || (position < |file.bytes| && !file.readable)
    ensures r.Chunk? ==> r.position <= |file.bytes|
    ensures r.Chunk? && |file.bytes| < position ==> r.content == [] && r.position == 0
    ensures r.Chunk? && position <= |file.bytes| ==>
              r.position == |file.bytes| && position + |r.content| == r.position && r.content == file.bytes[position..]
  {
    if file.Missing? then Failed
    else if |file.bytes| < position then Chunk("", 0)
    else if |file.bytes| == position then Chunk("", position)
    else if !file.readable then Failed
    else Chunk(file.bytes[position..], |file.bytes|)
  }

  /** Two reads around an append return exactly the appended text, in order. */
  lemma AppendsAreReadInOrder(before: string, a: string, b: string)
    ensures var first := ReadNewContent(Follower.Present(before + a, true), |before|);
            var second := ReadNewContent(Follower.Present(before + a + b, true), first.position);
            first.Chunk? && second.Chunk? && first.content + second.content == a + b
  {
    var first := ReadNewContent(Follower.Present(before + a, true), |before|);
    assert first.content == a && first.position == |before + a|;
    var second := ReadNewContent(Follower.Present(before + a + b, true), first.position);
    assert second.content == b;
  }

  /* ---------------------------------------------------------------- */
  /* Decoding records                                                 */
  /* ---------------------------------------------------------------- */

  /** What one record means to the legacy watcher. */
  datatype LegacyRecord =
    | UserTurn(ts: Option<int>)
    | Reply(ts: Option<int>, toolUse: bool)
    | TaskComplete(ts: Option<int>, turnId: Option<string>)
    | Skipped

  /** `parse_timestamp`: an RFC 3339 text, otherwise a 64-bit integer (taken as is). */
  function LegacyTimestamp(v: Json, rfc3339: string -> Option<int>): (r: Option<int>)
    ensures v.Num? ==> r == AsI64(v)
    ensures v.Str? ==> r == rfc3339(v.s)
  {
    if v.Str? && rfc3339(v.s).Some? then rfc3339(v.s) else AsI64(v)
  }

  /** `obj.get("timestamp").and_then(parse_timestamp)`. */
  function StampOf(obj: Json, rfc3339: string -> Option<int>): Option<int> {
    var v := Get(obj, "timestamp");
    if v.Some? then LegacyTimestamp(v.value, rfc3339) else None
  }

  /** A Claude record: side-chain records are skipped; a user record; an assistant record with a message object. */
  function ClaudeRecord(obj: Json, rfc3339: string -> Option<int>): (r: LegacyRecord)
    ensures r.UserTurn? || r.Reply? || r.Skipped?
    ensures AsBool(Get(obj, "isSidechain")) == Some(true) ==> r.Skipped?
  {
    var ts := StampOf(obj, rfc3339);
    var kind := StrField(obj, "type");
    var message := Get(obj, "message");
    if AsBool(Get(obj, "isSidechain")) == Some(true) then Skipped
    else if kind == Some("user") then UserTurn(ts)
    else if kind == Some("assistant") && message.Some? && message.value.Obj? then
      Reply(ts, HasContentType(message.value, "tool_use"))
    else Skipped
  }

  /** A Codex record: a user message item, or a `task_complete` event with its optional turn id. */
  function CodexRecord(obj: Json, rfc3339: string -> Option<int>): (r: LegacyRecord)
    ensures r.UserTurn? || r.TaskComplete? || r.Skipped?
  {
    var ts := StampOf(obj, rfc3339);
    var kind := StrField(obj, "type");
    var payload := Get(obj, "payload");
    if payload.None? || !payload.value.Obj? then Skipped
    else if kind == Some("response_item") && StrField(payload.value, "type") == Some("message")
            && StrField(payload.value, "role") == Some("user") then UserTurn(ts)
    else if kind == Some("event_msg") && StrField(payload.value, "type") == Some("task_complete") then
      TaskComplete(ts, StrField(payload.value, "turn_id"))
    else Skipped
  }

  /** A Gemini chat message: "user" or "gemini" by its type. */
  function GeminiRecord(msg: Json, rfc3339: string -> Option<int>): (r: LegacyRecord)
    ensures r.UserTurn? || r.Reply? || r.Skipped?
  {
    var ts := StampOf(msg, rfc3339);
    var kind := StrField(msg, "type");
    if kind == Some("user") then UserTurn(ts)
    else if kind == Some("gemini") then Reply(ts, false)
    else Skipped
  }

  /** The two JSONL logs the legacy watcher reads. */
  datatype Log = ClaudeLog | CodexLog

  /**
   * The records of the lines of a chunk: blank lines and lines that do not
   * parse once trimmed (`parse_json_line`) are skipped, every other line
   * is decoded as a record of its log.
   */
  function LineRecords(lines: seq<string>, log: Log, cfg: LegacySettings): (rs: seq<LegacyRecord>)
    ensures |rs| <= |lines|
  {
    if lines == [] then []
    else
      var t := Trim(lines[0]);
      var rest := LineRecords(lines[1..], log, cfg);
      if t == "" || cfg.parse(t).None? then rest
      else if log.ClaudeLog? then [ClaudeRecord(cfg.parse(t).value, cfg.rfc3339)] + rest
      else [CodexRecord(cfg.parse(t).value, cfg.rfc3339)] + rest
  }

  /** The records of the messages of a chat file, one per message. */
  function GeminiRecords(msgs: seq<Json>, rfc3339: string -> Option<int>): (rs: seq<LegacyRecord>)
    ensures |rs| == |msgs|
  {
    if msgs == [] then [] else [GeminiRecord(msgs[0], rfc3339)] + GeminiRecords(msgs[1..], rfc3339)
  }

  /** A text without a line feed, followed by one, is that one line. */
  lemma OneLine(b: string)
    requires '\n' !in b
    ensures Lines(b + "\n") == [StripCr(b)]
  {
    SplitConcat(b, "", '\n');
    SplitOfSeparatorFree(b, '\n');
    assert b + ['\n'] + "" == b + "\n";
  }

  /**
   * No partial line is carried from one read to the next: when a record
   * `a + b` is cut after `a` by a read, the two chunks yield the pieces `a`
   * and `b` as lines of their own, where the file holds the one line.
   */
  lemma {:induction false} CutLineIsReadInPieces(a: string, b: string)
    requires a != "" && '\n' !in a && '\n' !in b
    ensures Lines(a) == [a]
    ensures Lines(b + "\n") == [StripCr(b)]
    ensures Lines(a + b + "\n") == [StripCr(a + b)]
  {
    SplitOfSeparatorFree(a, '\n');
    OneLine(b);
    assert '\n' !in a + b;
    OneLine(a + b);
  }

  /* ---------------------------------------------------------------- */
  /* One path: its state and its pending timer                        */
  /* ---------------------------------------------------------------- */

  /** The state of one path while a batch is processed: its entry, its timer, and the next timer identity. */
  datatype Slot = Slot(file: FileState, timer: Option<Timer>, nextId: nat)

  /** The agents whose replies arm a timer, each with its own wait. */
  datatype Agent = ClaudeAgent | GeminiAgent

  function AgentSource(agent: Agent): string {
    if agent.ClaudeAgent? then "claude" else "gemini"
  }

  function AgentDone(agent: Agent): string {
    if agent.ClaudeAgent? then "Claude 完成" else "Gemini 完成"
  }

  /** Claude waits less after a reply without tool use; Gemini always waits its quiet period. */
  function AgentDelay(agent: Agent, toolUse: bool, quietMs: nat): (d: nat)
    ensures d <= quietMs
    ensures agent.GeminiAgent? ==> d == quietMs
  {
    if agent.ClaudeAgent? then ClaudeWatch.CompletionDelay(toolUse, quietMs) else quietMs
  }

  /** A user record: a new turn starts, and the pending timer is aborted. */
  function UserStep(p: Slot, ts: Option<int>): Slot {
    Slot(p.file.(lastUserAt := ts, notifiedForTurn := false), None, p.nextId)
  }

  /** A reply: remember its time (and take it as the turn's start when none is known) and re-arm the timer. */
  function ReplyStep(p: Slot, ts: Option<int>, t: Timer): (q: Slot)
    ensures q.timer == Some(t) && q.nextId == p.nextId + 1
    ensures q.file.lastAssistantAt == ts && q.file.position == p.file.position
    ensures p.file.lastUserAt.Some? ==> q.file == p.file.(lastAssistantAt := ts)
  {
    var f := p.file.(lastAssistantAt := ts);
    var f' := if f.lastUserAt.None? then f.(lastUserAt := ts, notifiedForTurn := false) else f;
    Slot(f', Some(t), p.nextId + 1)
  }

  /** One Claude or Gemini record. */
  function ReplyLine(p: Slot, r: LegacyRecord, agent: Agent, quietMs: nat): Slot {
    match r
    case UserTurn(ts) => UserStep(p, ts)
    case Reply(ts, toolUse) =>
      ReplyStep(p, ts, Timer(p.nextId, AgentSource(agent), AgentDone(agent), AgentDelay(agent, toolUse, quietMs)))
    case _ => p
  }

  /** A batch of Claude or Gemini records, in order. */
  function Replies(p: Slot, rs: seq<LegacyRecord>, agent: Agent, quietMs: nat): (q: Slot)
    ensures p.nextId <= q.nextId && q.file.position == p.file.position
  {
    if rs == [] then p
    else ReplyLine(Replies(p, rs[..|rs| - 1], agent, quietMs), rs[|rs| - 1], agent, quietMs)
  }

  /** The last record of a batch that is a user turn or a reply, if any. */
  function LastTurnEvent(rs: seq<LegacyRecord>): (e: Option<LegacyRecord>)
    ensures e.Some? ==> e.value.UserTurn? || e.value.Reply?
  {
    if rs == [] then None
    else if rs[|rs| - 1].UserTurn? || rs[|rs| - 1].Reply? then Some(rs[|rs| - 1])
    else LastTurnEvent(rs[..|rs| - 1])
  }

  /**
   * After a batch, the pending timer is decided by its last user turn or
   * reply: none after a user turn, a fresh timer for the reply otherwise,
   * and the old timer when the batch holds neither.
   */
  lemma {:induction false} TimerFollowsLastEvent(p: Slot, rs: seq<LegacyRecord>, agent: Agent, quietMs: nat)
    ensures var q := Replies(p, rs, agent, quietMs);
            && (LastTurnEvent(rs).None? ==> q == p)
            && (LastTurnEvent(rs).Some? && LastTurnEvent(rs).value.UserTurn? ==>
                  q.timer.None? && !q.file.notifiedForTurn && q.file.lastUserAt == LastTurnEvent(rs).value.ts)
            && (LastTurnEvent(rs).Some? && LastTurnEvent(rs).value.Reply? ==>
                  q.file.lastAssistantAt == LastTurnEvent(rs).value.ts
                  && p.nextId < q.nextId
                  && q.timer == Some(Timer(q.nextId - 1, AgentSource(agent), AgentDone(agent),
                                           AgentDelay(agent, LastTurnEvent(rs).value.toolUse, quietMs))))
  {
    if rs != [] {
      var init := rs[..|rs| - 1];
      TimerFollowsLastEvent(p, init, agent, quietMs);
      assert forall i :: 0 <= i < |init| ==> init[i] == rs[i];
    }
  }

  /** Each record of a batch keeps the timer, cancels it, or arms a fresh one with a new identity. */
  lemma {:induction false} RepliesTimer(p: Slot, rs: seq<LegacyRecord>, agent: Agent, quietMs: nat)
    ensures var q := Replies(p, rs, agent, quietMs);
            q.timer == p.timer || q.timer.None? || p.nextId <= q.timer.value.id < q.nextId
  {
    if rs != [] {
      RepliesTimer(p, rs[..|rs| - 1], agent, quietMs);
    }
  }

  /* ---------------------------------------------------------------- */
  /* Codex: completions are sent at once                              */
  /* ---------------------------------------------------------------- */

  /**
   * A handled `task_complete`: the pending timer is aborted, the completion
   * time (the record's, or now) becomes the reply time, the notice is sent,
   * and only a delivered notice marks the turn and records its turn id.
   */
  function CompleteTurn(p: Slot, ts: Option<int>, turnId: Option<string>, now: int, delivered: bool): (Slot, Notification) {
    var at := ts.GetOr(now);
    var f := p.file.(lastAssistantAt := Some(at));
    var notice := Notification("codex", "Codex 完成", ElapsedBetween(f.lastUserAt, Some(at)), "");
    var f' := if delivered then f.(lastNotifiedAt := Some(at), notifiedForTurn := true, lastNotifiedTurnId := turnId) else f;
    (Slot(f', None, p.nextId), notice)
  }

  /** One Codex record; the notice is present when a completion was handled. */
  function CodexLine(p: Slot, r: LegacyRecord, now: int, delivered: bool): (o: (Slot, Option<Notification>))
    ensures o.1.Some? ==> r.TaskComplete? && (r.turnId.None? || p.file.lastNotifiedTurnId != r.turnId)
    ensures o.0.nextId == p.nextId && o.0.file.position == p.file.position
  {
    match r
    case UserTurn(ts) => (UserStep(p, ts), None)
    case TaskComplete(ts, turnId) =>
      if turnId.Some? && p.file.lastNotifiedTurnId == turnId then (p, None)
      else
        var c := CompleteTurn(p, ts, turnId, now, delivered);
        (c.0, Some(c.1))
    case _ => (p, None)
  }

  /** A batch of Codex records, abandoned after the first handled completion. */
  function CodexLines(p: Slot, rs: seq<LegacyRecord>, now: int, delivered: bool): (r: (Slot, Option<Notification>))
    ensures r.0.nextId == p.nextId && r.0.file.position == p.file.position
    ensures r.0.timer == p.timer || r.0.timer.None?
  {
    if rs == [] then (p, None)
    else
      var r := CodexLines(p, rs[..|rs| - 1], now, delivered);
      if r.1.Some? then r else CodexLine(r.0, rs[|rs| - 1], now, delivered)
  }

  /**
   * A completion is skipped exactly when it carries the turn id last
   * notified; a handled one sends the Codex notice timed from the last
   * user message, and a delivered one records its turn id (possibly none).
   */
  lemma CompletionIff(p: Slot, ts: Option<int>, turnId: Option<string>, now: int, delivered: bool)
    ensures var r := CodexLine(p, TaskComplete(ts, turnId), now, delivered);
            var at := ts.GetOr(now);
            && (r.1.Some? <==> turnId.None? || p.file.lastNotifiedTurnId != turnId)
            && (r.1.None? ==> r.0 == p)
            && (r.1.Some? ==>
                  && r.1.value == Notification("codex", "Codex 完成", ElapsedBetween(p.file.lastUserAt, Some(at)), "")
                  && r.0.timer.None? && r.0.file.lastAssistantAt == Some(at) && r.0.file.lastUserAt == p.file.lastUserAt)
            && (r.1.Some? && delivered ==>
                  r.0.file.notifiedForTurn && r.0.file.lastNotifiedAt == Some(at) && r.0.file.lastNotifiedTurnId == turnId)
            && (r.1.Some? && !delivered ==>
                  r.0.file.notifiedForTurn == p.file.notifiedForTurn && r.0.file.lastNotifiedAt == p.file.lastNotifiedAt
                  && r.0.file.lastNotifiedTurnId == p.file.lastNotifiedTurnId)
  {
  }

  /** Once a completion is handled, the rest of the batch is never looked at. */
  lemma {:induction false} StopsAtFirstCompletion(p: Slot, rs: seq<LegacyRecord>, more: seq<LegacyRecord>, now: int, delivered: bool)
    requires CodexLines(p, rs, now, delivered).1.Some?
    ensures CodexLines(p, rs + more, now, delivered) == CodexLines(p, rs, now, delivered)
  {
    if more != [] {
      var init := more[..|more| - 1];
      StopsAtFirstCompletion(p, rs, init, now, delivered);
      assert (rs + more)[..|rs + more| - 1] == rs + init;
    } else {
      assert rs + more == rs;
    }
  }

  /**
   * A completion with a turn id, once delivered, is not sent again; one
   * without a turn id is sent every time it is seen.
   */
  lemma DeliveredTurnIsNotRepeated(p: Slot, ts: Option<int>, ts2: Option<int>, turnId: Option<string>, now: int, now2: int, d: bool)
    requires CodexLine(p, TaskComplete(ts, turnId), now, true).1.Some?
    ensures var q := CodexLine(p, TaskComplete(ts, turnId), now, true).0;
            CodexLine(q, TaskComplete(ts2, turnId), now2, d).1.Some? <==> turnId.None?
  {
    CompletionIff(p, ts, turnId, now, true);
    var q := CodexLine(p, TaskComplete(ts, turnId), now, true).0;
    CompletionIff(q, ts2, turnId, now2, d);
  }

  /* ---------------------------------------------------------------- */
  /* Files                                                            */
  /* ---------------------------------------------------------------- */

  /** `entry(path).or_insert_with(..)`: the state of a path, created at `initial` when it is new. */
  function Entry(L: LegacyState, path: string, initial: nat): (fs: FileState)
    ensures path in L.states ==> fs == L.states[path]
    ensures path !in L.states ==> fs == Following(initial)
  {
    if path in L.states then L.states[path] else Following(initial)
  }

  /** A path's state and pending timer, ready for a batch. */
  function SlotOf(L: LegacyState, path: string, fs: FileState): Slot {
    Slot(fs, if path in L.timers then Some(L.timers[path]) else None, L.nextId)
  }

  /** Write a path's state and timer back after a batch. */
  function Store(L: LegacyState, path: string, q: Slot): (L': LegacyState)
    ensures L'.states == L.states[path := q.file] && L'.nextId == q.nextId && L'.cleanupCounter == L.cleanupCounter
  {
    L.(states := L.states[path := q.file],
       timers := if q.timer.Some? then L.timers[path := q.timer.value] else L.timers - {path},
       nextId := q.nextId)
  }

  /** `entry(path).or_insert_with(..)` on the shared map: the path is followed from now on. */
  function Opened(L: LegacyState, path: string, initial: nat): (L': LegacyState)
    ensures path in L'.states && L'.states[path] == Entry(L, path, initial)
    ensures L'.timers == L.timers && L'.nextId == L.nextId && L'.cleanupCounter == L.cleanupCounter
  {
    L.(states := L.states[path := Entry(L, path, initial)])
  }

  /** The state of a followed JSONL file after reading a chunk: nothing changes unless it holds text. */
  function ClaudeChunk(L: LegacyState, path: string, chunk: Chunk, cfg: LegacySettings): (L': LegacyState)
    requires path in L.states
    ensures path in L'.states && L'.cleanupCounter == L.cleanupCounter
  {
    if chunk.Failed? || chunk.content == [] then L
    else
      var rs := LineRecords(Lines(chunk.content), ClaudeLog, cfg);
      Store(L, path, Replies(SlotOf(L, path, L.states[path].(position := chunk.position)), rs, ClaudeAgent, cfg.claudeQuietMs))
  }

  /** `process_claude_file`. */
  function ClaudeFile(L: LegacyState, path: string, file: Follower.FileView, cfg: LegacySettings): (L': LegacyState)
    ensures path in L'.states && L'.cleanupCounter == L.cleanupCounter
  {
    var L1 := Opened(L, path, SizeOf(file));
    ClaudeChunk(L1, path, ReadNewContent(file, L1.states[path].position), cfg)
  }

  function CodexChunk(L: LegacyState, path: string, chunk: Chunk, now: int, delivered: bool, cfg: LegacySettings)
    : (r: (LegacyState, Option<Notification>))
    requires path in L.states
    ensures path in r.0.states && r.0.cleanupCounter == L.cleanupCounter
  {
    if chunk.Failed? || chunk.content == [] then (L, None)
    else
      var rs := LineRecords(Lines(chunk.content), CodexLog, cfg);
      var r := CodexLines(SlotOf(L, path, L.states[path].(position := chunk.position)), rs, now, delivered);
      (Store(L, path, r.0), r.1)
  }

  /** `process_codex_file`, with whether the one notice it may send was delivered. */
  function CodexFile(L: LegacyState, path: string, file: Follower.FileView, now: int, delivered: bool, cfg: LegacySettings)
    : (r: (LegacyState, Option<Notification>))
    ensures path in r.0.states && r.0.cleanupCounter == L.cleanupCounter
  {
    var L1 := Opened(L, path, SizeOf(file));
    CodexChunk(L1, path, ReadNewContent(file, L1.states[path].position), now, delivered, cfg)
  }

  /** The `messages` array of a chat file, when the file parses as JSON and has one. */
  function ChatMessages(content: Option<string>, cfg: LegacySettings): Option<seq<Json>> {
    if content.None? then None
    else
      var doc := cfg.parse(content.value);
      if doc.Some? then AsArray(Get(doc.value, "messages")) else None
  }

  /**
   * A followed chat file modified at `mtime`: the position field holds the
   * modification time (milliseconds) it was last read at, and is also taken
   * as the number of messages already processed.
   */
  function GeminiChat(L: LegacyState, path: string, mtime: nat, msgs: Option<seq<Json>>, cfg: LegacySettings): (L': LegacyState)
    requires path in L.states
    ensures path in L'.states && L'.cleanupCounter == L.cleanupCounter
  {
    var fs := L.states[path];
    if mtime <= fs.position || msgs.None? then L
    else if |msgs.value| <= fs.position then L.(states := L.states[path := fs.(position := mtime)])
    else
      var rs := GeminiRecords(msgs.value[fs.position..], cfg.rfc3339);
      Store(L, path, Replies(SlotOf(L, path, fs.(position := mtime)), rs, GeminiAgent, cfg.geminiQuietMs))
  }

  /** `process_gemini_file`: nothing at all when the modification time cannot be read. */
  function GeminiFile(L: LegacyState, path: string, mtime: Option<nat>, content: Option<string>, cfg: LegacySettings)
    : (L': LegacyState)
    ensures L'.cleanupCounter == L.cleanupCounter
  {
    if mtime.None? then L
    else GeminiChat(Opened(L, path, 0), path, mtime.value, ChatMessages(content, cfg), cfg)
  }

  /** A file that is no longer than the read position is not read, even when it shrank: its state is kept as it was. */
  lemma ShrunkFileIsIgnored(L: LegacyState, path: string, file: Follower.FileView, now: int, delivered: bool, cfg: LegacySettings)
    requires path in L.states && file.Present? && |file.bytes| <= L.states[path].position
    ensures ClaudeFile(L, path, file, cfg) == L
    ensures CodexFile(L, path, file, now, delivered, cfg) == (L, None)
  {
    assert L.states[path := L.states[path]] == L.states;
  }

  /**
   * The Gemini position is overwritten by the modification time whenever a
   * newer file parses; from then on, a file with fewer messages than that
   * number of milliseconds never has a message processed again.
   */
  lemma GeminiPositionIsModifiedTime(L: LegacyState, path: string, mtime: Option<nat>, content: Option<string>, cfg: LegacySettings)
    requires mtime.Some? && ChatMessages(content, cfg).Some? && mtime.value > Entry(L, path, 0).position
    ensures GeminiFile(L, path, mtime, content, cfg).states[path].position == mtime.value
  {
  }

  lemma GeminiStallsBelowPosition(L: LegacyState, path: string, mtime: Option<nat>, content: Option<string>, cfg: LegacySettings)
    requires path in L.states
    requires ChatMessages(content, cfg).Some? ==> |ChatMessages(content, cfg).value| <= L.states[path].position
    ensures var L' := GeminiFile(L, path, mtime, content, cfg);
            L'.timers == L.timers && L'.nextId == L.nextId && path in L'.states
            && L'.states[path] == L.states[path].(position := L'.states[path].position)
            && forall p :: p != path ==> (p in L'.states <==> p in L.states) && (p in L.states ==> L'.states[p] == L.states[p])
  {
  }

  /**
   * A chat file seen for the first time is read from its first message, so
   * a history whose last turn event is a reply arms a Gemini timer.
   */
  lemma HistoryArmsTimer(L: LegacyState, path: string, mtime: Option<nat>, content: Option<string>, cfg: LegacySettings)
    requires path !in L.states && mtime.Some? && mtime.value > 0 && ChatMessages(content, cfg).Some?
    requires var e := LastTurnEvent(GeminiRecords(ChatMessages(content, cfg).value, cfg.rfc3339)); e.Some? && e.value.Reply?
    ensures var L' := GeminiFile(L, path, mtime, content, cfg);
            path in L'.timers && L'.timers[path].source == "gemini" && L'.timers[path].delayMs == cfg.geminiQuietMs
            && L'.timers[path].id >= L.nextId
  {
    var msgs := ChatMessages(content, cfg).value;
    var rs := GeminiRecords(msgs, cfg.rfc3339);
    assert msgs[0..] == msgs;
    var p := SlotOf(L, path, Following(0).(position := mtime.value));
    TimerFollowsLastEvent(p, rs, GeminiAgent, cfg.geminiQuietMs);
  }

  /* ---------------------------------------------------------------- */
  /* Timers                                                           */
  /* ---------------------------------------------------------------- */

  /**
   * The body of a timer task once its wait is over: nothing when the turn
   * was already notified or the last reply is the one last notified;
   * otherwise the notice, timed from the turn's start to the last reply,
   * and, when it was delivered, the turn marked as notified.
   */
  function Fire(fs: FileState, t: Timer, delivered: bool): (o: (FileState, Option<Notification>))
    ensures o.1.Some? <==> !fs.notifiedForTurn && fs.lastNotifiedAt != fs.lastAssistantAt
    ensures !delivered || o.1.None? ==> o.0 == fs
    ensures delivered && o.1.Some? ==> o.0.notifiedForTurn && o.0.lastNotifiedAt == fs.lastAssistantAt
  {
    if fs.notifiedForTurn || fs.lastNotifiedAt == fs.lastAssistantAt then (fs, None)
    else
      var notice := Notification(t.source, t.taskInfo, ElapsedBetween(fs.lastUserAt, fs.lastAssistantAt), "");
      (if delivered then fs.(lastNotifiedAt := fs.lastAssistantAt, notifiedForTurn := true) else fs, Some(notice))
  }

  /** The timer `id` of `path` going off: only the pending one runs, and it runs once. */
  function FireTimer(L: LegacyState, path: string, id: nat, delivered: bool): (o: (LegacyState, Option<Notification>))
    ensures o.1.Some? ==> path in L.timers && L.timers[path].id == id && path in L.states
    ensures o.0.nextId == L.nextId && o.0.cleanupCounter == L.cleanupCounter
  {
    if path !in L.timers || L.timers[path].id != id then (L, None)
    else
      var L1 := L.(timers := L.timers - {path});
      if path !in L.states then (L1, None)
      else
        var r := Fire(L.states[path], L.timers[path], delivered);
        (L1.(states := L1.states[path := r.0]), r.1)
  }

  /**
   * A timer sends exactly when it is the pending timer of its path, the
   * path is still followed, the turn is not yet notified and its last reply
   * differs from the one last notified. A delivered notice marks the turn;
   * an undelivered one leaves every file state as it was. The timer is
   * spent either way, and an aborted or replaced one changes nothing.
   */
  lemma FireIff(L: LegacyState, path: string, id: nat, delivered: bool)
    ensures var r := FireTimer(L, path, id, delivered);
            var live := path in L.timers && L.timers[path].id == id;
            && (!live ==> r == (L, None))
            && (live ==> r.0.timers == L.timers - {path} && r.0.nextId == L.nextId && r.0.states.Keys == L.states.Keys)
            && (r.1.Some? <==> live && path in L.states && !L.states[path].notifiedForTurn
                               && L.states[path].lastNotifiedAt != L.states[path].lastAssistantAt)
            && (r.1.Some? ==>
                  r.1.value == Notification(L.timers[path].source, L.timers[path].taskInfo,
                                            ElapsedBetween(L.states[path].lastUserAt, L.states[path].lastAssistantAt), ""))
            && (r.1.Some? && delivered ==>
                  r.0.states == L.states[path := L.states[path].(lastNotifiedAt := L.states[path].lastAssistantAt, notifiedForTurn := true)])
            && (r.1.None? || !delivered ==> r.0.states == L.states)
  {
    if path in L.timers && L.timers[path].id == id && path in L.states {
      assert L.states[path := L.states[path]] == L.states;
    }
  }

  /**
   * After a delivered notice, later replies of the same turn (whose start
   * is known) arm timers that stay quiet: one notice per turn.
   */
  lemma OneNoticePerTurn(fs: FileState, t: Timer, ts: Option<int>, t2: Timer, id: nat, delivered: bool)
    requires Fire(fs, t, true).1.Some? && fs.lastUserAt.Some?
    ensures var marked := Fire(fs, t, true).0;
            var later := ReplyStep(Slot(marked, None, id), ts, t2).file;
            Fire(later, t2, delivered).1.None?
  {
  }

  /**
   * Between two ticks, a path's timer is kept, cancelled, or replaced by one
   * with a fresh identity: a timer once aborted never becomes pending again.
   */
  predicate FreshTimers(L: LegacyState, L': LegacyState) {
    && L.nextId <= L'.nextId
    && forall p :: p in L'.timers ==>
         (p in L.timers && L'.timers[p] == L.timers[p]) || L.nextId <= L'.timers[p].id < L'.nextId
  }

  lemma StoreFreshTimers(L: LegacyState, path: string, p: Slot, q: Slot)
    requires p == SlotOf(L, path, p.file)
    requires p.nextId <= q.nextId
    requires q.timer == p.timer || q.timer.None? || p.nextId <= q.timer.value.id < q.nextId
    ensures FreshTimers(L, Store(L, path, q))
  {
  }

  /* ---------------------------------------------------------------- */
  /* The tick                                                         */
  /* ---------------------------------------------------------------- */

  /** The newest session log of a JSONL source, as found this tick. */
  datatype JsonlView = JsonlView(path: string, file: Follower.FileView)

  /** The newest Gemini chat file: its modification time and text, when they can be read. */
  datatype ChatView = ChatView(path: string, mtime: Option<nat>, content: Option<string>)

  /** `current_files`: the paths found this tick, Claude, Codex, Gemini. */
  function CurrentFiles(claude: Option<JsonlView>, codex: Option<JsonlView>, gemini: Option<ChatView>): (fs: seq<string>)
    ensures forall p :: p in fs <==>
              (claude.Some? && p == claude.value.path) || (codex.Some? && p == codex.value.path)
              || (gemini.Some? && p == gemini.value.path)
  {
    (if claude.Some? then [claude.value.path] else [])
    + (if codex.Some? then [codex.value.path] else [])
    + (if gemini.Some? then [gemini.value.path] else [])
  }

  /** Every 60th tick the states of files not found this tick are dropped. */
  const CleanupEvery: nat := 60

  function CleanedUp(L: LegacyState, current: seq<string>): LegacyState {
    if L.cleanupCounter + 1 >= CleanupEvery then
      L.(cleanupCounter := 0, states := map p | p in L.states && p in current :: L.states[p])
    else L.(cleanupCounter := L.cleanupCounter + 1)
  }

  /**
   * The counter counts ticks modulo 60; on the 60th tick exactly the states
   * of the current files survive, unchanged; timers are never cleaned up.
   */
  lemma CleanupKeepsCurrentFiles(L: LegacyState, current: seq<string>)
    requires L.cleanupCounter < CleanupEvery
    ensures var L' := CleanedUp(L, current);
            && L'.cleanupCounter == (L.cleanupCounter + 1) % CleanupEvery
            && L'.timers == L.timers && L'.nextId == L.nextId
            && (L'.cleanupCounter == 0 ==> forall p :: p in L'.states <==> p in L.states && p in current)
            && (L'.cleanupCounter != 0 ==> L'.states == L.states)
            && forall p :: p in L'.states ==> p in L.states && L'.states[p] == L.states[p]
  {
  }

  /** The work of one tick for one source found. */
  datatype Job = ClaudeJob(claude: JsonlView) | CodexJob(codex: JsonlView) | GeminiJob(gemini: ChatView)

  /** The sources found this tick, in the order they are handled: Claude, Codex, Gemini. */
  function Jobs(claude: Option<JsonlView>, codex: Option<JsonlView>, gemini: Option<ChatView>): (js: seq<Job>)
    ensures |js| <= 3
  {
    (if claude.Some? then [ClaudeJob(claude.value)] else [])
    + (if codex.Some? then [CodexJob(codex.value)] else [])
    + (if gemini.Some? then [GeminiJob(gemini.value)] else [])
  }

  function JobStep(L: LegacyState, job: Job, now: int, delivered: bool, cfg: LegacySettings): (r: (LegacyState, Option<Notification>))
    ensures r.0.cleanupCounter == L.cleanupCounter
    ensures r.1.Some? ==> job.CodexJob?
  {
    match job
    case ClaudeJob(v) => (ClaudeFile(L, v.path, v.file, cfg), None)
    case CodexJob(v) => CodexFile(L, v.path, v.file, now, delivered, cfg)
    case GeminiJob(v) => (GeminiFile(L, v.path, v.mtime, v.content, cfg), None)
  }

  /** The jobs of a tick, in order, with the notice the Codex job sent, if any. */
  function RunJobs(L: LegacyState, js: seq<Job>, now: int, delivered: bool, cfg: LegacySettings): (r: (LegacyState, Option<Notification>))
    ensures r.0.cleanupCounter == L.cleanupCounter
    decreases |js|
  {
    if js == [] then (L, None)
    else
      var first := JobStep(L, js[0], now, delivered, cfg);
      var rest := RunJobs(first.0, js[1..], now, delivered, cfg);
      (rest.0, first.1.Or(rest.1))
  }

  /** One tick: Claude, then Codex, then Gemini, then the periodic cleanup. */
  function Tick(L: LegacyState, claude: Option<JsonlView>, codex: Option<JsonlView>, gemini: Option<ChatView>,
                now: int, delivered: bool, cfg: LegacySettings): (r: (LegacyState, Option<Notification>))
  {
    var r := RunJobs(L, Jobs(claude, codex, gemini), now, delivered, cfg);
    (CleanedUp(r.0, CurrentFiles(claude, codex, gemini)), r.1)
  }

  lemma FreshTimersCompose(L: LegacyState, L1: LegacyState, L2: LegacyState)
    requires FreshTimers(L, L1) && FreshTimers(L1, L2)
    ensures FreshTimers(L, L2)
  {
  }

  lemma ClaudeFileFreshTimers(L: LegacyState, path: string, file: Follower.FileView, cfg: LegacySettings)
    ensures FreshTimers(L, ClaudeFile(L, path, file, cfg))
  {
    var L1 := Opened(L, path, SizeOf(file));
    var chunk := ReadNewContent(file, L1.states[path].position);
    if chunk.Chunk? && chunk.content != [] {
      var rs := LineRecords(Lines(chunk.content), ClaudeLog, cfg);
      var p := SlotOf(L1, path, L1.states[path].(position := chunk.position));
      RepliesTimer(p, rs, ClaudeAgent, cfg.claudeQuietMs);
      StoreFreshTimers(L1, path, p, Replies(p, rs, ClaudeAgent, cfg.claudeQuietMs));
    }
  }

  lemma CodexFileFreshTimers(L: LegacyState, path: string, file: Follower.FileView, now: int, delivered: bool, cfg: LegacySettings)
    ensures FreshTimers(L, CodexFile(L, path, file, now, delivered, cfg).0)
  {
    var L1 := Opened(L, path, SizeOf(file));
    var chunk := ReadNewContent(file, L1.states[path].position);
    if chunk.Chunk? && chunk.content != [] {
      var rs := LineRecords(Lines(chunk.content), CodexLog, cfg);
      var p := SlotOf(L1, path, L1.states[path].(position := chunk.position));
      StoreFreshTimers(L1, path, p, CodexLines(p, rs, now, delivered).0);
    }
  }

  lemma GeminiFileFreshTimers(L: LegacyState, path: string, mtime: Option<nat>, content: Option<string>, cfg: LegacySettings)
    ensures FreshTimers(L, GeminiFile(L, path, mtime, content, cfg))
  {
    if mtime.Some? {
      var L1 := Opened(L, path, 0);
      var fs := L1.states[path];
      var msgs := ChatMessages(content, cfg);
      if mtime.value > fs.position && msgs.Some? && |msgs.value| > fs.position {
        var rs := GeminiRecords(msgs.value[fs.position..], cfg.rfc3339);
        var p := SlotOf(L1, path, fs.(position := mtime.value));
        RepliesTimer(p, rs, GeminiAgent, cfg.geminiQuietMs);
        StoreFreshTimers(L1, path, p, Replies(p, rs, GeminiAgent, cfg.geminiQuietMs));
      }
    }
  }

  lemma JobFreshTimers(L: LegacyState, job: Job, now: int, delivered: bool, cfg: LegacySettings)
    ensures FreshTimers(L, JobStep(L, job, now, delivered, cfg).0)
  {
    match job
    case ClaudeJob(v) => ClaudeFileFreshTimers(L, v.path, v.file, cfg);
    case CodexJob(v) => CodexFileFreshTimers(L, v.path, v.file, now, delivered, cfg);
    case GeminiJob(v) => GeminiFileFreshTimers(L, v.path, v.mtime, v.content, cfg);
  }

  lemma {:induction false} RunJobsFreshTimers(L: LegacyState, js: seq<Job>, now: int, delivered: bool, cfg: LegacySettings)
    ensures FreshTimers(L, RunJobs(L, js, now, delivered, cfg).0)
    decreases |js|
  {
    if js != [] {
      var first := JobStep(L, js[0], now, delivered, cfg);
      JobFreshTimers(L, js[0], now, delivered, cfg);
      RunJobsFreshTimers(first.0, js[1..], now, delivered, cfg);
      FreshTimersCompose(L, first.0, RunJobs(L, js, now, delivered, cfg).0);
    }
  }

  /**
   * A tick keeps, cancels or freshly re-arms each path's timer, so the
   * identities of pending timers stay below the next one handed out and a
   * timer aborted at one tick cannot be the pending one at a later tick.
   */
  lemma TickFreshTimers(L: LegacyState, claude: Option<JsonlView>, codex: Option<JsonlView>, gemini: Option<ChatView>,
                        now: int, delivered: bool, cfg: LegacySettings)
    requires TimersBelowNext(L)
    ensures var L' := Tick(L, claude, codex, gemini, now, delivered, cfg).0;
            FreshTimers(L, L') && TimersBelowNext(L')
  {
    RunJobsFreshTimers(L, Jobs(claude, codex, gemini), now, delivered, cfg);
  }

  /** The tick counter only moves through the cleanup, by one modulo 60. */
  lemma TickCountsModulo(L: LegacyState, claude: Option<JsonlView>, codex: Option<JsonlView>, gemini: Option<ChatView>,
                         now: int, delivered: bool, cfg: LegacySettings)
    requires L.cleanupCounter < CleanupEvery
    ensures Tick(L, claude, codex, gemini, now, delivered, cfg).0.cleanupCounter == (L.cleanupCounter + 1) % CleanupEvery
  {
  }

  lemma {:induction false} RunJobsSnoc(L: LegacyState, js: seq<Job>, job: Job, now: int, delivered: bool, cfg: LegacySettings)
    ensures var before := RunJobs(L, js, now, delivered, cfg);
            var last := JobStep(before.0, job, now, delivered, cfg);
            RunJobs(L, js + [job], now, delivered, cfg) == (last.0, before.1.Or(last.1))
    decreases |js|
  {
    if js == [] {
      assert [job][1..] == [];
    } else {
      var first := JobStep(L, js[0], now, delivered, cfg);
      assert (js + [job])[1..] == js[1..] + [job];
      RunJobsSnoc(first.0, js[1..], job, now, delivered, cfg);
    }
  }

  /* ---------------------------------------------------------------- */
  /* The watch task                                                   */
  /* ---------------------------------------------------------------- */

  /** A batch of Claude or Gemini records, one record after the other. */
  method RunReplies(p: Slot, rs: seq<LegacyRecord>, agent: Agent, quietMs: nat) returns (q: Slot)
    ensures q == Replies(p, rs, agent, quietMs)
  {
    q := p;
    for i := 0 to |rs|
      invariant q == Replies(p, rs[..i], agent, quietMs)
    {
      assert rs[..i + 1][..i] == rs[..i];
      q := ReplyLine(q, rs[i], agent, quietMs);
    }
    assert rs[..|rs|] == rs;
  }

  /** A batch of Codex records, left at the first completion handled. */
  method RunCodexLines(p: Slot, rs: seq<LegacyRecord>, now: int, delivered: bool) returns (q: Slot, sent: Option<Notification>)
    ensures (q, sent) == CodexLines(p, rs, now, delivered)
  {
    q, sent := p, None;
    var i := 0;
    while i < |rs| && sent.None?
      invariant 0 <= i <= |rs|
      invariant (q, sent) == CodexLines(p, rs[..i], now, delivered)
    {
      assert rs[..i + 1][..i] == rs[..i];
      var r := CodexLine(q, rs[i], now, delivered);
      q, sent := r.0, r.1;
      i := i + 1;
    }
    if i < |rs| {
      StopsAtFirstCompletion(p, rs[..i], rs[i..], now, delivered);
      assert rs[..i] + rs[i..] == rs;
    } else {
      assert rs[..i] == rs;
    }
  }

  /** The watch task of the legacy build: the file states and pending timers it shares with its timer tasks. */
  class LegacyWatcher {
    const settings: LegacySettings
    var states: map<string, FileState>
    var timers: map<string, Timer>
    var nextId: nat
    var cleanupCounter: nat

    function State(): LegacyState
      reads this
    {
      LegacyState(states, timers, nextId, cleanupCounter)
    }

    /** `start_watch`: nothing followed yet, and the quiet periods raised to the minimum. */
    constructor(claudeQuietMs: int, geminiQuietMs: int, rfc3339: string -> Option<int>, parse: string -> Option<Json>)
      ensures State() == Initial && TimersBelowNext(State())
      ensures settings == LegacySettings(LegacyQuiet(claudeQuietMs), LegacyQuiet(geminiQuietMs), rfc3339, parse)
    {
      settings := LegacySettings(LegacyQuiet(claudeQuietMs), LegacyQuiet(geminiQuietMs), rfc3339, parse);
      states, timers, nextId, cleanupCounter := map[], map[], 0, 0;
    }

    /** Write back a path's state and timer after a batch. */
    method Adopt(path: string, q: Slot)
      modifies this
      ensures State() == Store(old(State()), path, q)
    {
      states := states[path := q.file];
      if q.timer.Some? {
        timers := timers[path := q.timer.value];
      } else {
        timers := timers - {path};
      }
      nextId := q.nextId;
    }

    /** Start following `path` unless it already is. */
    method Open(path: string, initial: nat)
      modifies this
      ensures State() == Opened(old(State()), path, initial)
    {
      if path !in states {
        states := states[path := Following(initial)];
      }
    }

    method ProcessClaudeChunk(path: string, chunk: Chunk)
      requires path in states
      modifies this
      ensures State() == ClaudeChunk(old(State()), path, chunk, settings)
    {
      if chunk.Failed? || chunk.content == [] {
        return;
      }
      var rs := LineRecords(Lines(chunk.content), ClaudeLog, settings);
      var q := RunReplies(SlotOf(State(), path, states[path].(position := chunk.position)), rs, ClaudeAgent, settings.claudeQuietMs);
      Adopt(path, q);
    }

    method ProcessClaudeFile(path: string, file: Follower.FileView)
      modifies this
      ensures State() == ClaudeFile(old(State()), path, file, settings)
    {
      Open(path, SizeOf(file));
      var chunk := ReadNewContent(file, states[path].position);
      ProcessClaudeChunk(path, chunk);
    }

    method ProcessCodexChunk(path: string, chunk: Chunk, now: int, delivered: bool) returns (sent: Option<Notification>)
      requires path in states
      modifies this
      ensures (State(), sent) == CodexChunk(old(State()), path, chunk, now, delivered, settings)
    {
      if chunk.Failed? || chunk.content == [] {
        return None;
      }
      var rs := LineRecords(Lines(chunk.content), CodexLog, settings);
      var q;
      q, sent := RunCodexLines(SlotOf(State(), path, states[path].(position := chunk.position)), rs, now, delivered);
      Adopt(path, q);
    }

    method ProcessCodexFile(path: string, file: Follower.FileView, now: int, delivered: bool) returns (sent: Option<Notification>)
      modifies this
      ensures (State(), sent) == CodexFile(old(State()), path, file, now, delivered, settings)
    {
      Open(path, SizeOf(file));
      var chunk := ReadNewContent(file, states[path].position);
      sent := ProcessCodexChunk(path, chunk, now, delivered);
    }

    method ProcessGeminiChat(path: string, mtime: nat, msgs: Option<seq<Json>>)
      requires path in states
      modifies this
      ensures State() == GeminiChat(old(State()), path, mtime, msgs, settings)
    {
      var fs := states[path];
      if mtime <= fs.position || msgs.None? {
        return;
      }
      if |msgs.value| <= fs.position {
        states := states[path := fs.(position := mtime)];
        return;
      }
      var rs := GeminiRecords(msgs.value[fs.position..], settings.rfc3339);
      var q := RunReplies(SlotOf(State(), path, fs.(position := mtime)), rs, GeminiAgent, settings.geminiQuietMs);
      Adopt(path, q);
    }

    method ProcessGeminiFile(path: string, mtime: Option<nat>, content: Option<string>)
      modifies this
      ensures State() == GeminiFile(old(State()), path, mtime, content, settings)
    {
      if mtime.None? {
        return;
      }
      Open(path, 0);
      ProcessGeminiChat(path, mtime.value, ChatMessages(content, settings));
    }

    /** The timer `id` of `path` going off, with whether its notice was delivered. */
    method OnTimer(path: string, id: nat, delivered: bool) returns (sent: Option<Notification>)
      modifies this
      ensures (State(), sent) == FireTimer(old(State()), path, id, delivered)
    {
      if path !in timers || timers[path].id != id {
        return None;
      }
      var t := timers[path];
      timers := timers - {path};
      if path !in states {
        return None;
      }
      var r := Fire(states[path], t, delivered);
      states := states[path := r.0];
      sent := r.1;
    }

    method Cleanup(current: seq<string>)
      modifies this
      ensures State() == CleanedUp(old(State()), current)
    {
      cleanupCounter := cleanupCounter + 1;
      if cleanupCounter >= CleanupEvery {
        cleanupCounter := 0;
        states := map p | p in states && p in current :: states[p];
      }
    }

    /** One tick of the watch loop, with the newest file of each source found. */
    method OnTick(claude: Option<JsonlView>, codex: Option<JsonlView>, gemini: Option<ChatView>, now: int, delivered: bool)
      returns (sent: Option<Notification>)
      modifies this
      ensures (State(), sent) == Tick(old(State()), claude, codex, gemini, now, delivered, settings)
    {
      ghost var start := State();
      ghost var done: seq<Job> := [];
      sent := None;
      if claude.Some? {
        ProcessClaudeFile(claude.value.path, claude.value.file);
        RunJobsSnoc(start, done, ClaudeJob(claude.value), now, delivered, settings);
        done := done + [ClaudeJob(claude.value)];
      }
      assert (State(), sent) == RunJobs(start, done, now, delivered, settings);
      if codex.Some? {
        sent := ProcessCodexFile(codex.value.path, codex.value.file, now, delivered);
        RunJobsSnoc(start, done, CodexJob(codex.value), now, delivered, settings);
        done := done + [CodexJob(codex.value)];
      }
      assert (State(), sent) == RunJobs(start, done, now, delivered, settings);
      if gemini.Some? {
        ProcessGeminiFile(gemini.value.path, gemini.value.mtime, gemini.value.content);
        RunJobsSnoc(start, done, GeminiJob(gemini.value), now, delivered, settings);
        done := done + [GeminiJob(gemini.value)];
      }
      assert done == Jobs(claude, codex, gemini);
      Cleanup(CurrentFiles(claude, codex, gemini));
    }
  }
}
