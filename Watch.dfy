/**
 * What the three watchers of the shipping backend share: the arguments of a
 * call to the notification dispatcher, the inputs every record is processed
 * with (the wall clock and the process's working directory), the settings a
 * watcher is started with, and the rules for quiet periods and durations.
 */
module Watch {
  import opened Base
  import opened Json

  /** The arguments of one `send_notifications` call: which agent, its `task_info` line, the elapsed time and the directory. */
  datatype Notification = Notification(source: string, taskInfo: string, durationMs: Option<int>, cwd: string)

  /** The inputs a record is processed with that do not come from the record: `Utc::now()` and `current_dir()`. */
  datatype Context = Context(now: int, currentDir: string)

  /**
   * What a watcher is started with: whether the confirm detector is on, its
   * quiet period, and the parsers outside the model (the float and RFC 3339
   * timestamp readings, and JSON parsing of a line or a file).
   */
  datatype Settings = Settings(
    confirmEnabled: bool,
    quietMs: nat,
    textTime: string -> Option<int>,
    parse: string -> Option<Json>)

  /** The `task_info` of a confirm reminder. */
  const ConfirmTaskInfo: string := "确认提醒"

  /** `send_confirm_notification`: a reminder without a duration, from the working directory of the process. */
  function ConfirmNotice(source: string, cx: Context): (n: Notification)
    ensures n.source == source && n.taskInfo == ConfirmTaskInfo
    ensures n.durationMs.None? && n.cwd == cx.currentDir
  {
    Notification(source, ConfirmTaskInfo, None, cx.currentDir)
  }

  /** The shortest quiet period a watcher accepts. */
  const MinQuietMs: nat := 500

  /** `max(500, configured)`: the configured quiet period, raised to the minimum. */
  function QuietMs(configured: nat): (q: nat)
    ensures q >= MinQuietMs
    ensures q == configured || (q == MinQuietMs && configured < MinQuietMs)
  {
    if configured < MinQuietMs then MinQuietMs else configured
  }

  /** The time from `start` to `end`, reported only when it is not negative. */
  function Elapsed(start: int, end: int): (d: Option<int>)
    ensures d.Some? <==> start <= end
    ensures d.Some? ==> d.value >= 0 && start + d.value == end
  {
    if end >= start then Some(end - start) else None
  }

  /** The same, when either end may be unknown. */
  function ElapsedBetween(start: Option<int>, end: Option<int>): (d: Option<int>)
    ensures d.Some? <==> start.Some? && end.Some? && start.value <= end.value
    ensures d.Some? ==> d == Elapsed(start.value, end.value)
  {
    if start.Some? && end.Some? then Elapsed(start.value, end.value) else None
  }
}
