/**
 * The notification dispatcher of the earlier command-line build
 * (`src/src/notify.rs`): a desktop toast only, behind the same gates as the
 * shipping desktop channel, titled by the upper-cased agent name.
 */
module LegacyNotify {
  import opened Base
  import opened Text
  import opened Watch
  import Notify
  import LegacyWatch

  /* ---------------------------------------------------------------- */
  /* Configuration (the fields the dispatcher reads)                  */
  /* ---------------------------------------------------------------- */

  datatype SourceConfig = SourceConfig(enabled: bool, minDurationMinutes: int, desktop: bool)
  datatype SourcesConfig = SourcesConfig(claude: SourceConfig, codex: SourceConfig, gemini: SourceConfig)
  datatype AppConfig = AppConfig(desktopEnabled: bool, sources: SourcesConfig)

  /** The toast that would be shown. */
  datatype Toast = Toast(title: string, text: string)

  /** The desktop result and the toast handed to Windows, if it got that far. */
  datatype Dispatch = Dispatch(result: Notify.ChannelResult, toast: Option<Toast>)

  const TitleSuffix: string := " 任务完成"
  const DurationSeparator: string := " · 耗时 "

  /** "CLAUDE 任务完成" and the like: the source name in capitals. */
  function ToastTitle(source: string): (t: string)
    ensures |t| == |source| + |TitleSuffix| && t[|source|..] == TitleSuffix
    ensures forall i :: 0 <= i < |source| ==> t[i] == UpperChar(source[i])
  {
    AsciiUpper(source) + TitleSuffix
  }

  /** The `task_info` text, followed by the duration when there is one. */
  function ToastText(taskInfo: string, durationMs: Option<int>): (t: string)
    ensures |taskInfo| <= |t| && t[..|taskInfo|] == taskInfo
    ensures durationMs.None? <==> t == taskInfo
    ensures durationMs.Some? ==> t[|taskInfo|..] == DurationSeparator + Notify.DurationText(durationMs.value)
  {
    if durationMs.Some? then
      var rest := DurationSeparator + Notify.DurationText(durationMs.value);
      assert |rest| > 0;
      assert (taskInfo + rest)[..|taskInfo|] == taskInfo && (taskInfo + rest)[|taskInfo|..] == rest;
      taskInfo + rest
    else taskInfo
  }

  /** `send_desktop`: the global switch, the source's switches, then a toast on Windows only. */
  function SendDesktop(config: AppConfig, source: string, taskInfo: string, durationMs: Option<int>,
                       platform: Notify.Platform, outcome: Notify.Delivery): (d: Dispatch)
    ensures d.result.channel == "desktop"
    ensures d.toast.None? ==> !d.result.ok
    ensures d.toast.Some? ==> platform == Notify.Windows && d.toast.value.title == ToastTitle(source)
                              && (d.result.ok <==> outcome.Delivered?)
  {
    var sc := Notify.SourceFor(config.sources.claude, config.sources.codex, config.sources.gemini, source);
    if !config.desktopEnabled then Dispatch(Notify.Failure("desktop", Notify.DisabledError), None)
    else if !sc.enabled || !sc.desktop then Dispatch(Notify.Failure("desktop", Notify.SourceDisabledError), None)
    else if platform != Notify.Windows then Dispatch(Notify.Failure("desktop", Notify.UnsupportedError), None)
    else Dispatch(Notify.Outcome("desktop", outcome), Some(Toast(ToastTitle(source), ToastText(taskInfo, durationMs))))
  }

  /** `send_notifications`: an error when the configuration cannot be loaded, otherwise the one desktop result. */
  function SendNotifications(config: Option<AppConfig>, source: string, taskInfo: string, durationMs: Option<int>,
                             cwd: string, force: bool, platform: Notify.Platform, outcome: Notify.Delivery)
    : (e: Option<Notify.Envelope>)
    ensures e.Some? <==> config.Some?
    ensures e.Some? ==> !e.value.skipped && |e.value.results| == 1 && e.value.results[0].channel == "desktop"
  {
    if config.None? then None
    else Some(Notify.Envelope(false, None, [SendDesktop(config.value, source, taskInfo, durationMs, platform, outcome).result]))
  }

  /* ---------------------------------------------------------------- */
  /* Properties                                                       */
  /* ---------------------------------------------------------------- */

  /**
   * The envelope exists exactly when the configuration loads, is never
   * skipped and holds the desktop result alone; the working directory and
   * the force flag make no difference.
   */
  lemma EnvelopeShape(config: Option<AppConfig>, source: string, taskInfo: string, durationMs: Option<int>,
                      cwd: string, force: bool, cwd2: string, force2: bool, platform: Notify.Platform, outcome: Notify.Delivery)
    ensures var e := SendNotifications(config, source, taskInfo, durationMs, cwd, force, platform, outcome);
            && (e.Some? <==> config.Some?)
            && (e.Some? ==> !e.value.skipped && e.value.reason.None? && |e.value.results| == 1
                            && e.value.results[0].channel == "desktop")
            && e == SendNotifications(config, source, taskInfo, durationMs, cwd2, force2, platform, outcome)
  {
  }

  /**
   * The toast is shown exactly when the channel, the source and its desktop
   * switch are on and the build targets Windows; each failed gate gives its
   * own error, the global switch first; an unknown source counts as Claude.
   */
  lemma DesktopGates(config: AppConfig, source: string, taskInfo: string, durationMs: Option<int>,
                     platform: Notify.Platform, outcome: Notify.Delivery)
    ensures var d := SendDesktop(config, source, taskInfo, durationMs, platform, outcome);
            var sc := Notify.SourceFor(config.sources.claude, config.sources.codex, config.sources.gemini, source);
            var open := config.desktopEnabled && sc.enabled && sc.desktop;
            && d.result.channel == "desktop"
            && (d.result.ok <==> open && platform == Notify.Windows && outcome.Delivered?)
            && (d.toast.Some? <==> open && platform == Notify.Windows)
            && (d.toast.Some? ==> d.toast.value == Toast(ToastTitle(source), ToastText(taskInfo, durationMs)))
            && (!config.desktopEnabled ==> d.result.error == Some(Notify.DisabledError))
            && (config.desktopEnabled && (!sc.enabled || !sc.desktop) ==> d.result.error == Some(Notify.SourceDisabledError))
            && (open && platform != Notify.Windows ==> d.result.error == Some(Notify.UnsupportedError))
            && (source != "codex" && source != "gemini" ==> sc == config.sources.claude)
  {
  }

  /**
   * The legacy timers count a notice as delivered whenever the
   * configuration loads: a turn is marked as notified even when its toast
   * was refused by a disabled desktop channel.
   */
  lemma RefusedToastStillMarksTurn(L: LegacyWatch.LegacyState, path: string, id: nat, config: AppConfig,
                                   cwd: string, force: bool, platform: Notify.Platform, outcome: Notify.Delivery)
    requires LegacyWatch.FireTimer(L, path, id, true).1.Some? && !config.desktopEnabled
    ensures var n := LegacyWatch.FireTimer(L, path, id, true).1.value;
            var e := SendNotifications(Some(config), n.source, n.taskInfo, n.durationMs, cwd, force, platform, outcome);
            var fired := LegacyWatch.FireTimer(L, path, id, e.Some?).0;
            && e.Some? && !e.value.results[0].ok
            && path in fired.states && fired.states[path].notifiedForTurn
  {
    LegacyWatch.FireIff(L, path, id, true);
  }
}
