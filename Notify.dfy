/**
 * The notification dispatcher of the shipping backend (`notify.rs`): the
 * gates each channel applies to the configuration before it sends, the
 * texts it would send, and the envelope of the three channel results.
 *
 * Delivery itself (the Telegram HTTP request, the Windows toast, the sound
 * or speech process) is outside the model: what it returned is a
 * `Delivery` parameter, and the target platform is a `Platform` parameter.
 */
module Notify {
  import opened Base
  import opened Text

  /* ---------------------------------------------------------------- */
  /* Configuration (the fields the dispatcher reads)                  */
  /* ---------------------------------------------------------------- */

  datatype SourceChannels = SourceChannels(telegram: bool, sound: bool, desktop: bool)
  datatype SourceConfig = SourceConfig(enabled: bool, minDurationMinutes: int, channels: SourceChannels)
  datatype SourcesConfig = SourcesConfig(claude: SourceConfig, codex: SourceConfig, gemini: SourceConfig)

  datatype TelegramConfig = TelegramConfig(enabled: bool, botToken: string, chatId: string)
  datatype SoundConfig = SoundConfig(enabled: bool, tts: bool, useCustom: bool, customPath: string)
  datatype DesktopConfig = DesktopConfig(enabled: bool, balloonMs: int)
  datatype ChannelsConfig = ChannelsConfig(telegram: TelegramConfig, sound: SoundConfig, desktop: DesktopConfig)

  datatype AppConfig = AppConfig(channels: ChannelsConfig, sources: SourcesConfig)

  /* ---------------------------------------------------------------- */
  /* Results                                                          */
  /* ---------------------------------------------------------------- */

  /** What a delivery attempt returned: success, or the error text of the failure. */
  datatype Delivery = Delivered | Refused(error: string)

  datatype Platform = Windows | MacOs | Linux | OtherPlatform

  /** One element of `results`: the channel, whether it succeeded, and the error text when it did not. */
  datatype ChannelResult = ChannelResult(channel: string, ok: bool, error: Option<string>)

  /**
   * What a channel hands to its delivery service: a chat message, a titled
   * toast, or the title given to `notify_sound` (which plays a custom sound,
   * reads the title aloud, or does nothing, as its sound settings say).
   */
  datatype Payload = Message(text: string) | Toast(title: string, text: string) | SoundRequest(title: string)

  /** A channel's result and what it handed to the delivery service, if it got that far. */
  datatype Dispatch = Dispatch(result: ChannelResult, sent: Option<Payload>)

  /** The value `send_notifications` returns. */
  datatype Envelope = Envelope(skipped: bool, reason: Option<string>, results: seq<ChannelResult>)

  const DisabledError: string := "disabled"
  const SourceDisabledError: string := "source disabled"
  const MissingCredentialsError: string := "missing credentials"
  const UnsupportedError: string := "not supported on this platform"

  function Failure(channel: string, error: string): ChannelResult {
    ChannelResult(channel, false, Some(error))
  }

  function Outcome(channel: string, d: Delivery): (r: ChannelResult)
    ensures r.channel == channel && (r.ok <==> d.Delivered?)
  {
    if d.Delivered? then ChannelResult(channel, true, None) else Failure(channel, d.error)
  }

  /** The per-source settings of a source name: the agent's own, and Claude's for any other name. */
  function SourceFor<C>(claude: C, codex: C, gemini: C, source: string): (c: C)
    ensures source == "codex" ==> c == codex
    ensures source == "gemini" ==> c == gemini
    ensures source != "codex" && source != "gemini" ==> c == claude
  {
    if source == "claude" then claude
    else if source == "codex" then codex
    else if source == "gemini" then gemini
    else claude
  }

  function SourceConfigFor(sources: SourcesConfig, source: string): SourceConfig {
    SourceFor(sources.claude, sources.codex, sources.gemini, source)
  }

  /* ---------------------------------------------------------------- */
  /* Durations                                                        */
  /* ---------------------------------------------------------------- */

  /** Rust's `/` on `i64` by a positive divisor: the quotient truncated toward zero. */
  function TruncDiv(a: int, b: int): (q: int)
    requires b > 0
    ensures a >= 0 ==> q == a / b
    ensures a < 0 ==> q <= 0
  {
    if a >= 0 then a / b else -((-a) / b)
  }

  /** Rust's `%` on `i64` by a positive divisor: the remainder has the sign of `a`. */
  function TruncRem(a: int, b: int): (r: int)
    requires b > 0
    ensures a == TruncDiv(a, b) * b + r
    ensures a >= 0 ==> 0 <= r < b
    ensures a < 0 ==> -b < r <= 0
  {
    a - TruncDiv(a, b) * b
  }

  /** The minutes and the seconds of a duration in milliseconds, each truncated. */
  function DurationParts(ms: int): (p: (int, int)) {
    (TruncDiv(ms, 60000), TruncDiv(TruncRem(ms, 60000), 1000))
  }

  /** "{m}分{s}秒" when the minutes are positive, "{s}秒" otherwise. */
  function DurationText(ms: int): (t: string)
    ensures |t| >= 2 && t[|t| - 1] == '秒'
  {
    var p := DurationParts(ms);
    if p.0 > 0 then IntToString(p.0) + "分" + IntToString(p.1) + "秒" else IntToString(p.1) + "秒"
  }

  /**
   * For a duration that is not negative, the text shows the whole minutes
   * and the whole seconds past them: the duration rounded down to the
   * second, with the minutes left out when there are none.
   */
  lemma DurationTextShowsWholeSeconds(ms: int)
    requires ms >= 0
    ensures var p := DurationParts(ms);
            && p.0 >= 0 && 0 <= p.1 < 60
            && p.0 * 60000 + p.1 * 1000 <= ms < p.0 * 60000 + p.1 * 1000 + 1000
            && (ms < 60000 <==> p.0 == 0)
            && DurationText(ms) == (if ms < 60000 then NatToString(p.1) else NatToString(p.0) + "分" + NatToString(p.1)) + "秒"
  {
  }

  lemma MarkAt(a: string, c: char, x: string)
    ensures (a + [c] + x)[|a|] == c
  {
  }

  /** Two digit strings each followed by the same non-digit mark agree when the whole texts agree. */
  lemma {:induction false} DigitsBeforeMark(a: string, x: string, b: string, y: string, c: char)
    requires AllDigits(a) && AllDigits(b) && !IsDigit(c)
    requires a + [c] + x == b + [c] + y
    ensures a == b && x == y
  {
    var t := a + [c] + x;
    MarkAt(a, c, x);
    MarkAt(b, c, y);
    if |a| < |b| {
      assert false;
    } else if |b| < |a| {
      assert false;
    }
    assert a == t[..|a|] == b;
    assert x == t[|a| + 1..] == y;
  }

  /** "{s}秒" gives back its seconds. */
  lemma SecondsTextDetermines(s1: nat, s2: nat)
    requires NatToString(s1) + "秒" == NatToString(s2) + "秒"
    ensures s1 == s2
  {
    assert NatToString(s1) + ['秒'] + "" == NatToString(s2) + ['秒'] + "";
    DigitsBeforeMark(NatToString(s1), "", NatToString(s2), "", '秒');
    NatToStringRoundTrip(s1);
    NatToStringRoundTrip(s2);
  }

  lemma Regroup(a: string, b: string)
    ensures a + "分" + b + "秒" == a + ['分'] + (b + "秒")
  {
  }

  /** "{m}分{s}秒" gives back its minutes and its seconds. */
  lemma MinutesTextDetermines(m1: nat, s1: nat, m2: nat, s2: nat)
    requires NatToString(m1) + "分" + NatToString(s1) + "秒" == NatToString(m2) + "分" + NatToString(s2) + "秒"
    ensures m1 == m2 && s1 == s2
  {
    var a1, b1, a2, b2 := NatToString(m1), NatToString(s1), NatToString(m2), NatToString(s2);
    Regroup(a1, b1);
    Regroup(a2, b2);
    DigitsBeforeMark(a1, b1 + "秒", a2, b2 + "秒", '分');
    NatToStringRoundTrip(m1);
    NatToStringRoundTrip(m2);
    SecondsTextDetermines(s1, s2);
  }

  /** Seconds alone never read like minutes and seconds. */
  lemma SecondsTextIsNotMinutesText(s1: nat, m2: nat, s2: nat)
    ensures NatToString(s1) + "秒" != NatToString(m2) + "分" + NatToString(s2) + "秒"
  {
    var t := NatToString(m2) + "分" + NatToString(s2) + "秒";
    assert t[|NatToString(m2)|] == '分';
    assert !IsDigit('分');
    if NatToString(s1) + "秒" == t {
      assert false;
    }
  }

  /** The whole seconds of a duration that is not negative, from its minutes and seconds. */
  lemma WholeSeconds(ms: int)
    requires ms >= 0
    ensures ms / 1000 == DurationParts(ms).0 * 60 + DurationParts(ms).1
  {
    DurationTextShowsWholeSeconds(ms);
    var k := DurationParts(ms).0 * 60 + DurationParts(ms).1;
    assert k * 1000 <= ms < k * 1000 + 1000;
  }

  /** Durations with the same whole seconds are shown alike. */
  lemma SameSecondsSameText(a: int, b: int)
    requires a >= 0 && b >= 0 && a / 1000 == b / 1000
    ensures DurationText(a) == DurationText(b)
  {
    WholeSeconds(a);
    WholeSeconds(b);
    DurationTextShowsWholeSeconds(a);
    DurationTextShowsWholeSeconds(b);
    var pa, pb := DurationParts(a), DurationParts(b);
    assert pa.0 * 60 + pa.1 == pb.0 * 60 + pb.1;
    assert pa == pb;
  }

  /** Durations shown alike have the same whole seconds. */
  lemma SameTextSameSeconds(a: int, b: int)
    requires a >= 0 && b >= 0 && DurationText(a) == DurationText(b)
    ensures a / 1000 == b / 1000
  {
    WholeSeconds(a);
    WholeSeconds(b);
    DurationTextShowsWholeSeconds(a);
    DurationTextShowsWholeSeconds(b);
    var pa, pb := DurationParts(a), DurationParts(b);
    if a < 60000 && b < 60000 {
      SecondsTextDetermines(pa.1, pb.1);
    } else if a >= 60000 && b >= 60000 {
      MinutesTextDetermines(pa.0, pa.1, pb.0, pb.1);
    } else if a < 60000 {
      SecondsTextIsNotMinutesText(pa.1, pb.0, pb.1);
    } else {
      SecondsTextIsNotMinutesText(pb.1, pa.0, pa.1);
    }
  }

  /**
   * Two durations that are not negative read the same exactly when they
   * have the same whole number of seconds: the text loses only the
   * milliseconds.
   */
  lemma DurationTextIdentifiesSeconds(a: int, b: int)
    requires a >= 0 && b >= 0
    ensures DurationText(a) == DurationText(b) <==> a / 1000 == b / 1000
  {
    if DurationText(a) == DurationText(b) {
      SameTextSameSeconds(a, b);
    } else if a / 1000 == b / 1000 {
      SameSecondsSameText(a, b);
    }
  }

  /** A negative duration never shows minutes, and its seconds are not positive. */
  lemma NegativeDurationShowsSecondsOnly(ms: int)
    requires ms < 0
    ensures DurationParts(ms).0 <= 0 && -60 < DurationParts(ms).1 <= 0
    ensures DurationText(ms) == IntToString(DurationParts(ms).1) + "秒"
  {
  }

  /* ---------------------------------------------------------------- */
  /* Channels                                                         */
  /* ---------------------------------------------------------------- */

  /** The Telegram text: its `task_info` line, then the duration on a line of its own when there is one. */
  function TelegramMessage(taskInfo: string, durationMs: Option<int>): (m: string)
    ensures |taskInfo| <= |m| && m[..|taskInfo|] == taskInfo
    ensures durationMs.None? <==> m == taskInfo
    ensures durationMs.Some? ==> m[|taskInfo|..] == "\n耗时: " + DurationText(durationMs.value)
  {
    if durationMs.Some? then taskInfo + "\n耗时: " + DurationText(durationMs.value) else taskInfo
  }

  /** `send_telegram`: the gates in order, then the HTTP outcome. */
  function SendTelegram(config: AppConfig, source: string, taskInfo: string, durationMs: Option<int>, outcome: Delivery)
    : (d: Dispatch)
    ensures d.result.channel == "telegram"
    ensures d.sent.None? ==> !d.result.ok
    ensures d.sent.Some? ==> d.sent.value.Message? && (d.result.ok <==> outcome.Delivered?)
  {
    var telegram := config.channels.telegram;
    var sc := SourceConfigFor(config.sources, source);
    if !telegram.enabled then Dispatch(Failure("telegram", DisabledError), None)
    else if !sc.enabled || !sc.channels.telegram then Dispatch(Failure("telegram", SourceDisabledError), None)
    else if telegram.botToken == "" || telegram.chatId == "" then Dispatch(Failure("telegram", MissingCredentialsError), None)
    else Dispatch(Outcome("telegram", outcome), Some(Message(TelegramMessage(taskInfo, durationMs))))
  }

  /** The toast body: the duration prefixed by "耗时: ", or "任务完成" without one. */
  function ToastText(durationMs: Option<int>): string {
    if durationMs.Some? then "耗时: " + DurationText(durationMs.value) else "任务完成"
  }

  /** `send_desktop`: the gates in order; a toast (titled by its `task_info` line) only on Windows. */
  function SendDesktop(config: AppConfig, source: string, taskInfo: string, durationMs: Option<int>,
                       platform: Platform, outcome: Delivery): (d: Dispatch)
    ensures d.result.channel == "desktop"
    ensures d.sent.None? ==> !d.result.ok
    ensures d.sent.Some? ==> platform == Windows && d.sent.value == Toast(taskInfo, ToastText(durationMs))
                             && (d.result.ok <==> outcome.Delivered?)
  {
    var sc := SourceConfigFor(config.sources, source);
    if !config.channels.desktop.enabled then Dispatch(Failure("desktop", DisabledError), None)
    else if !sc.enabled || !sc.channels.desktop then Dispatch(Failure("desktop", SourceDisabledError), None)
    else if platform != Windows then Dispatch(Failure("desktop", UnsupportedError), None)
    else Dispatch(Outcome("desktop", outcome), Some(Toast(taskInfo, ToastText(durationMs))))
  }

  /** `send_sound`: only the global switch is consulted; `task_info` is handed to `notify_sound`, whose outcome is the result. */
  function SendSound(config: AppConfig, taskInfo: string, outcome: Delivery): (d: Dispatch)
    ensures d.result.channel == "sound"
    ensures d.sent.None? <==> !config.channels.sound.enabled
    ensures d.sent.Some? ==> d.sent.value == SoundRequest(taskInfo) && (d.result.ok <==> outcome.Delivered?)
  {
    if !config.channels.sound.enabled then Dispatch(Failure("sound", DisabledError), None)
    else Dispatch(Outcome("sound", outcome), Some(SoundRequest(taskInfo)))
  }

  /** What each delivery service returned, per channel. */
  datatype Outcomes = Outcomes(telegram: Delivery, desktop: Delivery, sound: Delivery)

  /**
   * `send_notifications`: an error when the configuration cannot be loaded,
   * otherwise the three channel results, never skipped.
   */
  function SendNotifications(config: Option<AppConfig>, source: string, taskInfo: string, durationMs: Option<int>,
                             cwd: string, force: bool, platform: Platform, outcomes: Outcomes): (e: Option<Envelope>)
    ensures e.Some? <==> config.Some?
    ensures e.Some? ==> !e.value.skipped && |e.value.results| == 3
                        && (e.value.results[0].ok ==> SendTelegram(config.value, source, taskInfo, durationMs, outcomes.telegram).sent.Some?)
                        && (e.value.results[1].ok ==> platform == Windows)
                        && (e.value.results[2].ok <==> config.value.channels.sound.enabled && outcomes.sound.Delivered?)
  {
    if config.None? then None
    else
      var c := config.value;
      Some(Envelope(false, None, [
        SendTelegram(c, source, taskInfo, durationMs, outcomes.telegram).result,
        SendDesktop(c, source, taskInfo, durationMs, platform, outcomes.desktop).result,
        SendSound(c, taskInfo, outcomes.sound).result]))
  }

  /* ---------------------------------------------------------------- */
  /* Properties                                                       */
  /* ---------------------------------------------------------------- */

  /**
   * The envelope exists exactly when the configuration loads; it is never
   * skipped and lists telegram, desktop and sound, in that order; the
   * working directory and the force flag make no difference.
   */
  lemma EnvelopeShape(config: Option<AppConfig>, source: string, taskInfo: string, durationMs: Option<int>,
                      cwd: string, force: bool, cwd2: string, force2: bool, platform: Platform, outcomes: Outcomes)
    ensures var e := SendNotifications(config, source, taskInfo, durationMs, cwd, force, platform, outcomes);
            && (e.Some? <==> config.Some?)
            && (e.Some? ==> !e.value.skipped && e.value.reason.None? && |e.value.results| == 3
                            && e.value.results[0].channel == "telegram" && e.value.results[1].channel == "desktop"
                            && e.value.results[2].channel == "sound")
            && e == SendNotifications(config, source, taskInfo, durationMs, cwd2, force2, platform, outcomes)
  {
  }

  /**
   * Telegram succeeds exactly when the channel is on, the source and its
   * Telegram switch are on, both credentials are present and the request
   * succeeded; each failed gate gives its own error and sends nothing, the
   * global switch being checked first.
   */
  lemma TelegramGates(config: AppConfig, source: string, taskInfo: string, durationMs: Option<int>, outcome: Delivery)
    ensures var d := SendTelegram(config, source, taskInfo, durationMs, outcome);
            var sc := SourceConfigFor(config.sources, source);
            var t := config.channels.telegram;
            var open := t.enabled && sc.enabled && sc.channels.telegram && t.botToken != "" && t.chatId != "";
            && d.result.channel == "telegram"
            && (d.result.ok <==> open && outcome.Delivered?)
            && (d.sent.Some? <==> open)
            && (open ==> d.sent == Some(Message(TelegramMessage(taskInfo, durationMs))))
            && (!t.enabled ==> d.result.error == Some(DisabledError))
            && (t.enabled && (!sc.enabled || !sc.channels.telegram) ==> d.result.error == Some(SourceDisabledError))
            && (t.enabled && sc.enabled && sc.channels.telegram && (t.botToken == "" || t.chatId == "") ==>
                  d.result.error == Some(MissingCredentialsError))
  {
  }

  /** The desktop channel: its gates, and a toast only on Windows. */
  lemma DesktopGates(config: AppConfig, source: string, taskInfo: string, durationMs: Option<int>,
                     platform: Platform, outcome: Delivery)
    ensures var d := SendDesktop(config, source, taskInfo, durationMs, platform, outcome);
            var sc := SourceConfigFor(config.sources, source);
            var open := config.channels.desktop.enabled && sc.enabled && sc.channels.desktop;
            && d.result.channel == "desktop"
            && (d.result.ok <==> open && platform == Windows && outcome.Delivered?)
            && (d.sent.Some? <==> open && platform == Windows)
            && (d.sent.Some? ==> d.sent.value == Toast(taskInfo, ToastText(durationMs)))
            && (!config.channels.desktop.enabled ==> d.result.error == Some(DisabledError))
            && (config.channels.desktop.enabled && (!sc.enabled || !sc.channels.desktop) ==> d.result.error == Some(SourceDisabledError))
            && (open && platform != Windows ==> d.result.error == Some(UnsupportedError))
  {
  }

  /**
   * The sound channel consults only its global switch: neither the source's
   * settings nor its per-source sound switch change its result.
   */
  lemma SoundIgnoresSourceSettings(config: AppConfig, sources: SourcesConfig, taskInfo: string, outcome: Delivery)
    ensures SendSound(config, taskInfo, outcome) == SendSound(config.(sources := sources), taskInfo, outcome)
    ensures SendSound(config, taskInfo, outcome).result.ok <==> config.channels.sound.enabled && outcome.Delivered?
  {
  }

  /** A source name other than the three agents is treated as Claude by every channel. */
  lemma UnknownSourceIsClaude(config: AppConfig, source: string, taskInfo: string, durationMs: Option<int>,
                              platform: Platform, outcomes: Outcomes)
    requires source != "claude" && source != "codex" && source != "gemini"
    ensures SendTelegram(config, source, taskInfo, durationMs, outcomes.telegram)
            == SendTelegram(config, "claude", taskInfo, durationMs, outcomes.telegram)
    ensures SendDesktop(config, source, taskInfo, durationMs, platform, outcomes.desktop)
            == SendDesktop(config, "claude", taskInfo, durationMs, platform, outcomes.desktop)
  {
  }
}
