# Aitify turn-completion detector, in Dafny

Aitify watches the local session logs written by three AI coding-assistant
command-line tools: Claude (JSON lines), Codex (JSON lines, many sessions at
once) and Gemini (one JSON chat file per session). From those logs it infers
when an assistant turn has finished, or stopped to ask the user for
confirmation, and sends one notification per turn. This project models that
detector and the notification dispatcher behind it. It covers both trees of
the repository: the shipping desktop build (`src-tauri/src/watch.rs`,
`src-tauri/src/notify.rs`) and the earlier command-line build
(`src/src/watch.rs`, `src/src/notify.rs`).

Modules, leaf first:

- `Base`: `Option` and a sequence helper.
- `Json`: a JSON value and the accessors the watchers use (`get`, `as_str`, `as_i64`, `as_bool`, `as_array`).
- `Text`: splitting into lines, trimming, joining, ASCII case mapping, UTF-8 byte lengths, and decimal rendering and parsing.
- `Decode`: `parse_timestamp`, text extraction from message content and `summarize_result`.
- `Selection`: choosing the newest log file, or the newest few.
- `Sources`: `normalize_sources`, the agent selection read from the command line, and its deduplication.
- `Confirm`: the confirmation detector, `truncate_text`, `normalize_confirm_text` and the turn-end question heuristic.
- `Follower`: the `JsonlFollower` class. It holds a byte position and a carried partial line, and is attached to and polled on a file.
- `Watch`: what the three shipping watchers share.
  - Notifications.
  - The per-record context: the clock reading and the working directory.
  - Settings.
  - Durations and the quiet-period floor.
- `ClaudeWatch`, `CodexWatch`, `GeminiWatch`: the three shipping per-source turn state machines. Each one has:
  - A step function over a state value. This is the specification.
  - A class whose fields are the source's state and whose methods are proved to follow the step function.
  - Lemmas about turns, timers and notifications.
- `LegacyWatch`: the earlier build's watch task.
  - A per-path state map and a per-path pending-timer map.
  - One tick over the three sources.
  - The 60-tick cleanup.
  - A class `LegacyWatcher` holding that state.
- `Locking`: records handed to a callback that locks the watcher's state, with the lock free or already held.
- `Notify`, `LegacyNotify`: the channel gates, the message and duration texts, and the result envelopes of the two dispatchers.

Timers are explicit. Arming a timer is an effect (or a pending-timer entry),
and a timer going off is a separate step that is given the state at that
moment. The model works only with values that are passed in:

- The wall clock (`Context.now`).
- The working directory.
- The JSON parser (`parse`).
- The RFC 3339 and floating-point timestamp readings (`textTime`, `rfc3339`).
- The platform.
- What each delivery service reports (`Delivery`).

## Model

| member | source | states |
|---|---|---|
| Json.Get | src-tauri/src/watch.rs:279-280 | a member is found exactly when the value is an object holding the key, and it is a smaller value than the object |
| Json.AsI64 | src-tauri/src/watch.rs:237 | an integer is read exactly when the number is an integer literal inside the signed 64-bit range |
| Watch.ConfirmNotice | src-tauri/src/watch.rs:620-647 | a confirm reminder carries the agent's name, "确认提醒" as its `task_info`, no duration and the process's working directory |
| Watch.QuietMs | src-tauri/src/watch.rs:689 | the quiet period is at least 500 ms, and is the configured one unless that is below 500 |
| Watch.Elapsed | src-tauri/src/watch.rs:912-916 | a duration is reported exactly when the end is not before the start, and then it is the non-negative difference |
| Watch.ElapsedBetween | src-tauri/src/watch.rs:1656 | a duration is reported exactly when both ends are known and ordered, and then equals `Elapsed` of the two |
| Text.TrimStart | src-tauri/src/watch.rs:245 | the result is a suffix of the text, does not start with whitespace, and only whitespace was removed |
| Text.TrimEnd | src-tauri/src/watch.rs:245 | the result is a prefix of the text, does not end with whitespace, and only whitespace was removed |
| Text.Trim | src-tauri/src/watch.rs:245 | the result is a slice of the text with only whitespace on either side, has no whitespace at either end, and is empty exactly when the text is blank |
| Text.TrimOfUnpadded | src-tauri/src/watch.rs:245 | text without whitespace at either end is its own trimming |
| Text.TrimPadded | src-tauri/src/watch.rs:245 | trimming removes exactly the blank padding around an unpadded text |
| Text.Split | src-tauri/src/watch.rs:164 | a split has at least one piece and no piece holds the separator |
| Text.SplitJoin | src-tauri/src/watch.rs:164 | joining the pieces of a split with the separator gives back the text |
| Text.JoinSplit | src-tauri/src/watch.rs:164 | splitting a join of separator-free pieces gives back the pieces |
| Text.SplitConcat | src-tauri/src/watch.rs:164 | splitting text glued at a separator gives the pieces of each side |
| Text.Lines | src/src/watch.rs:161 | `lines()` gives the line-feed pieces in order, each terminated one without its trailing carriage return; an unterminated last piece is kept as it is, and a text ending in a line feed gives no empty last line |
| Text.LinesOfTerminated | src/src/watch.rs:161 | lines that each end in a line feed and hold no carriage return at their end read back as exactly those lines |
| Text.LinesOfPieces | src/src/watch.rs:161 | a text whose line-feed pieces end in an empty piece reads as the pieces before it |
| Text.ContainsMeansOccurs | src-tauri/src/watch.rs:367 | `contains` holds exactly when the pattern occurs at some position of the text |
| Text.AnyContainedMeansOccurs | src-tauri/src/watch.rs:366-378 | some keyword is contained exactly when some keyword occurs at some position |
| Text.AsciiLower | src-tauri/src/watch.rs:363 | lower-casing keeps the length and lowers each ASCII letter in place |
| Text.AsciiUpper | src/src/notify.rs:72 | upper-casing keeps the length and raises each ASCII letter in place |
| Text.Utf8Len | src-tauri/src/watch.rs:390 | the byte length of a text is at least its number of characters |
| Text.Utf8LenAscii | src-tauri/src/watch.rs:390 | ASCII text has as many bytes as characters |
| Text.Utf8LenAppend | src-tauri/src/watch.rs:390 | the byte length of a concatenation is the sum of the byte lengths |
| Text.Utf8LenPrefixMonotone | src-tauri/src/watch.rs:394 | a longer prefix has strictly more bytes |
| Text.NatToString | src-tauri/src/notify.rs:60 | the decimal rendering of a number is a non-empty digit string |
| Text.NatToStringRoundTrip | src-tauri/src/notify.rs:60 | reading the rendering back gives the number |
| Text.ParseInt64 | src-tauri/src/watch.rs:251 | a parsed integer lies in the signed 64-bit range and its text starts with a digit or a sign |
| Text.IntToStringIsTrimmed | src-tauri/src/watch.rs:245-251 | the rendering of an integer is non-empty and trimming leaves it unchanged |
| Text.IntToStringRoundTrip | src-tauri/src/watch.rs:251 | parsing the rendering of any 64-bit integer gives that integer |
| Decode.ToMillis | src-tauri/src/watch.rs:238-242 | values below 10^12 are seconds and are multiplied by 1000; larger ones are kept |
| Decode.ParseTimestamp | src-tauri/src/watch.rs:235-275 | a value that is neither a number nor a string gives nothing; a number gives a reading exactly when it is a 64-bit integer, scaled by 1000 below 10^12 and kept otherwise |
| Decode.TextTimestamp | src-tauri/src/watch.rs:244-271 | a blank string gives nothing; a trimmed decimal 64-bit integer is read as that integer normalised to milliseconds; any other text goes to the float and RFC 3339 readings |
| Decode.TimestampOf | src-tauri/src/watch.rs:805 | a record has a time only when its `timestamp` member exists and is a number or a string |
| Decode.StringTimestamp | src-tauri/src/watch.rs:244 | a string is read by the string branch |
| Decode.IntegerTimestamp | src-tauri/src/watch.rs:237-243 | a 64-bit integer is read as its millisecond normalisation |
| Decode.ReadsTrimmedInteger | src-tauri/src/watch.rs:250-257 | an unpadded decimal integer string is read as that integer, normalised |
| Decode.TimestampStringAgreesWithNumber | src-tauri/src/watch.rs:237-257 | the decimal string of an integer reads exactly as the integer itself |
| Decode.ToMillisIdempotentIff | src-tauri/src/watch.rs:238-242 | normalising twice equals normalising once exactly when the value is 0 or at least 10^9 |
| Decode.TimestampExamples | src-tauri/src/watch.rs:1781-1790 | 1700000000 reads as 1700000000000, and 1700000000000 is kept |
| Decode.HasContentType | src-tauri/src/watch.rs:278-291 | true exactly when `content` is an array with some item whose `type` is the expected string |
| Decode.AnyHasType | src-tauri/src/watch.rs:283-288 | true exactly when some item's `type` is the expected string |
| Decode.NonEmpty | src-tauri/src/watch.rs:299 | keeps only non-empty strings of the input, keeps a list without empty strings as it is, and is empty exactly when every input string is |
| Decode.NonEmptyAppend | src-tauri/src/watch.rs:299 | filtering two lists joined is filtering each and joining, so the order of the kept strings is the input order |
| Decode.ExtractNeverInvents | src-tauri/src/watch.rs:294-322 | every character extracted is a line feed or occurs in some string inside the value |
| Decode.FieldScanNeverInvents | src-tauri/src/watch.rs:303-316 | every character the object scan returns occurs in some string inside the object or is a line feed |
| Decode.ExtractArrayEmptyIff | src-tauri/src/watch.rs:296-301 | an array extracts to "" exactly when every element does |
| Decode.ExtractTextFromAny | src-tauri/src/watch.rs:294-322 | no contract of its own; `ExtractArray`, `ExtractArrayConcat` and `ExtractSingleton` state what an array gives, `FieldScanPicksFirst` and `FieldScanNoneQualifies` what an object gives, and `ExtractNeverInvents` that nothing is invented |
| Decode.ExtractArray | src-tauri/src/watch.rs:296-301 | an array extracts to its elements' non-empty extractions, in element order, joined with line feeds |
| Decode.ExtractSingleton | src-tauri/src/watch.rs:296-301 | an array of one element extracts to what the element extracts to |
| Decode.ExtractArrayConcat | src-tauri/src/watch.rs:296-301 | the extraction of two arrays joined is the first array's text, a line feed, then the second's; when one part extracts to "" it is the other part's text alone |
| Decode.FieldScanNoneQualifies | src-tauri/src/watch.rs:303-317 | the object scan gives "" when no listed member is a string or an array with non-empty text |
| Decode.FieldScanPicksFirst | src-tauri/src/watch.rs:303-316 | the object scan gives the text of the first listed member (in the order `text`, `content`, `message`, `value`, `data`) that is a string or an array with non-empty text, skipping the members before it |
| Decode.MessageTextPrefersContent | src-tauri/src/watch.rs:325-343 | a `content` string wins over a `text` member in the message extractor, while the general extractor picks `text` |
| Decode.MessageTextExamples | src-tauri/src/watch.rs:1803-1815 | the plain content string and the one-block content array both read as their text |
| Decode.ExtractMessageText | src-tauri/src/watch.rs:325-343 | no contract of its own; `MessageTextPrefersContent` and `MessageTextExamples` state its choice of member |
| Decode.CountOk | src-tauri/src/watch.rs:581-589 | the successful count is at most the number of results, equals it exactly when every result has `ok` true, and is 0 exactly when none has |
| Decode.CountOkAppend | src-tauri/src/watch.rs:581-589 | the successful count of two result lists joined is the sum of their counts |
| Decode.OkAndTotal | src-tauri/src/watch.rs:575-589 | the successful count never exceeds the total |
| Decode.SlashPairSplits | src-tauri/src/watch.rs:591 | two digit strings joined by "/" split back into the two |
| Decode.SummaryReadsBack | src-tauri/src/watch.rs:564-592 | a summary of a result that was not skipped starts with "sent: " and reads back as the successful and total counts |
| Decode.SentLineParts | src-tauri/src/watch.rs:591 | the "sent: " line of two digit strings starts with "sent: " and the rest splits at "/" into the two |
| Decode.SummarizeResult | src-tauri/src/watch.rs:564-592 | no contract of its own; `SummaryReadsBack` states what a summary that was not skipped reads back as |
| Text.ParsesUnsigned | src-tauri/src/watch.rs:251 | a non-empty digit string whose value fits in a signed 64-bit integer parses to that value |
| Text.ParsesNegative | src-tauri/src/watch.rs:251 | a minus sign followed by digits whose value is at most 2^63 parses to the negated value |
| ClaudeWatch.CompletionDelay | src-tauri/src/watch.rs:927-931 | the wait before a completion is the quiet period after a tool call, otherwise the quiet period capped at 15000 ms; it never exceeds the quiet period and never falls below 500 ms when the quiet period does not |
| ClaudeWatch.TextBlocks | src-tauri/src/watch.rs:849-853 | at most one text per content item, and a text is kept exactly when some item of type "text" carries it as its `text` string |
| ClaudeWatch.TextBlocksAppend | src-tauri/src/watch.rs:849-853 | the text blocks of two item lists joined are those of the first followed by those of the second |
| ClaudeWatch.Observe | src-tauri/src/watch.rs:797-803 | a record is considered exactly when it is an object that is not marked as a side chain |
| ClaudeWatch.ReadRecord | src-tauri/src/watch.rs:805-860 | no contract of its own; the reading of a record (type, time, directory, message text, prompt flag, tool use, reply content) is stated through `CompletionScheduledIff`, `ConfirmIff` and `PromptMeansKeyword` |
| ClaudeWatch.UserStep | src-tauri/src/watch.rs:816-832 | a user record stores its text and clears the reply text, content, tool flag and confirm flag; a live one starts the turn at its time or now and clears the notified flag; a seed one without a time keeps the turn start |
| ClaudeWatch.AssistantStep | src-tauri/src/watch.rs:833-870 | a seed reply sends nothing; every reply records its time, or now, as the reply time and leaves the turn start alone |
| ClaudeWatch.Decide | src-tauri/src/watch.rs:869-948 | sending anything needs the confirm flag off and sets it; a scheduled completion needs a started turn not yet notified and marks it notified; sending nothing changes nothing |
| ClaudeWatch.DecideAsWritten | src-tauri/src/watch.rs:873-880 | with the written truncation the decision stops (the slice panics) exactly when the detector is on, no reminder was sent in the turn and the written detection aborts; otherwise it is the corrected decision |
| ClaudeWatch.KeywordPastCutStopsWatcher | src-tauri/src/watch.rs:873-880 | a reply whose text is "a", 200 '是' and a '否' stops the watcher as written, where the corrected detector sends a reminder |
| ClaudeWatch.PromptMeansKeyword | src-tauri/src/watch.rs:358-380 | a reply counts as a prompt exactly when a Chinese keyword occurs in its text or an English keyword occurs in its lower-cased text |
| ClaudeWatch.Replay | src-tauri/src/watch.rs:766-775 | processing a run of records gives one effect per record |
| ClaudeWatch.ReplayIsFold | src-tauri/src/watch.rs:766-775 | the state after a run of records is the fold of the one-record step over them |
| ClaudeWatch.RecordsUnderHeldLock | src-tauri/src/watch.rs:711-775 | with the tick's state lock held, delivering a poll's records blocks exactly when one of them is considered (an object not on a side chain); with the lock free the result is the replay's state |
| ClaudeWatch.LinesOf | src-tauri/src/watch.rs:745-754 | each follower record becomes one event, in order, carrying its reading and its seed mark |
| ClaudeWatch.ClaudeWatcher.constructor | src-tauri/src/watch.rs:684-689 | the watcher starts from the fresh state with the quiet period raised to 500 ms |
| ClaudeWatch.ClaudeWatcher.ProcessObject | src-tauri/src/watch.rs:789-951 | the new state and the effect are those of the step function on the record's reading |
| ClaudeWatch.ClaudeWatcher.ProcessReading | src-tauri/src/watch.rs:810-950 | the new state and the effect are those of the step function on a reading |
| ClaudeWatch.ClaudeWatcher.ResetTurn | src-tauri/src/watch.rs:817-822 | a user record stores its text and clears the reply text, content, tool flag, confirm key and confirm flag |
| ClaudeWatch.ClaudeWatcher.StartClock | src-tauri/src/watch.rs:825-831 | a live user record starts the turn at its time or now; a seed one only when it has a time; either clears the notified flag |
| ClaudeWatch.ClaudeWatcher.RememberReply | src-tauri/src/watch.rs:834-867 | a reply records its text when non-empty, its tool flag, its content when not blank, and its time |
| ClaudeWatch.ClaudeWatcher.DecideReply | src-tauri/src/watch.rs:869-948 | after the seed check the state and effect are those of the reply decision: a confirm reminder, a scheduled completion, or nothing |
| ClaudeWatch.ClaudeWatcher.SwitchFile | src-tauri/src/watch.rs:725-736 | a newly newest file resets the file, the turn times, the notified and confirm flags and the remembered texts |
| ClaudeWatch.ClaudeWatcher.ForgetTimes | src-tauri/src/watch.rs:726-730 | the file becomes the new one and the three times and the notified flag are cleared, nothing else |
| ClaudeWatch.ClaudeWatcher.ConfirmSent | src-tauri/src/watch.rs:889-891 | once a reminder has been sent the confirm flag is cleared and nothing else changes |
| ClaudeWatch.ClaudeWatcher.ProcessRecords | src-tauri/src/watch.rs:766-775 | the records of one poll leave the state and effects of replaying their events in order |
| ClaudeWatch.WatchTick | src-tauri/src/watch.rs:711-776 | one tick leaves watcher, follower and effects as the tick function says: attach on a new newest file, poll otherwise |
| ClaudeWatch.Tick | src-tauri/src/watch.rs:711-776 | no contract of its own; `ClaudeWatcher.WatchTick` is proved to follow it and `SwitchingFilesIsQuiet` and `SeedReplayIsQuiet` state what it sends |
| ClaudeWatch.CompletionScheduledIff | src-tauri/src/watch.rs:869-948 | a completion is scheduled exactly for a live reply in a started turn that is neither notified nor confirm-flagged and is not a detected prompt; it then sets both flags, waits the adaptive delay, and reports "Claude 完成", the duration from the user record and the record's or last directory |
| ClaudeWatch.SeedIsQuiet | src-tauri/src/watch.rs:869-871 | a seed record never sends anything |
| ClaudeWatch.ConfirmIff | src-tauri/src/watch.rs:873-899 | a confirm reminder is sent exactly for a live reply, with the detector on, no reminder yet in the turn, and a prompt in its text |
| ClaudeWatch.NotifiedIsSticky | src-tauri/src/watch.rs:903-909 | outside user records the notified flag stays set and then no completion is scheduled |
| ClaudeWatch.OneCompletionPerTurn | src-tauri/src/watch.rs:903-909 | within one turn at most one completion is scheduled, none once the turn was notified |
| ClaudeWatch.SeedReplayIsQuiet | src-tauri/src/watch.rs:745-754 | replaying the seed records of a newly attached file sends nothing |
| ClaudeWatch.SwitchingFilesIsQuiet | src-tauri/src/watch.rs:725-757 | switching to a new newest file records it, attaches the follower when the file exists, and sends nothing |
| ClaudeWatch.ReplayKeepsFile | src-tauri/src/watch.rs:789-951 | processing records never changes the followed file |
| ClaudeWatch.ApplyKeepsFile | src-tauri/src/watch.rs:789-951 | one record never changes the followed file |
| ClaudeWatch.ConfirmThenCompletion | src-tauri/src/watch.rs:888-891 | a reply while a reminder is pending schedules nothing, and the same reply after the reminder task cleared the flag schedules the completion |
| Confirm.CharsWithin | src-tauri/src/watch.rs:394 | the chosen prefix fits the byte budget and one more character would not |
| Confirm.TruncateText | src-tauri/src/watch.rs:389-396 | text within the budget is kept; longer text becomes its longest prefix that fits the budget less 3 bytes, followed by "..." |
| Confirm.TruncateTextFits | src-tauri/src/watch.rs:389-396 | for a budget of at least 3 the truncated text never exceeds the budget |
| Confirm.TruncateAsciiIsExact | src-tauri/src/watch.rs:389-396 | on ASCII text both readings cut at exactly `max_len - 3` characters and agree |
| Confirm.TruncateAsWrittenPanicsIff | src-tauri/src/watch.rs:389-396 | the byte slice fails exactly when the text is too long and no character boundary lies at `max_len - 3` bytes; otherwise it agrees with the corrected truncation |
| Confirm.LatinThenCjkPrefixBytes | src-tauri/src/watch.rs:394 | in "a" followed by CJK characters every prefix of j characters takes 1 + 3(j - 1) bytes |
| Confirm.TruncateAsWrittenPanics | src-tauri/src/watch.rs:389-396 | "a" followed by 200 CJK characters (601 bytes) makes the slice at 597 bytes fall inside a character |
| Confirm.TruncateTextAsWritten | src-tauri/src/watch.rs:389-396 | no contract of its own; `TruncateAsWrittenPanicsIff` and `TruncateAsciiIsExact` state when it fails and what it gives otherwise |
| Confirm.TruncatedAsWritten | src-tauri/src/watch.rs:389-396 | the written truncation to the prompt budget aborts exactly when its byte slice fails, and otherwise gives the corrected truncation |
| Confirm.Detect | src-tauri/src/watch.rs:358-380 | a prompt is found exactly when the detector is on and a Chinese keyword occurs in the text or an English one in the lower-cased text; it is then the text truncated to 600 bytes |
| Confirm.DetectExamples | src-tauri/src/watch.rs:1818-1833 | "是否继续？" is detected when enabled and not when disabled; "Please confirm" is detected |
| Confirm.DetectAsWritten | src-tauri/src/watch.rs:358-380 | the written detector finds nothing exactly when the corrected one finds nothing, a prompt it finds is the corrected one's, and it aborts exactly when the corrected one finds a prompt in text over 600 bytes with no character boundary at byte 597 |
| Confirm.KeywordPastCutAborts | src-tauri/src/watch.rs:358-396 | "a", 200 '是' and a '否' (604 bytes) holds the keyword "是否", so it is a prompt, and the written detector aborts on it |
| Confirm.TailLines | src-tauri/src/watch.rs:1033 | the tail holds six lines, or all of them when there are fewer |
| Confirm.TailLinesAreLastLines | src-tauri/src/watch.rs:1033 | the tail lists the last lines from the end backwards |
| Confirm.TailText | src-tauri/src/watch.rs:1032-1034 | no contract of its own; `TailLines`, `TailLinesAreLastLines` and `OneLineTail` state what the tail holds |
| Confirm.LastLine | src-tauri/src/watch.rs:1043 | no contract of its own; `OneLineTail` states it for a single line |
| Confirm.DetectTurnEndConfirmPrompt | src-tauri/src/watch.rs:1030-1056 | a turn-end prompt is found exactly when a cue occurs in the lower-cased tail, or the trimmed last line ends with a question mark and an action word occurs in the lower-cased text; it is then the tail truncated to 600 bytes |
| Confirm.DetectTurnEndConfirmPromptAsWritten | src-tauri/src/watch.rs:1030-1056 | with the corrected truncation, a prompt is found exactly when a cue occurs in the lower-cased tail, or the trimmed last line ends with the ASCII '?' and an action word occurs in the lower-cased text; it is then the tail truncated to 600 bytes |
| Confirm.TurnEndAsWritten | src-tauri/src/watch.rs:1030-1056 | with the written truncation as well: nothing exactly when the written test finds nothing, the same prompt when the slice succeeds, and an abort exactly when the written test finds a prompt whose tail cannot be sliced at byte 597 |
| Confirm.QuestionMarkTestsDiffer | src-tauri/src/watch.rs:1046 | the intended test accepts all the written test does, and more exactly when the line ends with the full-width '？' |
| Confirm.OneLineTail | src-tauri/src/watch.rs:1032-1044 | an unpadded single line is its own last line and its own tail |
| Confirm.NoCueIn | src-tauri/src/watch.rs:954-984 | a text made of 开, 始, 吗 and ？ contains no turn-end cue |
| Confirm.FullWidthQuestionOutcome | src-tauri/src/watch.rs:1044-1053 | a one-line question ending in '？' with an action word and no cue is missed as written and found as intended |
| Confirm.FullWidthQuestionExample | src-tauri/src/watch.rs:1044-1053 | "开始吗？" is missed as written and found as intended |
| Confirm.FirstWord | src-tauri/src/watch.rs:399 | the first word is a whitespace-free prefix ended by whitespace or the end, and non-empty when the text starts with a non-blank |
| Confirm.Words | src-tauri/src/watch.rs:399 | `split_whitespace` gives non-empty pieces without whitespace; `SpacedWords` and `WordsOfSpaced` state that these are exactly the maximal runs of non-whitespace, in order |
| Confirm.WordsSkipBlank | src-tauri/src/watch.rs:399 | leading whitespace makes no difference to the words |
| Confirm.WordsAroundGap | src-tauri/src/watch.rs:399 | a word followed by any non-empty run of whitespace and more text splits into that word and the words of the text |
| Confirm.WordsOfSpaced | src-tauri/src/watch.rs:399 | words laid out between whitespace gaps of any width, with the gaps between two words non-empty, split back into exactly those words |
| Confirm.Gaps | src-tauri/src/watch.rs:399 | there is at least one gap: the leading whitespace, then the whitespace after each word |
| Confirm.SpacedWords | src-tauri/src/watch.rs:399 | every text is its words laid out between whitespace gaps whose inner ones are non-empty |
| Confirm.WordsOfJoin | src-tauri/src/watch.rs:399 | splitting a single-space join of words gives back the words |
| Confirm.NormalizeIdempotent | src-tauri/src/watch.rs:398-400 | normalising a normalised text changes nothing |
| Confirm.NormalizeConfirmText | src-tauri/src/watch.rs:398-400 | no contract of its own; `NormalizeSpaced` with `SpacedWords` states that it replaces every run of whitespace between words by one space and drops the leading and trailing runs; `NormalizeIdempotent` states that it is idempotent |
| Confirm.NormalizeSpaced | src-tauri/src/watch.rs:398-400 | words laid out between any whitespace gaps normalise to those words joined by single spaces |
| Selection.FirstNewestUnique | src-tauri/src/watch.rs:497 | at most one candidate is the first of the newest |
| Selection.LatestFile | src-tauri/src/watch.rs:460-508 | no file is chosen exactly when there is no candidate; otherwise the chosen one is the first candidate with the greatest modification time |
| Selection.Insert | src-tauri/src/watch.rs:555 | inserting adds exactly the one candidate |
| Selection.SortNewestFirst | src-tauri/src/watch.rs:555 | sorting keeps the number of candidates; `SortIsOrderedPermutation` and `SortIsStable` state that it is newest first, a permutation, and stable |
| Selection.InsertKeepsOrder | src-tauri/src/watch.rs:555 | insertion keeps the newest-first order, and the new head is the candidate when it is at least as new as the old head |
| Selection.SortIsOrderedPermutation | src-tauri/src/watch.rs:555 | the sort is newest first and a permutation of the candidates |
| Selection.InsertWithTime | src-tauri/src/watch.rs:555 | among the entries of any one time, insertion puts the new candidate first and keeps the others in their order |
| Selection.SortIsStable | src-tauri/src/watch.rs:555 | for every modification time, the candidates with that time come out of the sort in their input order, as the stable `sort_by` keeps them |
| Selection.NewestStaysFirst | src-tauri/src/watch.rs:497 | an earlier candidate at least as new as the newest of the rest is chosen |
| Selection.NewerLaterWins | src-tauri/src/watch.rs:497 | a strictly newer later candidate replaces an earlier one |
| Selection.SortedHeadIsFirstNewest | src-tauri/src/watch.rs:555 | the head of the sort is the candidate the single-file search chooses |
| Selection.LatestFiles | src-tauri/src/watch.rs:511-561 | the result holds `limit` paths, or all of them when there are fewer candidates, and its i-th path is that of the i-th candidate of the newest-first sort |
| Selection.LatestFilesAreNewest | src-tauri/src/watch.rs:511-561 | the kept candidates are drawn from the candidates, are ordered newest first, and each is at least as new as every candidate left out |
| Selection.PrefixOfNewestFirst | src-tauri/src/watch.rs:555-556 | a prefix of a newest-first list is part of it, is newest first, and is at least as new as the rest |
| Selection.LatestFilesKeepsNewest | src-tauri/src/watch.rs:555-556 | the kept paths are ordered newest first, and with a positive limit the first is the single-file search's choice |
| Sources.CleanPieces | src-tauri/src/watch.rs:1684-1688 | the cleaned pieces are no more than the pieces and none is empty |
| Sources.NormalizeSources | src-tauri/src/watch.rs:1679-1699 | the loop over the pieces gives the normalised selection |
| Sources.Normalized | src-tauri/src/watch.rs:1679-1699 | no contract of its own; `NormalizeSources` is proved to compute it and `NormalizedIsDistinct` states what it selects |
| Sources.Dedupe | src-tauri/src/watch.rs:1694-1698 | no contract of its own; `DedupeKeepsElements`, `DedupePrefix` and `DedupeOfDistinct` state what it keeps |
| Sources.DedupeInOrder | src-tauri/src/watch.rs:1694-1698 | the loop with a seen-set keeps the first occurrence of each name, in order |
| Sources.DedupeKeepsElements | src-tauri/src/watch.rs:1694-1698 | the deduplicated list has no repeats and holds exactly the names of the input |
| Sources.DedupePrefix | src-tauri/src/watch.rs:1694-1698 | deduplicating a prefix gives a prefix of the deduplicated whole |
| Sources.DedupeOfDistinct | src-tauri/src/watch.rs:1694-1698 | a list without repeats is kept as it is |
| Sources.NormalizedIsDistinct | src-tauri/src/watch.rs:1679-1699 | the selection never repeats a name, and without "all" it holds exactly the cleaned pieces |
| Sources.CleanPiecesOfBlanks | src-tauri/src/watch.rs:1687 | blank pieces are all dropped |
| Sources.BlankListSelectsNothing | src-tauri/src/watch.rs:1680-1698 | " " and " , " select no agent at all, unlike the empty input |
| Sources.CleanPiecesOfPlainNames | src-tauri/src/watch.rs:1686 | unpadded lower-case names are kept as they are |
| Sources.NormalizedOfPlainList | src-tauri/src/watch.rs:1679-1699 | a comma-joined list of plain names other than "all" selects those names once each, in first-seen order |
| Sources.NormalizedExamplesAll | src-tauri/src/watch.rs:1837-1845 | "" and "all" select claude, codex and gemini |
| Sources.NormalizedExampleTwo | src-tauri/src/watch.rs:1847-1850 | "claude,gemini" selects claude and gemini |
| Sources.DedupeSnoc | src-tauri/src/watch.rs:1697 | a name seen before adds nothing; a new one is appended |
| Sources.DedupeExample | src-tauri/src/watch.rs:1694-1698 | claude, claude, gemini deduplicates to claude, gemini |
| Sources.NormalizedExampleRepeated | src-tauri/src/watch.rs:1852-1855 | a repeated name is selected once ("claude,claude,gemini" selects claude and gemini) |
| Follower.RemoveBom | src-tauri/src/watch.rs:230 | no byte-order mark is left, the characters left are exactly the other characters of the line, and a line without a mark is kept as it is |
| Follower.RemoveBomAppend | src-tauri/src/watch.rs:230 | removing the marks from two pieces and joining them equals removing them from the joined line, so the kept characters stay in order |
| Follower.SafeParse | src-tauri/src/watch.rs:229-233 | no contract of its own; a line is parsed once its byte-order mark is removed, which `RemoveBom` states |
| Follower.SeedLines | src-tauri/src/watch.rs:106-116 | no contract of its own; `SeedStartsAtLineBoundary` states where the replayed lines start |
| Follower.AttachStep | src-tauri/src/watch.rs:92-127 | a missing file changes nothing and yields nothing; otherwise the follower follows the path from its end with nothing kept; every record is a seed |
| Follower.PollStep | src-tauri/src/watch.rs:130-180 | the followed path never changes, no record is a seed, and records come only from a present, readable file, after which the position is its size |
| Follower.Parsed | src-tauri/src/watch.rs:118-126 | at most one record per line, each carrying the seed mark of the run |
| Follower.ParsedAppend | src-tauri/src/watch.rs:173-180 | parsing two runs of lines gives the records of the first then those of the second |
| Follower.ParsedSkipsEmptyLines | src-tauri/src/watch.rs:174-176 | empty lines yield no record |
| Follower.EmitLines | src-tauri/src/watch.rs:173-180 | the emit loop yields exactly the parsed records of the lines, in order |
| Follower.JsonlFollower.constructor | src-tauri/src/watch.rs:82-89 | a new follower follows no file, at position 0, with nothing kept |
| Follower.JsonlFollower.Attach | src-tauri/src/watch.rs:92-127 | attaching leaves the state and the seed records of the attach step |
| Follower.JsonlFollower.Poll | src-tauri/src/watch.rs:130-180 | polling leaves the state and the records of the poll step |
| Follower.JsonlFollower.SetPosition | src-tauri/src/watch.rs:188-190 | only the position changes |
| Follower.PollWithoutReadingEmitsNothing | src-tauri/src/watch.rs:134-155 | a poll with no file, a missing file or no new bytes emits nothing and changes nothing but the rewind after a shrink |
| Follower.PollKeepsEveryByte | src-tauri/src/watch.rs:157-180 | after a reading poll the position is the size, the emitted lines and the kept rest rejoin to the old rest plus the appended bytes, none holds a line feed, and the records are those lines parsed |
| Follower.PiecesRejoin | src-tauri/src/watch.rs:164-170 | the completed lines and the kept last piece rejoin to the text, and none holds a line feed |
| Follower.SplitGrown | src-tauri/src/watch.rs:163-164 | splitting text grown by an append splits the old completed lines, then the old last piece with the append |
| Follower.PollTwiceEqualsOnce | src-tauri/src/watch.rs:157-180 | two polls after two appends reach the state and emit the records of one poll after both |
| Follower.AttachFollowsFromEnd | src-tauri/src/watch.rs:97-104 | attaching follows the file from its end with nothing kept, every replayed record is a seed, and an immediate poll emits nothing |
| Follower.AttachRecordsAreSeeds | src-tauri/src/watch.rs:118-125 | a fresh follower's attach emits only seed records |
| Follower.SeedStartsAtLineBoundary | src-tauri/src/watch.rs:106-116 | the replayed lines rejoin to the end of the file from its start or from just after a line feed |
| Follower.PollAfterShrinkRestarts | src-tauri/src/watch.rs:145-149 | a file that shrank is read again from its first byte, dropping the kept rest |
| CodexWatch.TurnDuration | src-tauri/src/watch.rs:1311-1312 | a duration is reported exactly when the user's time, else its task start, is known and not after the completion; it then spans from that start to the completion |
| CodexWatch.Classify | src-tauri/src/watch.rs:1174-1262 | a value that is not an object is ignored; a record is a task completion exactly when it is an `event_msg` whose payload's `type` is `task_complete` |
| CodexWatch.TakeLastMessage | src-tauri/src/watch.rs:1272-1278 | the kept content becomes what the completion's last message gives, and only the texts, the content and the reply time can change |
| CodexWatch.ConfirmOrComplete | src-tauri/src/watch.rs:1280-1309 | nothing is sent exactly when the confirm flag is already set, and the flag is set afterwards; a completion records its turn id and time as notified; a reminder leaves the notified turn id alone |
| CodexWatch.TaskCompleteStep | src-tauri/src/watch.rs:1260-1334 | a replayed completion, or one for the last notified turn id (missing counts as ""), changes nothing; a completion sent marks its turn id notified |
| CodexWatch.Step | src-tauri/src/watch.rs:1183-1347 | only a live task completion sends anything |
| CodexWatch.Replay | src-tauri/src/watch.rs:1145-1153 | processing a run of records gives one effect per record |
| CodexWatch.LinesOf | src-tauri/src/watch.rs:1126-1134 | each follower record becomes one classified line, in order, with its seed mark |
| CodexWatch.CodexWatcher.constructor | src-tauri/src/watch.rs:1058-1079 | the watcher starts from the fresh state, and its turn-end test is the turn-end prompt detector as intended (see the Findings) |
| CodexWatch.CodexWatcher.ProcessObject | src-tauri/src/watch.rs:1167-1348 | the new state and the effect are those of the step function on the classified record |
| CodexWatch.CodexWatcher.ProcessRecord | src-tauri/src/watch.rs:1183-1347 | the new state and the effect are those of the step function on a classified record |
| CodexWatch.CodexWatcher.ClearFlags | src-tauri/src/watch.rs:1192-1194 | the confirm key, the confirm flag and the interaction flag are cleared, nothing else |
| CodexWatch.CodexWatcher.OnTurnContext | src-tauri/src/watch.rs:1184-1203 | a turn context records its directory, starts a new turn on a different turn id (clearing the flags) and records its mode |
| CodexWatch.CodexWatcher.OnUserMessage | src-tauri/src/watch.rs:1206-1220 | a user message forgets its task start when live, takes its time (possibly none) and text, and clears the turn's flags |
| CodexWatch.CodexWatcher.OnAssistantMessage | src-tauri/src/watch.rs:1223-1235 | a live assistant message records its non-empty text as text and content, and its time or now |
| CodexWatch.CodexWatcher.OnTaskStarted | src-tauri/src/watch.rs:1244-1259 | a task start records its turn id and mode when present, its time as its task start, and clears the turn's flags |
| CodexWatch.CodexWatcher.OnAgentMessage | src-tauri/src/watch.rs:1335-1342 | a live agent message records its content as text, and its time or now |
| CodexWatch.CodexWatcher.OnTaskComplete | src-tauri/src/watch.rs:1260-1334 | the new state and effect are those of the completion step |
| CodexWatch.CodexWatcher.Conclude | src-tauri/src/watch.rs:1280-1333 | after the last message is taken: nothing when the turn is flagged, a reminder when the content ends the turn with a question, else the completion |
| CodexWatch.CodexWatcher.ResetForFile | src-tauri/src/watch.rs:1107-1118 | a newly newest file clears the turn ids, mode, directory, texts, confirm key and the flags |
| CodexWatch.CodexWatcher.ForgetTurnIds | src-tauri/src/watch.rs:1108-1110 | the current and notified turn ids, the mode and the resolution time are cleared, nothing else |
| CodexWatch.CodexWatcher.ForgetTexts | src-tauri/src/watch.rs:1111-1114 | the directory, the content and the two texts are cleared, nothing else |
| CodexWatch.CodexWatcher.ProcessRecords | src-tauri/src/watch.rs:1145-1153 | the records of one poll leave the state and effects of replaying them in order |
| CodexWatch.WatchTick | src-tauri/src/watch.rs:1093-1154 | one tick leaves watcher, follower and effects as the tick function says: reset and attach when the follower is not on the newest file, poll otherwise |
| CodexWatch.Tick | src-tauri/src/watch.rs:1093-1154 | no contract of its own; `CodexWatcher.WatchTick` is proved to follow it and `SwitchingFilesIsQuiet` and `TickKeepsNoInteraction` state what it does |
| CodexWatch.OnlyLiveCompletionsSignal | src-tauri/src/watch.rs:1183-1347 | only a live `task_complete` ever sends anything |
| CodexWatch.IgnoredCompletion | src-tauri/src/watch.rs:1261-1268 | a replayed completion, or one whose turn id (missing counts as "") was the last notified, changes nothing |
| CodexWatch.CompletionIff | src-tauri/src/watch.rs:1260-1334 | a live completion of a new turn that is not flagged sends a reminder exactly when the detector is on and the content ends the turn with a question, and the completion exactly otherwise; the completion reports "Codex 完成", the duration and the last directory and marks the turn id notified; the reminder leaves it unmarked |
| CodexWatch.RepeatedCompletionIsNoOp | src-tauri/src/watch.rs:1266-1268 | once a completion was sent, the same turn id's completion changes nothing |
| CodexWatch.SeedReplayIsQuiet | src-tauri/src/watch.rs:1126-1134 | replaying seed records sends nothing |
| CodexWatch.UnnumberedCompletionsNeverSignal | src-tauri/src/watch.rs:1265-1268 | while no turn id was notified, completions without a turn id send nothing and leave it so |
| CodexWatch.StepKeepsNoInteraction | src-tauri/src/watch.rs:1183-1347 | no record sets the interaction flag or a resolution time |
| CodexWatch.InteractionNeverRequired | src-tauri/src/watch.rs:1183-1347 | however many records are processed, the interaction flag stays off |
| CodexWatch.TickKeepsNoInteraction | src-tauri/src/watch.rs:1093-1154 | the fresh state and every tick keep the interaction flag off |
| CodexWatch.StepSignalsOnce | src-tauri/src/watch.rs:1280-1309 | outside records that start a turn, sending sets the confirm flag, and a set flag blocks sending |
| CodexWatch.AtMostOneSignalPerTurn | src-tauri/src/watch.rs:1280-1309 | within one turn at most one reminder or completion is sent |
| CodexWatch.SwitchingFilesIsQuiet | src-tauri/src/watch.rs:1107-1137 | switching to a new newest file attaches the follower when it exists and sends nothing |
| CodexWatch.StartQuestionCompletesAsWritten | src-tauri/src/watch.rs:1286-1309 | with the detector on, a live completion of a new turn whose last message is "开始吗？" sends the completion "Codex 完成" and marks the turn notified under the written test, and sends a reminder leaving the turn unmarked under the intended one |
| GeminiWatch.StrippedBoms | src-tauri/src/watch.rs:1449 | stripping removes a run of byte-order marks at the front and nothing else, and what remains does not start with one |
| GeminiWatch.StringItems | src-tauri/src/watch.rs:1582 | at most one text per item, and a text is kept exactly when some item is that string |
| GeminiWatch.StringItemsAppend | src-tauri/src/watch.rs:1582 | the string items of two lists joined are those of the first followed by those of the second |
| GeminiWatch.PartTexts | src-tauri/src/watch.rs:1590-1593 | at most one text per part, and a text is kept exactly when some part's `text` member is that string |
| GeminiWatch.PartTextsAppend | src-tauri/src/watch.rs:1590-1593 | the part texts of two lists joined are those of the first followed by those of the second |
| GeminiWatch.ReadAll | src-tauri/src/watch.rs:1527-1535 | one reading per message |
| GeminiWatch.ReadMessage | src-tauri/src/watch.rs:1559-1612 | no contract of its own; the reading of a message (time, type, text, prompt flag, content) is stated through `ReplyIff`, `PromptMeansKeyword` and `KeptUnlessTrimmedEmpty` |
| GeminiWatch.Step | src-tauri/src/watch.rs:1564-1675 | a message that is neither a user message nor a reply changes nothing; anything sent comes from a reply while the confirm flag is off |
| GeminiWatch.ReplyStepAsWritten | src-tauri/src/watch.rs:1614-1616 | with the written truncation a reply stops the watcher exactly when the detector is on, no reminder was sent in the turn and the written detection aborts; otherwise it is the corrected reply step |
| GeminiWatch.KeywordPastCutStopsWatcher | src-tauri/src/watch.rs:1614-1616 | a reply whose text is "a", 200 '是' and a '否' stops the watcher as written, where the corrected detector sends a reminder |
| GeminiWatch.Fire | src-tauri/src/watch.rs:1650-1670 | a timer sends exactly when its reply time is still the last one and was not notified; it then marks that time notified and flags the turn; otherwise nothing changes |
| GeminiWatch.AttachTo | src-tauri/src/watch.rs:1453-1482 | taking up a file records it, its modification time and its message count, and counts the last reply time as notified |
| GeminiWatch.RereadMessages | src-tauri/src/watch.rs:1497-1512 | messages are read exactly when the file reads and parses; a document without a `messages` array gives none |
| GeminiWatch.Tick | src-tauri/src/watch.rs:1423-1539 | a tick sends only when the newest file is the followed one and its modification time advanced |
| GeminiWatch.PromptMeansKeyword | src-tauri/src/watch.rs:1609-1616 | a reply counts as a prompt exactly when a Chinese keyword occurs in its text or an English keyword in its lower-cased text |
| GeminiWatch.KeptUnlessTrimmedEmpty | src-tauri/src/watch.rs:1605-1607 | the reply content replaces the kept one exactly when its trimmed form is not empty |
| GeminiWatch.Replay | src-tauri/src/watch.rs:1527-1535 | processing a run of messages gives one effect per message |
| GeminiWatch.GeminiWatcher.constructor | src-tauri/src/watch.rs:1398-1401 | the watcher starts from the fresh state with the quiet period raised to 500 ms |
| GeminiWatch.GeminiWatcher.ProcessMessage | src-tauri/src/watch.rs:1552-1676 | the new state and the effect are those of the step function on the read message |
| GeminiWatch.GeminiWatcher.Process | src-tauri/src/watch.rs:1564-1675 | the new state and the effect are those of the step function on a read message |
| GeminiWatch.GeminiWatcher.OnUser | src-tauri/src/watch.rs:1565-1573 | a user message takes its time and text, clears the reply times, the reply text, the confirm key and the confirm flag |
| GeminiWatch.GeminiWatcher.OnReply | src-tauri/src/watch.rs:1575-1612 | a reply takes its time, keeps its content unless blank, and its text unless empty |
| GeminiWatch.GeminiWatcher.FireTimer | src-tauri/src/watch.rs:1650-1670 | a timer that wakes leaves the state and notice of the fire function |
| GeminiWatch.GeminiWatcher.ProcessAll | src-tauri/src/watch.rs:1527-1535 | the new messages leave the state and effects of replaying them in order |
| GeminiWatch.GeminiWatcher.SeedFrom | src-tauri/src/watch.rs:1461-1477 | the history loop leaves the state of folding the timed user and reply messages |
| GeminiWatch.GeminiWatcher.TakeUp | src-tauri/src/watch.rs:1453-1482 | taking up a new file resets the turn, folds its history, and records the file, its time and its message count, with the last reply counted as notified |
| GeminiWatch.GeminiWatcher.ClearFile | src-tauri/src/watch.rs:1453-1458 | the user and reply times, the texts, the confirm key and the confirm flag are cleared, nothing else |
| GeminiWatch.GeminiWatcher.PollTick | src-tauri/src/watch.rs:1423-1539 | one tick leaves the state and effects of the tick function |
| GeminiWatch.GeminiWatcher.Reread | src-tauri/src/watch.rs:1508-1538 | a changed file leaves the state and effects of the re-read function |
| GeminiWatch.ReplyIff | src-tauri/src/watch.rs:1614-1672 | a reply sends a reminder exactly when the turn is not flagged, the detector is on and its text is a prompt; it arms a timer for the quiet period, its time and the process directory exactly when the turn is not flagged and it is not a prompt |
| GeminiWatch.NotifiedTurnIsQuiet | src-tauri/src/watch.rs:1615 | once the turn is flagged, nothing but a user message changes that, and nothing is sent |
| GeminiWatch.ArmedTimerFires | src-tauri/src/watch.rs:1650-1663 | an armed timer, if nothing came in between, sends "Gemini 完成" with the duration from the user's time exactly when the reply time was not already notified, and marks it notified and flags the turn |
| GeminiWatch.RepeatedFireIsNoOp | src-tauri/src/watch.rs:1651 | a second timer for the same reply time sends nothing and changes nothing |
| GeminiWatch.LaterReplyMakesTimerStale | src-tauri/src/watch.rs:1651 | a reply with another time makes a pending timer send nothing |
| GeminiWatch.UserMessageMakesTimerStale | src-tauri/src/watch.rs:1566-1569 | a user message makes a pending timed reply's timer send nothing |
| GeminiWatch.UntimedTimerIff | src-tauri/src/watch.rs:1651 | a timer for an untimed reply sends exactly when no reply time is recorded and some time was notified; after a user message it never sends |
| GeminiWatch.SeededReplyTime | src-tauri/src/watch.rs:1461-1477 | the history loop keeps the last timed reply's time, and leaves the notified time and the flag alone |
| GeminiWatch.AttachIsQuiet | src-tauri/src/watch.rs:1446-1490 | taking up a new file sends nothing; when its messages parse it records the file and count, with the last history reply as notified; otherwise nothing changes; and no timer can fire afterwards that could not before |
| GeminiWatch.UnchangedFileIsNoOp | src-tauri/src/watch.rs:1493-1495 | a file whose time did not advance changes nothing |
| GeminiWatch.RereadProcessesNewMessages | src-tauri/src/watch.rs:1497-1538 | a changed file processes exactly the messages past the last count, then records the new count and time |
| GeminiWatch.RereadCounts | src-tauri/src/watch.rs:1514-1538 | the re-read records the count and time, and produces one effect per message past the old count |
| GeminiWatch.ReplayKeepsFile | src-tauri/src/watch.rs:1552-1676 | processing messages never changes the followed file |
| LegacyWatch.Following | src/src/watch.rs:133-144 | a newly followed file starts at the given position with no turn times, no notified turn and the turn not yet notified |
| LegacyWatch.LegacyQuiet | src/src/watch.rs:424-425 | the Claude and Gemini quiet periods are at least 500 ms and are the configured value unless it is below 500 |
| LegacyWatch.ReadNewContent | src/src/watch.rs:102-121 | a missing or unreadable file is an error; a file shorter than the position reads nothing and resets the position to 0; otherwise exactly the bytes from the position to the end are read and the end becomes the new position |
| LegacyWatch.AppendsAreReadInOrder | src/src/watch.rs:102-121 | two appends read one after the other yield exactly the appended text, in order, with nothing lost or repeated |
| LegacyWatch.LegacyTimestamp | src/src/watch.rs:93-100 | a string timestamp is read by the RFC 3339 parser, a number by the signed 64-bit integer reading |
| LegacyWatch.ClaudeRecord | src/src/watch.rs:171-203 | a Claude line is a user turn, a reply or skipped, and a side-chain record is always skipped |
| LegacyWatch.CodexRecord | src/src/watch.rs:309-334 | a Codex line is a user turn, a task completion or skipped |
| LegacyWatch.GeminiRecord | src/src/watch.rs:550-564 | a Gemini message is a user turn, a reply or skipped |
| LegacyWatch.LineRecords | src/src/watch.rs:161-169 | blank and unparsable lines drop out, so there are never more records than lines |
| LegacyWatch.GeminiRecords | src/src/watch.rs:549-551 | every chat message yields exactly one record |
| LegacyWatch.OneLine | src/src/watch.rs:161 | a single line ending in a newline is read as that line, without a trailing carriage return |
| LegacyWatch.CutLineIsReadInPieces | src/src/watch.rs:146-161 | a line that arrives in two reads is seen as two separate lines, since no partial line is carried between reads |
| LegacyWatch.AgentDelay | src/src/watch.rs:205 | the timer delay never exceeds the quiet period, and Gemini always waits its full quiet period |
| LegacyWatch.ReplyStep | src/src/watch.rs:205-253 | a reply arms one timer with a fresh identity, records its time and keeps the position; in an open turn nothing else of the file changes |
| LegacyWatch.LastTurnEvent | src/src/watch.rs:177-256 | the event that decides the outcome of a batch is its last user turn or reply |
| LegacyWatch.TimerFollowsLastEvent | src/src/watch.rs:177-256 | after a batch, the last turn event decides everything: a user turn leaves no timer and the turn open with its time; a reply leaves exactly one fresh timer carrying the agent's name and delay, with the reply's time recorded; a batch with no turn event changes nothing |
| LegacyWatch.RepliesTimer | src/src/watch.rs:207-210 | a batch keeps the path's timer, cancels it, or replaces it with one whose identity is newly handed out |
| LegacyWatch.CompletionIff | src/src/watch.rs:331-398 | a completion is announced exactly when it is unnumbered or its turn differs from the last notified one; the notice carries the time since the user turn; the state records the completion time, and the turn is marked notified only when delivery was reported |
| LegacyWatch.CodexLine | src/src/watch.rs:331-398 | a notice comes only from a completion that is unnumbered or of a turn other than the last notified one; the identity counter and the position never change |
| LegacyWatch.StopsAtFirstCompletion | src/src/watch.rs:398 | once a completion is announced, the rest of the read is ignored |
| LegacyWatch.DeliveredTurnIsNotRepeated | src/src/watch.rs:336-351 | after a numbered completion is delivered, the same turn is never announced again, while an unnumbered one is announced every time |
| LegacyWatch.Entry | src/src/watch.rs:133-144 | a known path keeps its state, and an unknown path starts fresh at the initial position |
| LegacyWatch.Opened | src/src/watch.rs:133-144 | following a path records its entry and touches neither the timers nor the counters |
| LegacyWatch.Store | src/src/watch.rs:159 | writing back a batch updates that path's state and the identity counter, and leaves the cleanup counter alone |
| LegacyWatch.ClaudeChunk | src/src/watch.rs:154-258 | processing a Claude read keeps the path followed and leaves the cleanup counter alone |
| LegacyWatch.ClaudeFile | src/src/watch.rs:123-261 | processing the newest Claude log keeps the path followed and leaves the cleanup counter alone |
| LegacyWatch.CodexChunk | src/src/watch.rs:291-402 | processing a Codex read keeps the path followed and leaves the cleanup counter alone |
| LegacyWatch.CodexFile | src/src/watch.rs:263-403 | processing the newest Codex log keeps the path followed and leaves the cleanup counter alone |
| LegacyWatch.GeminiChat | src/src/watch.rs:540-624 | processing a changed chat file keeps the path followed and leaves the cleanup counter alone |
| LegacyWatch.GeminiFile | src/src/watch.rs:477-626 | processing the newest chat file leaves the cleanup counter alone |
| LegacyWatch.ShrunkFileIsIgnored | src/src/watch.rs:146-157 | a log no longer than the read position changes nothing and sends nothing |
| LegacyWatch.GeminiPositionIsModifiedTime | src/src/watch.rs:509-515 | after a newer chat file is read, its position field holds the modification time in milliseconds |
| LegacyWatch.GeminiStallsBelowPosition | src/src/watch.rs:540-545 | when the chat has no more messages than the position field, only that field may change: no timers, no turn bookkeeping and no other path |
| LegacyWatch.ChatMessages | src/src/watch.rs:512-538 | no contract of its own; `GeminiStallsBelowPosition` and `HistoryArmsTimer` state what the read messages do |
| LegacyWatch.HistoryArmsTimer | src/src/watch.rs:497-507 | a chat file seen for the first time is read from its first message, so a history that ends with a reply arms a Gemini timer with the Gemini quiet period |
| LegacyWatch.FireIff | src/src/watch.rs:214-253 | a timer that is not the path's pending one does nothing; the pending one is removed and notifies exactly when the turn is not yet notified and the last reply was not already announced; the notice carries the duration from user turn to reply; the turn is marked notified only when delivery was reported |
| LegacyWatch.Fire | src/src/watch.rs:220-251 | a notice exactly when the turn is not notified and the last reply was not announced; without a notice or without delivery nothing changes; a delivered notice marks the turn notified and the reply announced |
| LegacyWatch.FireTimer | src/src/watch.rs:214-253 | a notice needs the firing timer to be the path's pending one and the path to be followed; the identity and cleanup counters never change |
| LegacyWatch.OneNoticePerTurn | src/src/watch.rs:220-222 | after a delivered notice, further replies in the same turn never notify again |
| LegacyWatch.StoreFreshTimers | src/src/watch.rs:207-210 | writing back a batch whose timer is kept, cancelled or newly handed out keeps aborted timers dead |
| LegacyWatch.CurrentFiles | src/src/watch.rs:436-460 | the current files are exactly the paths of the sources found this tick |
| LegacyWatch.CleanupKeepsCurrentFiles | src/src/watch.rs:462-468 | the counter counts ticks modulo 60; on the 60th tick exactly the states of this tick's files survive, unchanged; otherwise the states are untouched; timers are never cleaned up |
| LegacyWatch.CleanedUp | src/src/watch.rs:462-468 | no contract of its own; `CleanupKeepsCurrentFiles` states what survives |
| LegacyWatch.Jobs | src/src/watch.rs:438-460 | a tick handles at most the three sources |
| LegacyWatch.JobStep | src/src/watch.rs:442 | a source's work leaves the cleanup counter alone, and only the Codex work sends a notice directly |
| LegacyWatch.RunJobs | src/src/watch.rs:438-460 | the sources' work leaves the cleanup counter alone |
| LegacyWatch.RunJobsSnoc | src/src/watch.rs:438-460 | the sources are handled one after another, each on the state left by the previous one |
| LegacyWatch.FreshTimersCompose | src/src/watch.rs:207-210 | timer freshness carries over a sequence of steps |
| LegacyWatch.ClaudeFileFreshTimers | src/src/watch.rs:181-184 | processing a Claude log never revives an aborted timer |
| LegacyWatch.CodexFileFreshTimers | src/src/watch.rs:322-325 | processing a Codex log never revives an aborted timer |
| LegacyWatch.GeminiFileFreshTimers | src/src/watch.rs:557-560 | processing a chat file never revives an aborted timer |
| LegacyWatch.JobFreshTimers | src/src/watch.rs:438-460 | a source's work never revives an aborted timer |
| LegacyWatch.RunJobsFreshTimers | src/src/watch.rs:438-460 | a tick's work never revives an aborted timer |
| LegacyWatch.TickFreshTimers | src/src/watch.rs:433-468 | a tick never revives an aborted timer, and every pending timer stays below the next identity |
| LegacyWatch.TickCountsModulo | src/src/watch.rs:463-465 | each tick advances the cleanup counter by one, modulo 60 |
| LegacyWatch.Tick | src/src/watch.rs:433-468 | no contract of its own; `LegacyWatcher.OnTick` is proved to follow it and `TickFreshTimers` and `TickCountsModulo` state what it does |
| LegacyWatch.RunReplies | src/src/watch.rs:161-258 | the per-line loop over Claude or Gemini records ends in the state the batch specification gives |
| LegacyWatch.RunCodexLines | src/src/watch.rs:299-402 | the per-line loop over Codex records ends in the state and notice the batch specification gives, stopping at the first completion |
| LegacyWatch.LegacyWatcher.constructor | src/src/watch.rs:424-431 | the watch task starts with no states, no timers and a zero counter, with the quiet periods raised to the minimum |
| LegacyWatch.LegacyWatcher.Adopt | src/src/watch.rs:159 | a path's state and timer are replaced by the batch result |
| LegacyWatch.LegacyWatcher.Open | src/src/watch.rs:133-144 | a path is followed from the initial position unless it already was |
| LegacyWatch.LegacyWatcher.ProcessClaudeChunk | src/src/watch.rs:154-258 | the state after a Claude read is the one the Claude specification gives |
| LegacyWatch.LegacyWatcher.ProcessClaudeFile | src/src/watch.rs:123-261 | the state after processing the Claude log is the one the Claude specification gives |
| LegacyWatch.LegacyWatcher.ProcessCodexChunk | src/src/watch.rs:291-402 | the state and notice after a Codex read are the ones the Codex specification gives |
| LegacyWatch.LegacyWatcher.ProcessCodexFile | src/src/watch.rs:263-403 | the state and notice after processing the Codex log are the ones the Codex specification gives |
| LegacyWatch.LegacyWatcher.ProcessGeminiChat | src/src/watch.rs:540-624 | the state after reading a changed chat file is the one the Gemini specification gives |
| LegacyWatch.LegacyWatcher.ProcessGeminiFile | src/src/watch.rs:477-626 | the state after processing the chat file is the one the Gemini specification gives |
| LegacyWatch.LegacyWatcher.OnTimer | src/src/watch.rs:214-253 | a timer going off changes the state and notifies as the fire specification gives |
| LegacyWatch.LegacyWatcher.Cleanup | src/src/watch.rs:462-468 | the cleanup step changes the state as the cleanup specification gives |
| LegacyWatch.LegacyWatcher.OnTick | src/src/watch.rs:433-468 | one tick changes the state and notifies as the tick specification gives |
| LegacyWatch.Replies | src/src/watch.rs:161-258 | a batch of Claude or Gemini records never moves the read position and never reuses a timer identity |
| LegacyWatch.CodexLines | src/src/watch.rs:299-402 | a batch of Codex records never moves the read position and never arms a timer: the pending one is kept or cancelled |
| Notify.Outcome | src-tauri/src/notify.rs:141-144 | a channel that got as far as delivery reports success exactly when the delivery succeeded |
| Notify.SourceFor | src-tauri/src/notify.rs:38-43 | "codex" and "gemini" pick their own settings, and every other source name, "claude" included, picks Claude's |
| Notify.TruncDiv | src-tauri/src/notify.rs:57 | division by a positive divisor is the floor for a non-negative dividend and is never positive for a negative one, as Rust's truncating division |
| Notify.TruncRem | src-tauri/src/notify.rs:58 | the remainder completes the truncating quotient and takes the dividend's sign, as Rust's `%` |
| Notify.DurationTextShowsWholeSeconds | src-tauri/src/notify.rs:56-64 | a non-negative duration is shown as its whole minutes and the whole seconds past them (below 60), which bracket it to the second, with the minutes left out below one minute |
| Notify.SecondsTextDetermines | src-tauri/src/notify.rs:62 | two seconds-only texts are equal only for equal seconds |
| Notify.MinutesTextDetermines | src-tauri/src/notify.rs:60 | two minutes-and-seconds texts are equal only for equal minutes and seconds |
| Notify.SecondsTextIsNotMinutesText | src-tauri/src/notify.rs:59-63 | a seconds-only text never equals a minutes-and-seconds text |
| Notify.WholeSeconds | src-tauri/src/notify.rs:57-58 | the minutes and seconds shown recombine to the duration's whole seconds |
| Notify.DurationTextIdentifiesSeconds | src-tauri/src/notify.rs:56-64 | two non-negative durations get the same text exactly when they have the same whole seconds |
| Notify.SameSecondsSameText | src-tauri/src/notify.rs:56-64 | two non-negative durations with the same whole seconds get the same text |
| Notify.SameTextSameSeconds | src-tauri/src/notify.rs:56-64 | two non-negative durations with the same text have the same whole seconds |
| Notify.NegativeDurationShowsSecondsOnly | src-tauri/src/notify.rs:56-64 | a negative duration shows no minutes and a non-positive seconds count above -60 |
| Notify.DurationText | src-tauri/src/notify.rs:56-64 | the text ends in '秒' after at least one other character |
| Notify.TelegramMessage | src-tauri/src/notify.rs:66-70 | the message starts with `task_info` and is exactly it without a duration; otherwise the duration follows on its own line after "耗时: " |
| Notify.EnvelopeShape | src-tauri/src/notify.rs:6-26 | an envelope exists exactly when the configuration loads; it is never skipped, has no reason and lists Telegram, desktop and sound in that order; the working directory and the force flag make no difference |
| Notify.SendNotifications | src-tauri/src/notify.rs:6-26 | an envelope exists exactly when the configuration loads; it is never skipped and has three results: Telegram succeeds only when a message was sent, desktop only on Windows, sound exactly when its switch is on and `notify_sound` succeeded |
| Notify.SendTelegram | src-tauri/src/notify.rs:28-100 | the result is Telegram's; nothing sent means failure; what is sent is a message, and success is exactly its delivery |
| Notify.SendDesktop | src-tauri/src/notify.rs:102-151 | the result is the desktop's; nothing shown means failure; a toast is shown only on Windows, titled `task_info` with the duration text, and success is exactly its delivery |
| Notify.SendSound | src-tauri/src/notify.rs:153-165 | the result is the sound channel's; `task_info` is handed to `notify_sound` exactly when the global sound switch is on, and success is exactly that call's outcome |
| Notify.TelegramGates | src-tauri/src/notify.rs:28-100 | Telegram succeeds exactly when the channel, the source and its Telegram switch are on, both credentials are present and the request succeeded; a message is sent exactly when every gate passes; each failed gate reports its own error, the global switch first |
| Notify.DesktopGates | src-tauri/src/notify.rs:102-151 | the desktop channel succeeds exactly when the channel, the source and its desktop switch are on, the build targets Windows and the toast was shown; the toast is titled `task_info` and holds the duration text; each failed gate reports its own error |
| Notify.SoundIgnoresSourceSettings | src-tauri/src/notify.rs:153-165 | the sound result depends only on the global sound switch and the outcome of `notify_sound`, never on the source's settings |
| Notify.UnknownSourceIsClaude | src-tauri/src/notify.rs:38-43 | for a source name outside the three agents, Telegram and desktop behave exactly as for Claude |
| LegacyNotify.ToastTitle | src/src/notify.rs:72 | the title is the source name upper-cased letter by letter, followed by " 任务完成" |
| LegacyNotify.ToastText | src/src/notify.rs:73-77 | the toast text starts with `task_info` and is exactly it without a duration; otherwise " · 耗时 " and the duration text follow |
| LegacyNotify.EnvelopeShape | src/src/notify.rs:18-33 | an envelope exists exactly when the configuration loads; it is never skipped and holds the desktop result alone; the working directory and the force flag make no difference |
| LegacyNotify.SendNotifications | src/src/notify.rs:18-33 | an envelope exists exactly when the configuration loads; it is never skipped and holds the one desktop result |
| LegacyNotify.SendDesktop | src/src/notify.rs:35-93 | the result is the desktop's; no toast means failure; a toast needs Windows, carries the upper-cased title, and success is exactly its delivery |
| LegacyNotify.DesktopGates | src/src/notify.rs:35-93 | the toast is shown exactly when the channel, the source and its desktop switch are on and the build targets Windows, with the upper-cased title and its `task_info` text; success also needs the toast to show; each failed gate reports its own error; an unknown source counts as Claude |
| LegacyNotify.RefusedToastStillMarksTurn | src/src/watch.rs:236-251 | the legacy timers treat any loaded configuration as a delivery, so a turn whose toast the disabled desktop channel refused is still marked as notified |
| Locking.Deliver | src-tauri/src/watch.rs:711-713 | with the state lock free, handing records to the locking callback gives the fold of the step over them |
| Locking.HeldBlocksIff | src-tauri/src/watch.rs:808-809 | with the state lock held by the tick, delivery blocks exactly when some record makes the callback lock; when none does, it is the fold |

## Left out

- Concurrency. The model runs the tokio tasks, intervals, `select!` loops, `Arc<Mutex<…>>` state and stop flags one step at a time:
  - A timer firing is a separate step that gets the state current at that moment.
  - The shipping watchers assume the state lock is released before records are handed to the callback, and so does the model: every watcher folds its records over the state. As written, each tick takes its `std::sync::Mutex` guards (`src-tauri/src/watch.rs:712-713`, `:1094-1095`, `:1424-1425`) and still holds them when the callback locks the same mutex again (`:808-809`, `:1181`, `:1562`). A std mutex is not re-entrant, so the tick hangs at the first record the callback acts on: the first considered Claude record, the first Codex object, the first new Gemini message of a re-read. `Locking` states both readings, and the Findings table records the hang.
  - Blocking and ordering between tasks are not otherwise captured.
- File-system access is replaced by values:
  - A log file is a `FileView`: missing, or present with its text and whether it reads.
  - A chat file is its modification time and its text.
  - The directory walks of `find_latest_file`/`find_latest_files` are replaced by candidate lists of (path, modification time).
  - The legacy `find_latest_jsonl`/`find_latest_json` walks are left out. The newest file found this tick is an input of `LegacyWatch.Tick`.
  - `get_home_dir` is left out.
- The text model:
  - Bytes are modelled one character per byte. Lossy UTF-8 decoding is not modelled.
  - The byte budgets of `truncate_text` are modelled on UTF-8 lengths.
- JSON parsing (`serde_json`) is a parameter. The RFC 3339 and float branches of `parse_timestamp` are parameters too.
- Unicode case mapping (`to_lowercase`, `to_uppercase`) is modelled on ASCII letters only.
- Integer overflow: the i64 overflow of `seconds * 1000` and of duration subtraction is not modelled, because integers are unbounded here.
- Notification delivery is represented by its reported outcome, a `Delivery` value. Left out:
  - The Telegram HTTP request.
  - The Windows toast and the legacy AppUserModelId registration.
  - `notify_sound` with its custom-sound, text-to-speech and platform branches.
  - The AI-summary HTTP call.
- `load_config` is represented by an optional configuration. The `config.rs` and `main.rs` files of both trees are not part of this model, and neither are the Tauri commands, tray, log callbacks, `StopHandle` or `tools/generate-icons.py`.
- Shipping dispatcher quirks, modelled as written:
  - `send_sound` ignores the per-source settings.
  - The `cwd` and `force` arguments are unused.
  - `min_duration_minutes` is read nowhere.
- Codex interaction tracking: the `interaction_required_for_turn` flag (src-tauri/src/watch.rs:1002) starts false (:1023) and is only ever assigned false again (:1117, :1194, :1218, :1257); nothing reads it, so no interactive request ever holds back a notification. Its companion `last_interaction_resolved_at` (:1003) likewise starts as `None` (:1024) and is only reset to `None` (:1118, :1195). The model follows this (`CodexWatch.InteractionNeverRequired`).
- Codex unnumbered completions: a `task_complete` without a `turn_id` is skipped while no turn has been notified. The model follows the code (`CodexWatch.UnnumberedCompletionsNeverSignal`).
- Quirks of the legacy watch task, modelled as written:
  - A log that shrinks is ignored. `read_new_content` returns position 0 with no content, and the caller returns on empty content before storing the position. Reading resumes only once the file grows past the old position (`LegacyWatch.ShrunkFileIsIgnored`).
  - No partial line is carried between reads (`LegacyWatch.CutLineIsReadInPieces`).
  - The Gemini position field holds a modification time yet is read as a message count, so a chat stalls once it has been read (`LegacyWatch.GeminiStallsBelowPosition`).
  - A chat file seen for the first time is read from its first message (`LegacyWatch.HistoryArmsTimer`).
  - A Codex read stops at its first completion (`LegacyWatch.StopsAtFirstCompletion`).
  - Unnumbered Codex completions repeat (`LegacyWatch.DeliveredTurnIsNotRepeated`).
  - Timers are never removed by the cleanup (`LegacyWatch.CleanupKeepsCurrentFiles`).
  - "Delivered" means only that the configuration loaded (`LegacyNotify.RefusedToastStillMarksTurn`).
- The Gemini re-read moves `messages` into its iterator (`src-tauri/src/watch.rs:1521`) and then reads `messages.len()` (`:1538`), which Rust rejects as a use of a moved value. The model records the length of the array that was read, as evidently intended.
- `normalize_sources` collects the lower-cased `String`s into a `Vec<&str>` (`src-tauri/src/watch.rs:1684-1688`) and then tests `parts.contains(&"all".to_string())` (`:1690`), which does not type-check as written. `Sources.Normalized` follows the evident `Vec<String>` reading.
- The documented normalisation example with padded names (`src-tauri/src/watch.rs:1852-1855`) is stated only without the padding (`Sources.NormalizedExampleRepeated`). The padding is covered by the general trimming lemmas.
- Members whose contracts are deliberately weaker than the source's behaviour, because the behaviour itself is stated by the lemmas named:
  - LegacyWatch.ClaudeChunk: its contract states only framing; the behaviour is stated by `TimerFollowsLastEvent`, `ShrunkFileIsIgnored` and `ClaudeFileFreshTimers`.
  - LegacyWatch.ClaudeFile: as for `ClaudeChunk`.
  - LegacyWatch.CodexChunk: its contract states only framing; the behaviour is stated by `CompletionIff`, `StopsAtFirstCompletion` and `CodexFileFreshTimers`.
  - LegacyWatch.CodexFile: as for `CodexChunk`.
  - LegacyWatch.GeminiChat: its contract states only framing; the behaviour is stated by `GeminiPositionIsModifiedTime`, `GeminiStallsBelowPosition` and `HistoryArmsTimer`.
  - LegacyWatch.GeminiFile: as for `GeminiChat`.
  - LegacyWatch.JobStep: its contract states only framing; the behaviour is stated by `RunJobsSnoc`, `TickFreshTimers` and `TickCountsModulo`.
  - LegacyWatch.RunJobs: as for `JobStep`.
- Members built on the corrected detectors. The written `truncate_text` panics when byte 597 falls inside a character, and the written turn-end test misses the full-width '？' (see the Findings). The watchers below use the corrected readings; the written ones are modelled beside them.
  - CodexWatch.TurnEnds: the Codex watcher's turn-end test is the intended one. The written test is `Confirm.DetectTurnEndConfirmPromptAsWritten`, and `CodexWatch.StartQuestionCompletesAsWritten` shows the watcher outcome that differs. The panic of its tail truncation (`src-tauri/src/watch.rs:1049`) is `Confirm.TurnEndAsWritten` and is not carried into the watcher's state.
  - CodexWatch.CodexWatcher.constructor: installs `CodexWatch.TurnEnds`, the intended turn-end test.
  - CodexWatch.CodexWatcher.Conclude: follows the watcher's turn-end test, the intended one.
  - CodexWatch.CompletionIff: is stated for whichever turn-end test is given; the watcher gives the intended one.
  - ClaudeWatch.ReadRecord: its prompt flag is the corrected `Confirm.Detect`. The written decision, which stops when the truncation panics, is `ClaudeWatch.DecideAsWritten` (`ClaudeWatch.KeywordPastCutStopsWatcher` gives an input).
  - ClaudeWatch.PromptMeansKeyword: stated over the corrected prompt flag of `ReadRecord`.
  - ClaudeWatch.CompletionScheduledIff: stated over the corrected prompt flag; as written the watcher stops instead on the inputs `DecideAsWritten` names.
  - ClaudeWatch.ConfirmIff: stated over the corrected prompt flag; as written the watcher stops instead on the inputs `DecideAsWritten` names.
  - Confirm.Detect: the corrected detector. The written one is `Confirm.DetectAsWritten`, which aborts for prompts over 600 bytes with no character boundary at byte 597.
  - GeminiWatch.ReadMessage: its prompt flag is the corrected `Confirm.Detect`. The written reply step is `GeminiWatch.ReplyStepAsWritten` (`GeminiWatch.KeywordPastCutStopsWatcher` gives an input).
  - GeminiWatch.PromptMeansKeyword: stated over the corrected prompt flag of `ReadMessage`.
  - GeminiWatch.ReplyIff: stated over the corrected prompt flag; as written the watcher stops instead on the inputs `ReplyStepAsWritten` names.

## Findings

| source | as written | input that shows it | evidently intended | confidence | as-written member | corrected member |
|---|---|---|---|---|---|---|
| src-tauri/src/watch.rs:389-396 | `truncate_text` slices the string at byte `max_len - 3`. Rust panics when that byte falls inside a multi-byte character. `detect` and `detect_turn_end_confirm_prompt` call it with a 600-byte budget. | a Claude reply whose text is "a", 200 × '是' and '否' (604 bytes, holding the keyword "是否"), with the detector on: the detector truncates it to 600 bytes, the cut at byte 597 falls inside a character, and the watcher task panics instead of sending a reminder | cut at the last character boundary within the budget, then append "..." | not executed | ClaudeWatch.KeywordPastCutStopsWatcher | Confirm.TruncateTextFits |
| src-tauri/src/watch.rs:1046 | the last-line question test is `ends_with('?') \|\| ends_with('?')`, the same ASCII mark twice | "开始吗？" (one line, full-width question mark, the action word "开始", no cue) is not reported as a turn-end prompt | the second test is for the full-width '？' | not executed | CodexWatch.StartQuestionCompletesAsWritten | Confirm.DetectTurnEndConfirmPrompt |
| src-tauri/src/watch.rs:711-713 | each shipping tick holds its `std::sync::Mutex` state guard while the follower hands records to a callback that locks the same mutex again (`:808-809`, `:1181`, `:1562`); a std mutex is not re-entrant | a Claude poll that delivers one object record not marked as a side chain: the callback's `state.lock()` waits on the guard its own thread holds | release the guards before handing records over, so each record is applied in turn | not executed | ClaudeWatch.RecordsUnderHeldLock | Locking.Deliver |
