# WinPowerControl battery auto-shutdown, modelled in Dafny

WinPowerControl watches a laptop's power supply. When monitoring is enabled
and the machine drops from mains power to battery, a background thread
starts a timer of `delay_minutes` minutes. Once the deadline has passed and
the charge is at or below `battery_percent`, it signals the main window. The
window then shows a 30-second warning dialog. If the user cancels it,
monitoring is switched off and the setting is saved. If the countdown runs
out, the computer is shut down.

This project models the core of that application:

- `monitor.dfy` (module `Monitor`): the monitor thread. It has one pure step
  function, `Step`, for one iteration of the polling loop. The
  `BatteryMonitor` class has a `Poll` method proved to perform exactly that
  step. Lemmas cover arming on an AC-to-battery edge, disarming on
  reconnection and the exact emission condition. `Run` replays many polls:
  there are never more emissions than timer starts, plus one if the timer
  was already running. A run with monitoring disabled does nothing.
- `config.dfy` (module `Config`): `ConfigManager` with its defaults. The
  `load` merge is a loop proved equal to a map comprehension, and there
  are `get`, `set`, `update` and `save`. JSON values are
  `Null | Bool | Int | Str`, and Python truthiness is written out.
- `shutdown_dialog.dfy` (module `ShutdownDialog`): the countdown dialog as a
  class over the fields `remaining_time`, `cancelled`, the dialog result
  and the timer state. A pure `Session` model describes the same state. The
  event loop `Exec` is proved to follow `Play` over a sequence of timer
  timeouts, clicks on the cancel button and close requests (Esc or the
  window's close button). `Outcome` characterises the result: the first
  event that is not a timeout decides it. The dialog is accepted exactly
  when `remaining` timeouts come first. It is rejected exactly when a click
  or a close request comes first. It is cancelled only by the click: a
  close request rejects it with `cancelled` still false and the timer
  still running, and the window then does nothing.
- `main_window.dfy` (module `MainWindow`): the enable-checkbox handler, the
  arbitration after the dialog closes, the settings dialog's
  `save_settings`, and the status label.
  - The monitor thread is handed the configuration manager's dictionary
    itself, so each poll reads the window's latest writes (`PollMonitor`).
  - Qt's `setChecked` emits `stateChanged` only on an actual change, and the
    handler runs synchronously. So cancelling with the box ticked saves the
    configuration twice.
  - Both status lines are labelled with the `battery_charge` text, as the
    code writes them; the older script labels the first line "Питание".
- `translations.dfy` (module `Translations`):
  - The three translation tables: English, Russian and Ukrainian, 44 keys
    each.
  - The translator's lookup. A key missing from the current table comes
    back as the key itself.
  - `str.format` with keyword fields, system-language detection from a
    locale name, `set_language`, and the language names.
- `error_dialog.dfy` (module `ErrorDialog`): `show_error` and the
  `ErrorDialog` line normalisation. Neither `error_dialog_title` nor
  `unknown_error_occurred` is in any table, so both show as the bare key.
- `version_gen.dfy` (module `VersionGen`): the build script that reads
  `pyproject.toml` metadata with its defaults. It pads the dotted version
  to four parts and converts them with `int()`. A dotted integer version
  round-trips into `filevers`. A pre-release suffix makes the script raise.
- `legacy.dfy` (module `Legacy`): the single-file predecessor
  `battery_shutdown.py`.
  - Its own copy of the monitor loop is proved to take exactly the step of
    `src/core/monitor.py`.
  - Its Russian dialog message is proved equal to the Russian translation
    the newer dialog shows.
  - Its configuration has four keys and no `language`.
  - Its window keeps the dictionary itself.
- `strings.dfy` and `wrappers.dfy`: Python's `str.join`, `str.split`, `str()`
  and `int()` on decimal text, with their round trips. Plus `Option` and
  `Result`.

Time is whole seconds passed in as `now`. A battery reading is
`Some(Sample(onAc, percent))`, or `None` when no battery is reported.
Operating-system shutdown is counted in `shutdownsExecuted`. Tray
notifications are appended to `notices`. Each `save` appends the dictionary
it would write to `saved`.

## Model

| member | source | states |
|---|---|---|
| Monitor.BatteryMonitor.constructor | src/core/monitor.py:14-22 | the thread starts running, on AC, with no timer and no deadline |
| Monitor.BatteryMonitor.Poll | src/core/monitor.py:24-57 | one loop iteration updates the fields and emits exactly as `Step` prescribes, and keeps "a started timer has a deadline" |
| Monitor.BatteryMonitor.Stop | src/core/monitor.py:59-61 | `running` becomes false, so the loop ends |
| Monitor.Step | src/core/monitor.py:27-55 | the step keeps the invariant that a started timer has a deadline |
| Monitor.InertPoll | src/core/monitor.py:27-30 | a poll with monitoring disabled or no battery changes nothing and emits nothing |
| Monitor.ArmOnBatteryEdge | src/core/monitor.py:35-38 | on an AC-to-battery edge with no timer, the deadline is `now + delay_minutes*60`; it fires in that same poll only if the delay is not positive |
| Monitor.DeadlineNotReset | src/core/monitor.py:35-38 | a running timer's deadline is not moved by later battery polls |
| Monitor.DisarmOnReconnect | src/core/monitor.py:42-46 | a battery-to-AC edge stops the timer and clears the deadline |
| Monitor.EmitExactlyWhen | src/core/monitor.py:49-53 | `shutdown_triggered` is emitted if and only if enabled, on battery, armed, past the deadline and at or below the threshold; afterwards the timer is stopped |
| Monitor.StaysArmedAboveThreshold | src/core/monitor.py:49-50 | past the deadline but above the threshold, the timer stays armed with the same deadline |
| Monitor.RecordsPowerState | src/core/monitor.py:55 | an enabled poll with a battery records its power state |
| Monitor.FirstBatteryPollArms | src/core/monitor.py:20-38 | since `was_on_ac` starts true, the first enabled battery poll arms the timer |
| Monitor.FiringKeepsDeadline | src/core/monitor.py:35-53 | firing stops the timer but keeps the deadline: the running timer's, or the one set by the same poll |
| Monitor.StepReadsOnlyWhatItUses | src/core/monitor.py:35-50 | a poll depends on `delay_minutes` only when it starts the timer, and on `battery_percent` only when it is past the deadline on battery with the timer running |
| Monitor.Run | src/core/monitor.py:26-57 | a run of polls keeps the timer/deadline invariant |
| Monitor.EmitsBoundedByArms | src/core/monitor.py:35-53 | over any run, emissions are at most the timer starts, plus one if the timer was already running |
| Monitor.AtMostOneEmitBetweenArms | src/core/monitor.py:49-53 | between two timer starts there is at most one emission |
| Monitor.DisabledRunInert | src/core/monitor.py:27 | polls that all find monitoring disabled leave the state unchanged and emit nothing |
| Monitor.WorkedExample | src/core/monitor.py:35-55 | a 5-minute, 50% run: armed at t=0 with deadline 300, still armed at 80%, fires at 49%, does not fire again |
| Config.FillMissing | src/core/config.py:39-41 | the loop adding each missing default key yields the loaded entries plus exactly the missing defaults |
| Config.WithDefaults | src/core/config.py:37-42 | defines the merge: the loaded entries, plus each default key they lack with its default value; `FillMissing` computes it and `LoadKeepsFileEntries` states its properties |
| Config.Load | src/core/config.py:32-46 | a parsed file merged with the defaults; a missing or unreadable file gives the defaults |
| Config.Loaded | src/core/config.py:32-46 | defines `load`'s result for each kind of file; `LoadedHasDefaultKeys`, `LoadKeepsFileEntries`, `LoadWithoutFile` and `LoadIdempotent` state its properties |
| Config.ConfigManager.constructor | src/core/config.py:22-24 | the manager starts with the loaded dictionary and nothing saved |
| Config.ConfigManager.Set | src/core/config.py:60-62 | `set` overwrites one key |
| Config.ConfigManager.Update | src/core/config.py:64-66 | `update` merges the updates, which win over existing entries |
| Config.ConfigManager.Save | src/core/config.py:48-54 | `save` writes the current dictionary |
| Config.LoadedHasDefaultKeys | src/core/config.py:39-46 | after loading, every default key is present |
| Config.LoadKeepsFileEntries | src/core/config.py:37-42 | loading keeps every file entry unchanged, unknown keys included; the keys are the file's plus the defaults' |
| Config.LoadWithoutFile | src/core/config.py:14-46 | without a readable file the result is exactly the five defaults with their values |
| Config.LoadIdempotent | src/core/config.py:32-52 | loading what a load produced gives the same dictionary |
| Config.GetPresentOrDefault | src/core/config.py:56-58 | `get` returns the stored value, or the default when the key is absent |
| Config.Get | src/core/config.py:56-58 | defines `dict.get(key, default)`; `GetPresentOrDefault` states it |
| Config.GetAfterSet | src/core/config.py:56-62 | after `set(k, v)`, `get(k)` is `v` and other keys read as before |
| Config.GetAfterUpdate | src/core/config.py:56-66 | after `update(u)`, keys of `u` read as in `u` and others as before |
| ShutdownDialog.Tick | src/gui/shutdown_dialog.py:98-106 | one second less; the timer stops and the dialog is accepted exactly when one second or less was left, otherwise its result stays; the invariant holds |
| ShutdownDialog.Cancel | src/gui/shutdown_dialog.py:108-112 | cancelling records the cancellation, stops the timer and rejects, keeping the remaining time |
| ShutdownDialog.Close | src/gui/shutdown_dialog.py:13-14 | Esc or the close button of the inherited `QDialog` rejects without `cancel_shutdown`: `cancelled` stays false and the timer keeps running |
| ShutdownDialog.Deliver | src/gui/shutdown_dialog.py:86-112 | `exec_()`'s loop keeps the invariant, handles a timeout, a click or a close request while the dialog is shown, and ignores events once it has closed |
| ShutdownDialog.Play | src/gui/shutdown_dialog.py:86-112 | a sequence of events keeps the invariant |
| ShutdownDialog.LeadingTicks | src/gui/shutdown_dialog.py:86-112 | counts the timeouts before the first other event: all earlier events are timeouts, and the event it stops at is not one |
| ShutdownDialog.ClosedStaysClosed | src/gui/shutdown_dialog.py:104-112 | once accepted or rejected, no event changes the dialog |
| ShutdownDialog.Outcome | src/gui/shutdown_dialog.py:98-112 | accepted if and only if `remaining` timeouts come before any other event; rejected if and only if a click or a close request comes first; cancelled if and only if that event is the click; otherwise still counting down |
| ShutdownDialog.NewDialogOutcome | src/gui/shutdown_dialog.py:16-28 | a new dialog is accepted exactly after 30 leading timeouts, cancelled exactly when the button is clicked first, and rejected uncancelled exactly when Esc or close comes first |
| ShutdownDialog.EnglishMessage | src/gui/shutdown_dialog.py:92-96 | the English message reads "Computer will shut down in N seconds" |
| ShutdownDialog.Message | src/gui/shutdown_dialog.py:92-96 | defines the message as `get('computer_shutdown_in', seconds=...)`; `EnglishMessage` and `Legacy.MessageIsRussianTranslation` state its text |
| ShutdownDialog.ShutdownDialog.constructor | src/gui/shutdown_dialog.py:18-28 | 30 seconds, not cancelled, timer running, progress 30, message for 30; the alert plays once when `play_sound` is set |
| ShutdownDialog.ShutdownDialog.UpdateCountdown | src/gui/shutdown_dialog.py:98-106 | the fields follow `Tick`, and the progress bar and message show the new remaining time |
| ShutdownDialog.ShutdownDialog.CancelShutdown | src/gui/shutdown_dialog.py:108-112 | the fields follow `Cancel`; progress and message are unchanged |
| ShutdownDialog.ShutdownDialog.Reject | src/gui/shutdown_dialog.py:13-14 | Esc or the close button: the fields follow `Close`, so `cancelled` stays false |
| ShutdownDialog.ShutdownDialog.Exec | src/gui/shutdown_dialog.py:86-112 | handles events while the dialog is shown and returns once it closes, in the state `Play` gives, with its result |
| MainWindow.SavedSettingsReachMonitor | src/gui/settings_dialog.py:107-113 | saved spin-box values reach the monitor unchanged and can be read by the next poll; with a delay of at least one minute, the arming poll never fires at once |
| MainWindow.ClosedDialogDecides | src/gui/main_window.py:249-263 | a closed dialog leads to shutdown exactly when accepted, to disabling exactly when cancelled, and to nothing exactly when rejected without `cancelled` |
| MainWindow.DialogDecision | src/gui/main_window.py:244-263 | from a new dialog: shutdown if and only if 30 timeouts come first; disabling if and only if a click comes first; nothing if and only if Esc or close comes first |
| MainWindow.Arbitrate | src/gui/main_window.py:249-263 | defines the decision: `cancelled` first, then the accepted result; `ClosedDialogDecides` and `DialogDecision` state what it means |
| MainWindow.Countdown | src/gui/main_window.py:230-236 | the minutes are non-negative, the seconds are 0..59, and together they give back the remaining seconds |
| MainWindow.CountdownUnique | src/gui/main_window.py:232-233 | those are the only minutes and seconds that add up to the remaining time |
| MainWindow.CountdownShownWhen | src/gui/main_window.py:218-242 | no-battery text if and only if no battery; countdown shown if and only if enabled, on battery, timer running and deadline ahead, as minutes and seconds to the deadline |
| MainWindow.View | src/gui/main_window.py:218-233 | defines the decisions of `update_status`; `CountdownShownWhen` states them |
| MainWindow.Render | src/gui/main_window.py:220-242 | defines the label text of a view, both report lines labelled `battery_charge` |
| MainWindow.MainWindow.constructor | src/gui/main_window.py:35-149 | loads the configuration, applies a configured supported language (or keeps the detected one), starts the monitor fresh, ticks the checkbox from `enabled`, and shows the rendered status |
| MainWindow.MainWindow.OnEnableChanged | src/gui/main_window.py:193-204 | writes the checkbox state to `enabled` and saves; notifies only when it is on |
| MainWindow.MainWindow.SetChecked | src/gui/main_window.py:252 | the checkbox takes the value; the handler runs only when the state changes |
| MainWindow.MainWindow.DisableAfterCancel | src/gui/main_window.py:249-260 | `enabled` becomes false, the box is unticked (one extra save if it was ticked), then a save and the cancelled notification |
| MainWindow.MainWindow.ShowShutdownDialog | src/gui/main_window.py:244-263 | the outcome is the arbitration of the dialog's result. Shutdown: one `execute_shutdown`, configuration unchanged. Cancel: the disabling effects. Esc or close: nothing changes |
| MainWindow.MainWindow.SaveSettings | src/gui/settings_dialog.py:107-116 | the two spin boxes and the sound checkbox are merged into the configuration and saved |
| MainWindow.MainWindow.PollMonitor | src/gui/main_window.py:56-57 | the monitor's next poll reads the manager's current dictionary; it needs only the entries that poll reads |
| MainWindow.MainWindow.UpdateStatus | src/gui/main_window.py:216-242 | the label shows the rendered view of the reading, the `enabled` setting and the monitor's timer |
| MainWindow.CancelSilencesMonitor | src/gui/main_window.py:249-253 | after a cancel writes `enabled = False` to the shared dictionary, every later poll is inert |
| Translations.DetectSystemLanguage | src/i18n/translations.py:196-206 | detection always yields a language that has a table |
| Translations.AvailableLanguages | src/i18n/translations.py:220-222 | exactly the three supported codes, each once |
| Translations.Lower | src/i18n/translations.py:201 | lower-casing keeps the length and maps only A-Z to a-z |
| Translations.Translator.constructor | src/i18n/translations.py:193-194 | the translator starts in the detected language |
| Translations.Translator.SetLanguage | src/i18n/translations.py:215-218 | the language changes only to a supported code |
| Translations.UnsupportedReadsEnglish | src/i18n/translations.py:210 | an unsupported language code reads the English table |
| Translations.EnglishKeys | src/i18n/translations.py:10-68 | the English table has exactly the 44 translated keys |
| Translations.RussianKeys | src/i18n/translations.py:69-127 | the Russian table has exactly the 44 translated keys |
| Translations.UkrainianKeys | src/i18n/translations.py:128-186 | the Ukrainian table has exactly the 44 translated keys |
| Translations.TranslatedKeyReadsEntry | src/i18n/translations.py:208-213 | a table key reads as its entry in the current language's table |
| Translations.Lookup | src/i18n/translations.py:210 | defines the lookup: the current table, English for an unknown language, the key itself when absent; `UnsupportedReadsEnglish`, `TranslatedKeyReadsEntry` and `UntranslatedKeyIsItself` state it |
| Translations.UntranslatedKeyIsItself | src/i18n/translations.py:210 | a key in no table reads as itself in every language |
| Translations.ErrorDialogKeysUntranslated | src/i18n/translations.py:9-187 | `error_dialog_title` and `unknown_error_occurred` read as themselves |
| Translations.FormatPlain | src/i18n/translations.py:211-212 | a template without braces formats to itself |
| Translations.Format | src/i18n/translations.py:211-212 | defines `str.format` with keyword fields; `FormatPlain`, `FormatFieldFirst` and `FormatOneField` state it |
| Translations.FormatOneField | src/i18n/translations.py:211-212 | a single `{name}` field is replaced by the argument |
| Translations.FormatFieldFirst | src/i18n/translations.py:211-212 | a leading `{name}` field is replaced by its argument and the rest is formatted |
| Translations.FormatPlainFirst | src/i18n/translations.py:211-212 | a leading character other than a brace is kept |
| Translations.FormatOneFieldFirst | src/i18n/translations.py:211-212 | a field followed by brace-free text is replaced and the text kept |
| Translations.FormatOneFieldStep | src/i18n/translations.py:211-212 | a brace-free character before a template stays in front of its result |
| Translations.GetOneField | src/i18n/translations.py:208-213 | `get` with keyword arguments fills a one-field translation |
| Translations.Get | src/i18n/translations.py:208-213 | defines `get`: lookup, then formatting when keyword arguments are given; `GetOneField` states it |
| Translations.EnglishShutdownTemplate | src/i18n/translations.py:49 | the English `computer_shutdown_in` template |
| Translations.ShutdownMessageEnglish | src/i18n/translations.py:208-213 | the English shutdown message with the seconds filled in |
| Translations.RussianShutdownTemplate | src/i18n/translations.py:108 | the Russian `computer_shutdown_in` template |
| Translations.ShutdownMessageRussian | src/i18n/translations.py:208-213 | the Russian shutdown message with the seconds filled in |
| Translations.LocaleLanguageAt | src/i18n/translations.py:201 | the language part is the lower-cased text before the first `_` |
| Translations.LocaleLanguage | src/i18n/translations.py:201 | defines the language part of a locale name; `LocaleLanguageAt` states it |
| Translations.DetectLocaleName | src/i18n/translations.py:199-206 | a locale `lang_rest` is detected as the lower-cased `lang` when it has a table, and as English otherwise |
| Translations.DetectRussian | src/i18n/translations.py:196-206 | `ru_RU` is detected as ru |
| Translations.DetectUkrainian | src/i18n/translations.py:196-206 | `UK_UA` is detected as uk, because the language part is lower-cased |
| Translations.DetectGerman | src/i18n/translations.py:196-206 | `de_DE` has no table and gives en |
| Translations.DetectWithoutLocale | src/i18n/translations.py:198-206 | no locale, or an exception, gives English |
| Translations.EmptyLocaleLanguage | src/i18n/translations.py:200-201 | an empty locale name has an empty language part |
| Translations.DetectSupported | src/i18n/translations.py:200-203 | a locale whose language part has a table is detected as that language |
| Translations.LanguageNames | src/i18n/translations.py:224-231 | the three native names, and the code itself otherwise |
| Translations.LanguageName | src/i18n/translations.py:224-231 | defines `get_language_name`; `LanguageNames` states it |
| ErrorDialog.SingleMessageUnchanged | src/gui/error_dialog.py:38-43 | a single message is shown unchanged by both the dialog and `show_error` |
| ErrorDialog.DialogMatchesShowError | src/gui/error_dialog.py:11-18 | the dialog's label and `show_error`'s text agree for every message or list |
| ErrorDialog.LinesRecoverable | src/gui/error_dialog.py:56 | lines without newlines are recovered by splitting the label at newlines |
| ErrorDialog.UntranslatedFallback | src/gui/error_dialog.py:38-39 | with no messages the label is the key `unknown_error_occurred`; the title is `error_dialog_title` |
| ErrorDialog.ShowError | src/gui/error_dialog.py:11-25 | defines `show_error`'s message box; `SingleMessageUnchanged` and `DialogMatchesShowError` state it |
| ErrorDialog.Normalize | src/gui/error_dialog.py:37-43 | defines the normalisation to a list of lines; `SingleMessageUnchanged` and `UntranslatedFallback` state it |
| ErrorDialog.LabelText | src/gui/error_dialog.py:56 | defines the label text; `LinesRecoverable` and `DialogMatchesShowError` state it |
| VersionGen.Padded | utils/version_gen.py:21-22 | padding yields at least four parts and never fewer than given |
| VersionGen.PaddedShape | utils/version_gen.py:21-22 | padding keeps the given parts in front and adds only "0", and only up to four |
| VersionGen.PadToFour | utils/version_gen.py:21-22 | the padding loop computes `Padded` |
| VersionGen.ParseAll | utils/version_gen.py:23 | succeeds with each part's `int()` value if and only if every part parses |
| VersionGen.Generate | utils/version_gen.py:12-24 | the metadata, or the script's error, and `filevers` = `prodvers` from the padded version |
| VersionGen.ReadMetadata | utils/version_gen.py:12-17 | defines the metadata with its defaults; `DefaultProject` and `EmptyAuthorsFail` state it |
| VersionGen.FileVers | utils/version_gen.py:20-23 | defines `filevers`; `FirstFourParts`, `VersionRoundTrip` and `PreReleaseFails` state it |
| VersionGen.VersionRoundTrip | utils/version_gen.py:20-23 | a version written as dotted integers gives back its first four integers, padded with 0 |
| VersionGen.ParsePadded | utils/version_gen.py:21-23 | each of the first four padded number texts parses to its number, or 0 |
| VersionGen.IntToStringHasNoDot | utils/version_gen.py:20 | a number's text contains no dot |
| VersionGen.DefaultProject | utils/version_gen.py:12-17 | without a `[project]` table every default applies |
| VersionGen.EmptyAuthorsFail | utils/version_gen.py:16-17 | an empty `authors` list makes the script raise |
| VersionGen.FirstFourParts | utils/version_gen.py:20-23 | `filevers` is `int()` of the first four dotted parts, a missing part counting as "0" |
| VersionGen.NonIntegerPartFails | utils/version_gen.py:20-23 | a version with a non-numeric part among its first four makes `int()` raise |
| VersionGen.PreReleasePartNotInteger | utils/version_gen.py:23 | `int("0-beta")` raises |
| VersionGen.PreReleaseFails | utils/version_gen.py:20-23 | the version 1.0.0-beta makes `int()` raise |
| Strings.IndexOf | utils/version_gen.py:20 | the position of the first occurrence |
| Strings.Split | utils/version_gen.py:20 | at least one piece, and no piece contains the separator |
| Strings.IndexOfAt | src/i18n/translations.py:201 | the first separator is where one stands with none before it |
| Strings.SplitAfterPiece | utils/version_gen.py:20 | a piece and a separator in front: splitting yields that piece, then the pieces of the rest |
| Strings.FirstPiece | src/i18n/translations.py:201 | the first piece of a split is the text before the first separator |
| Strings.SplitJoin | src/gui/error_dialog.py:16 | splitting a join on a separator no part contains gives the parts back |
| Strings.JoinSplit | utils/version_gen.py:20 | joining a split restores the text |
| Strings.NatToString | src/gui/shutdown_dialog.py:95 | the decimal digits, without a leading zero |
| Strings.DigitsValueOfNatToString | utils/version_gen.py:23 | the digits read back as the number |
| Strings.ParseDigits | utils/version_gen.py:23 | `int()` of a run of digits is its value |
| Strings.ParseNegativeDigits | utils/version_gen.py:23 | `int()` of a minus sign and digits is the negated value |
| Strings.ParseIntOfIntToString | utils/version_gen.py:23 | `int(str(i)) == i` |
| Legacy.LegacyMonitor.constructor | battery_shutdown.py:396-404 | the legacy thread starts running, on AC, with no timer |
| Legacy.LegacyMonitor.Poll | battery_shutdown.py:406-438 | the legacy loop body takes exactly the step of the newer monitor |
| Legacy.LegacyMonitor.Stop | battery_shutdown.py:440-441 | `running` becomes false |
| Legacy.MessageIsRussianTranslation | battery_shutdown.py:93 | the legacy message equals the newer dialog's Russian message |
| Legacy.Message | battery_shutdown.py:93 | defines the hard-coded Russian message; `MessageIsRussianTranslation` states it |
| Legacy.LegacyShutdownDialog.constructor | battery_shutdown.py:20-30 | 30 seconds, timer running, progress 30, message for 30; the alert plays when asked |
| Legacy.LegacyShutdownDialog.UpdateCountdown | battery_shutdown.py:90-97 | the fields follow `Tick`; progress and message show the new remaining time |
| Legacy.LegacyShutdownDialog.CancelShutdown | battery_shutdown.py:99-102 | the fields follow `Cancel` |
| Legacy.LegacyShutdownDialog.Reject | battery_shutdown.py:19 | Esc or the close button: the fields follow `Close`, so `cancelled` stays false |
| Legacy.LegacyShutdownDialog.Exec | battery_shutdown.py:85-102 | the event loop follows `Play` while the dialog is shown and returns once it closes |
| Legacy.Load | battery_shutdown.py:467-486 | a parsed file merged with the four legacy defaults, or the defaults |
| Legacy.Loaded | battery_shutdown.py:467-486 | defines the legacy load's result; `LoadAgreesExceptLanguage` and `LoadedHasKeys` state it |
| Legacy.LoadAgreesExceptLanguage | battery_shutdown.py:468-486 | legacy and newer loading agree on every key except `language` |
| Legacy.LoadedHasKeys | battery_shutdown.py:468-486 | the four keys are always present after loading |
| Legacy.LegacyWindow.constructor | battery_shutdown.py:444-566 | loads the configuration, starts the monitor, ticks the box from `enabled`, and shows the rendered status |
| Legacy.LegacyWindow.OnEnableChanged | battery_shutdown.py:609-619 | writes the checkbox state and saves; notifies only when on |
| Legacy.LegacyWindow.SetChecked | battery_shutdown.py:664 | the handler runs only when the state changes |
| Legacy.LegacyWindow.DisableAfterCancel | battery_shutdown.py:661-672 | `enabled` false, box unticked (one extra save if it was ticked), save, cancelled notification |
| Legacy.LegacyWindow.ShowShutdownDialog | battery_shutdown.py:656-675 | the same arbitration as the newer window, with the legacy texts; Esc or close changes nothing |
| Legacy.LegacyWindow.PollMonitor | battery_shutdown.py:406-438 | the legacy monitor reads the window's own dictionary; it needs only the entries that poll reads |
| Legacy.LegacyWindow.UpdateStatus | battery_shutdown.py:633-654 | the same decisions as the newer label, in Russian, with the first line labelled "Питание" |
| Legacy.Render | battery_shutdown.py:633-654 | defines the legacy label text, in Russian, with the first line labelled "Питание" |

## Left out

- Threads, `time.sleep(2)` and the races between the monitor thread and the
  GUI thread: each poll is one atomic `Poll` call, and the order of polls
  and GUI events is chosen by the caller.
- Floating-point time and charge: `time.time()` and `percent` are whole
  numbers. So the `int()` truncation of the remaining time in
  `update_status` is not modelled.
- `psutil.sensors_battery()`, `locale.getdefaultlocale()`, the system clock
  and the alert sound are inputs or counters. OS shutdown commands
  (`src/utils/system.py`) are counted in `shutdownsExecuted`.
- Reading and writing the JSON file. A file that exists but does not hold a
  JSON object is treated like an unreadable one. JSON values other than
  null, booleans, integers and strings are not modelled.
- MainWindow.MainWindow.PollMonitor: requires every entry the poll reads to
  be readable. `enabled` must be present. `delay_minutes` must be an
  integer or a boolean when the poll starts the timer. `battery_percent`
  must be one when the poll compares the charge. Otherwise Python raises
  `KeyError` or `TypeError` and the thread dies; that failure is not
  modelled, and neither are floating-point settings.
- Legacy.LegacyWindow.PollMonitor: the same requirement as the newer window.
- After Esc or the close button the source leaves the dialog's timer
  running, and a later timeout accepts the hidden dialog. `exec_()` has
  returned by then and its result has been read, so `Deliver` ignores such
  timeouts; `UpdateCountdown` still allows them.
- Translations.Format: implements `{name}`, `{{` and `}}` only. Format
  specifications, conversions and positional or indexed fields are not
  modelled.
- Translations.Lower: lower-cases ASCII letters only. Strings.ParseInt:
  ASCII whitespace and digits, no underscores, no other Unicode digits.
- Qt widget layout, styles, icons, the tray menu, the help dialog and its
  content, the settings dialog's widgets and autostart
  (`src/utils/system.py`): user interface and OS integration with no
  decisions of the core.
- The start-up check in `MainWindow.__init__` that shows an error and exits
  when no battery is found, and the `--debug` variant. These are process
  exit and UI. `show_error` with `None` is not modelled: it is documented
  for a message or a list of messages.
- The translator is one global object. The dialogs take its current
  language as a parameter (`ShutdownDialog.ShutdownDialog.constructor`)
  rather than reading a shared global.
- VersionGen: writing `version.txt` and the string template around the
  numbers are not modelled. Specific numeric versions are covered by the
  general lemmas `VersionRoundTrip` and `FirstFourParts` instead of
  concrete examples.
- `utils/get_project_name.py` and `main.py` are not part of this model.
