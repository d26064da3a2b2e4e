/**
 * The main window of src/gui/main_window.py: the enable checkbox handler,
 * the arbitration after the shutdown dialog closes, the status label, and
 * the wiring of the shared configuration dictionary into the monitor.
 *
 * The monitor thread is handed `config_manager.config` itself, so every
 * change the window makes to the configuration is what the next poll reads;
 * `PollMonitor` models that by deriving each poll's settings from the
 * configuration manager's current dictionary.
 */
module MainWindow {
  import opened Wrappers
  import Strings
  import Config
  import Monitor
  import SD = ShutdownDialog
  import Translations

  /**
   * How `* 60` and `<=` read a JSON value: an integer as itself and a boolean
   * as 1 or 0, since Python's `bool` is an `int`; any other value raises
   * `TypeError`.
   */
  function AsNumber(v: Config.Value): Option<int>
  {
    match v
    case Int(i) => Some(i)
    case Bool(b) => Some(if b then 1 else 0)
    case _ => None
  }

  /** The numeric value of `c[key]`; 0 stands in for an entry that a poll does not read. */
  function NumberOr(c: Config.Dict, key: string): int
  {
    if key in c then AsNumber(c[key]).GetOr(0) else 0
  }

  /** What one poll reads: `config['enabled']` for its truth value, the delay and the threshold. */
  function MonitorSettings(c: Config.Dict): Monitor.Settings
    requires "enabled" in c
  {
    Monitor.Settings(Config.Truthy(c["enabled"]), NumberOr(c, "delay_minutes"), NumberOr(c, "battery_percent"))
  }

  /**
   * One poll can read the shared dictionary without raising: `enabled` is
   * always indexed, `delay_minutes` must be a number when the poll starts the
   * timer, and `battery_percent` when it compares the charge.
   */
  predicate PollReadable(c: Config.Dict, s: Monitor.MonitorState, sample: Option<Monitor.Sample>, now: int)
    requires Monitor.Inv(s)
  {
    && "enabled" in c
    && (Monitor.StartsTimer(s, sample, Config.Truthy(c["enabled"])) ==>
          "delay_minutes" in c && AsNumber(c["delay_minutes"]).Some?)
    && (Monitor.TestsThreshold(s, sample, now, MonitorSettings(c)) ==>
          "battery_percent" in c && AsNumber(c["battery_percent"]).Some?)
  }

  /** The dictionary `SettingsDialog.save_settings` passes to `update`: the two spin boxes and the sound checkbox. */
  function SettingsUpdate(delay: int, percent: int, sound: bool): Config.Dict
  {
    map["delay_minutes" := Config.Int(delay), "battery_percent" := Config.Int(percent), "sound_enabled" := Config.Bool(sound)]
  }

  /**
   * Saved settings reach the monitor as they were entered, and with the
   * spin box's smallest delay of one minute the poll that starts the timer
   * never fires at once.
   */
  lemma SavedSettingsReachMonitor(c: Config.Dict, delay: int, percent: int, sound: bool, s: Monitor.MonitorState, p: int, now: int)
    requires "enabled" in c
    requires 1 <= delay <= 60 && 1 <= percent <= 100
    requires Monitor.Inv(s) && s.wasOnAc && !s.timerStarted
    ensures var c2 := c + SettingsUpdate(delay, percent, sound);
      && PollReadable(c2, s, Some(Monitor.Sample(false, p)), now)
      && MonitorSettings(c2) == Monitor.Settings(Config.Truthy(c["enabled"]), delay, percent)
      && !Monitor.Step(s, Some(Monitor.Sample(false, p)), now, MonitorSettings(c2)).1
  {
    var c2 := c + SettingsUpdate(delay, percent, sound);
    assert c2["enabled"] == c["enabled"];
    if Config.Truthy(c["enabled"]) {
      Monitor.ArmOnBatteryEdge(s, p, now, MonitorSettings(c2));
    }
  }

  /** What `show_shutdown_dialog` does once the dialog has closed. */
  datatype Outcome = DisableMonitoring | ShutDown | NoAction

  /** A cancelled dialog disables monitoring; otherwise an accepted one shuts down. */
  function Arbitrate(cancelled: bool, result: SD.Status): Outcome
  {
    if cancelled then DisableMonitoring
    else if result == SD.Accepted then ShutDown
    else NoAction
  }

  /**
   * What a closed dialog leads to: shutdown when it was accepted, disabling
   * when the cancel button rejected it, and nothing when Esc or the close
   * button rejected it.
   */
  lemma ClosedDialogDecides(s: SD.Session)
    requires SD.SessionInv(s) && s.status != SD.Open
    ensures Arbitrate(s.cancelled, s.status) == ShutDown <==> s.status == SD.Accepted
    ensures Arbitrate(s.cancelled, s.status) == DisableMonitoring <==> s.status == SD.Rejected && s.cancelled
    ensures Arbitrate(s.cancelled, s.status) == NoAction <==> s.status == SD.Rejected && !s.cancelled
  {
  }

  /**
   * From a freshly shown dialog, the first event other than a timeout
   * decides: the computer is shut down exactly when 30 timeouts come first,
   * monitoring is disabled exactly when a click on the cancel button comes
   * first, and nothing happens exactly when Esc or the close button comes
   * first.
   */
  lemma DialogDecision(events: seq<SD.Event>)
    requires SD.Play(SD.NewSession, events).status != SD.Open
    ensures var r := SD.Play(SD.NewSession, events);
      var n := SD.LeadingTicks(events);
      && (Arbitrate(r.cancelled, r.status) == ShutDown <==> n >= SD.CountdownSeconds)
      && (Arbitrate(r.cancelled, r.status) == DisableMonitoring <==>
            n < SD.CountdownSeconds && n < |events| && events[n] == SD.CancelClick)
      && (Arbitrate(r.cancelled, r.status) == NoAction <==>
            n < SD.CountdownSeconds && n < |events| && events[n] == SD.CloseRequest)
  {
    var r := SD.Play(SD.NewSession, events);
    SD.NewDialogOutcome(events);
    ClosedDialogDecides(r);
  }

  /** `remaining // 60` and `remaining % 60`: whole minutes and the seconds left over. */
  function Countdown(remaining: int): (r: (int, int))
    requires remaining > 0
    ensures r.0 >= 0 && 0 <= r.1 < 60
    ensures r.0 * 60 + r.1 == remaining
  {
    (remaining / 60, remaining % 60)
  }

  /** The minutes and seconds shown are the only ones that add back up to the remaining time. */
  lemma CountdownUnique(remaining: int, mins: int, secs: int)
    requires remaining > 0
    requires 0 <= secs < 60 && mins * 60 + secs == remaining
    ensures Countdown(remaining) == (mins, secs)
  {
  }

  /** What the status label reports. */
  datatype StatusView =
    | NoBattery
    | Report(onAc: bool, percent: int, enabled: bool, countdown: Option<(int, int)>)

  /**
   * The decisions of `update_status`: no battery, or the power state and
   * charge, whether monitoring is enabled and, when enabled on battery with
   * the timer running and time left, the minutes and seconds until shutdown.
   * The remaining time is the deadline minus `now` in whole seconds.
   */
  function View(sample: Option<Monitor.Sample>, enabled: bool, m: Monitor.MonitorState, now: int): StatusView
    requires Monitor.Inv(m)
  {
    match sample
    case None => NoBattery
    case Some(b) =>
      var countdown :=
        if enabled && !b.onAc && m.timerStarted && m.shutdownTime.value - now > 0
        then Some(Countdown(m.shutdownTime.value - now))
        else None;
      Report(b.onAc, b.percent, enabled, countdown)
  }

  /**
   * The countdown line appears exactly when monitoring is enabled, the
   * machine is on battery, the timer runs and its deadline is still ahead;
   * it then shows the time to the deadline as minutes and seconds.
   */
  lemma CountdownShownWhen(sample: Option<Monitor.Sample>, enabled: bool, m: Monitor.MonitorState, now: int)
    requires Monitor.Inv(m)
    ensures var v := View(sample, enabled, m, now);
      && (v.NoBattery? <==> sample.None?)
      && (v.Report? && v.countdown.Some? <==>
            sample.Some? && enabled && !sample.value.onAc && m.timerStarted && m.shutdownTime.value > now)
      && (v.Report? && v.countdown.Some? ==>
            var (mins, secs) := v.countdown.value;
            mins * 60 + secs == m.shutdownTime.value - now && 0 <= secs < 60)
  {
  }

  /**
   * The label text. Both report lines carry the `battery_charge` label: the
   * first one followed by the power state, the second by the percentage.
   */
  function Render(lang: string, v: StatusView): string
  {
    var T := (key: string) => Translations.Lookup(lang, key);
    match v
    case NoBattery => T("battery_not_detected")
    case Report(onAc, percent, enabled, countdown) =>
      var status := if onAc then T("power_connected") else T("power_battery");
      var head := T("battery_charge") + ": " + status + "\n"
                + T("battery_charge") + ": " + Strings.IntToString(percent) + "%\n";
      if enabled then
        head + "\n" + T("auto_shutdown_enabled")
        + match countdown
          case None => ""
          case Some((mins, secs)) =>
            "\n" + T("time_until_shutdown") + ": "
            + Strings.IntToString(mins) + " " + T("minutes_short") + " "
            + Strings.IntToString(secs) + " " + T("seconds_short")
      else
        head + "\n" + T("auto_shutdown_disabled")
  }

  /** A tray notification: title and message. */
  datatype Notice = Notice(title: string, message: string)

  /** The notification after the checkbox is ticked. */
  function EnabledNotice(lang: string): Notice
  {
    Notice(Translations.Lookup(lang, "auto_shutdown_on"), Translations.Lookup(lang, "function_enabled"))
  }

  /** The notification after the shutdown is cancelled. */
  function CancelledNotice(lang: string): Notice
  {
    Notice(Translations.Lookup(lang, "shutdown_cancelled"), Translations.Lookup(lang, "auto_shutdown_disabled_msg"))
  }

  /** The window's state and the objects it owns. */
  class MainWindow {
    const configManager: Config.ConfigManager
    const monitor: Monitor.BatteryMonitor
    const translator: Translations.Translator
    /** The enable checkbox. */
    var enableChecked: bool
    /** Calls of `execute_shutdown`. */
    var shutdownsExecuted: nat
    /** Tray notifications shown, oldest first. */
    var notices: seq<Notice>
    var statusText: string

    predicate Valid()
      reads this, monitor, translator
    {
      monitor.Valid() && translator.Valid()
    }

    /**
     * `__init__` without its user interface: the configuration is loaded,
     * a configured language is applied, the monitor starts, the checkbox
     * shows the `enabled` setting, and `init_ui` ends with `update_status`
     * for the battery reading `sample` at time `now`.
     */
    constructor (file: Config.ConfigFile, locale: Translations.LocaleQuery, sample: Option<Monitor.Sample>, now: int)
      ensures Valid() && monitor.running && monitor.State() == Monitor.Initial
      ensures configManager.config == Config.Loaded(file) && configManager.saved == []
      ensures var language := Config.Get(Config.Loaded(file), "language", Config.Null);
        translator.currentLanguage ==
          if Config.Truthy(language) && language.Str? && Translations.Supported(language.s)
          then language.s else Translations.DetectSystemLanguage(locale)
      ensures enableChecked == Config.Truthy(Config.Get(Config.Loaded(file), "enabled", Config.Null))
      ensures shutdownsExecuted == 0 && notices == []
      ensures statusText == Render(translator.currentLanguage, View(sample, enableChecked, Monitor.Initial, now))
      ensures fresh(configManager) && fresh(monitor) && fresh(translator)
    {
      var cm := new Config.ConfigManager(file);
      var tr := new Translations.Translator(locale);
      var language := cm.GetOr("language", Config.Null);
      if Config.Truthy(language) && language.Str? {
        tr.SetLanguage(language.s);
      }
      var mon := new Monitor.BatteryMonitor();
      configManager := cm;
      translator := tr;
      monitor := mon;
      var checked := Config.Truthy(cm.GetOr("enabled", Config.Null));
      enableChecked := checked;
      shutdownsExecuted := 0;
      notices := [];
      statusText := Render(tr.currentLanguage, View(sample, checked, mon.State(), now));
    }

    /**
     * `on_enable_changed`: the checkbox state is written to `enabled` and
     * saved; turning it on shows a notification.
     */
    method OnEnableChanged()
      modifies configManager
      modifies this`notices
      ensures configManager.config == old(configManager.config)["enabled" := Config.Bool(enableChecked)]
      ensures configManager.saved == old(configManager.saved) + [configManager.config]
      ensures notices == old(notices) +
        if enableChecked then [EnabledNotice(translator.currentLanguage)] else []
    {
      configManager.Set("enabled", Config.Bool(enableChecked));
      configManager.Save();
      if Config.Truthy(configManager.GetOr("enabled", Config.Null)) {
        notices := notices + [EnabledNotice(translator.currentLanguage)];
      }
    }

    /** `enable_checkbox.setChecked(checked)`: Qt signals `stateChanged` only when the state changes. */
    method SetChecked(checked: bool)
      modifies this`enableChecked, this`notices, configManager
      ensures enableChecked == checked
      ensures old(enableChecked) == checked ==>
        && configManager.config == old(configManager.config)
        && configManager.saved == old(configManager.saved) && notices == old(notices)
      ensures old(enableChecked) != checked ==>
        && configManager.config == old(configManager.config)["enabled" := Config.Bool(checked)]
        && configManager.saved == old(configManager.saved) + [configManager.config]
        && notices == old(notices) + if checked then [EnabledNotice(translator.currentLanguage)] else []
    {
      if enableChecked != checked {
        enableChecked := checked;
        OnEnableChanged();
      }
    }

    /**
     * The cancelled branch of `show_shutdown_dialog`: `enabled` becomes false,
     * the checkbox is unticked (its handler saves once more when it was
     * ticked), the dictionary is saved and a notification is shown.
     */
    method DisableAfterCancel()
      modifies this`enableChecked, this`notices, configManager
      ensures configManager.config == old(configManager.config)["enabled" := Config.Bool(false)]
      ensures configManager.saved == old(configManager.saved) + (if old(enableChecked) then [configManager.config] else []) + [configManager.config]
      ensures !enableChecked
      ensures notices == old(notices) + [CancelledNotice(translator.currentLanguage)]
    {
      configManager.Set("enabled", Config.Bool(false));
      SetChecked(false);
      configManager.Save();
      notices := notices + [CancelledNotice(translator.currentLanguage)];
    }

    /**
     * `show_shutdown_dialog`: the dialog is shown with the `sound_enabled`
     * setting and runs through `events` until it closes. A cancelled dialog
     * sets `enabled` to false, unticks the checkbox (whose handler saves
     * once more when it was ticked), saves and notifies; an accepted one
     * calls `execute_shutdown`; one rejected by Esc or the close button,
     * with `cancelled` still false, changes nothing.
     */
    method ShowShutdownDialog(events: seq<SD.Event>) returns (outcome: Outcome)
      requires SD.Play(SD.NewSession, events).status != SD.Open
      modifies this`enableChecked, this`notices, this`shutdownsExecuted, configManager
      ensures var r := SD.Play(SD.NewSession, events);
        outcome == Arbitrate(r.cancelled, r.status)
      ensures outcome == NoAction ==>
        && shutdownsExecuted == old(shutdownsExecuted)
        && configManager.config == old(configManager.config)
        && configManager.saved == old(configManager.saved)
        && enableChecked == old(enableChecked) && notices == old(notices)
      ensures outcome == ShutDown ==>
        && shutdownsExecuted == old(shutdownsExecuted) + 1
        && configManager.config == old(configManager.config)
        && configManager.saved == old(configManager.saved)
        && enableChecked == old(enableChecked) && notices == old(notices)
      ensures outcome == DisableMonitoring ==>
        && shutdownsExecuted == old(shutdownsExecuted)
        && configManager.config == old(configManager.config)["enabled" := Config.Bool(false)]
        && configManager.saved == old(configManager.saved) + (if old(enableChecked) then [configManager.config] else []) + [configManager.config]
        && !enableChecked
        && notices == old(notices) + [CancelledNotice(translator.currentLanguage)]
    {
      var playSound := Config.Truthy(configManager.GetOr("sound_enabled", Config.Null));
      var dialog := new SD.ShutdownDialog(translator.currentLanguage, playSound);
      var result := dialog.Exec(events);
      SD.NewDialogOutcome(events);
      if dialog.cancelled {
        DisableAfterCancel();
        outcome := DisableMonitoring;
      } else if result == SD.Accepted {
        shutdownsExecuted := shutdownsExecuted + 1;
        outcome := ShutDown;
      } else {
        outcome := NoAction;
      }
    }

    /**
     * `SettingsDialog.save_settings`: the spin box values, which Qt keeps
     * within 1..60 minutes and 1..100 percent, and the sound checkbox are
     * written with `update` and saved.
     */
    method SaveSettings(delay: int, percent: int, sound: bool)
      requires 1 <= delay <= 60 && 1 <= percent <= 100
      modifies configManager
      ensures configManager.config == old(configManager.config) + SettingsUpdate(delay, percent, sound)
      ensures configManager.saved == old(configManager.saved) + [configManager.config]
    {
      configManager.Update(SettingsUpdate(delay, percent, sound));
      configManager.Save();
    }

    /** One iteration of the monitor thread, reading the dictionary it shares with the configuration manager. */
    method PollMonitor(sample: Option<Monitor.Sample>, now: int) returns (emitted: bool)
      requires monitor.Valid() && monitor.running
      requires PollReadable(configManager.config, monitor.State(), sample, now)
      modifies monitor
      ensures monitor.Valid() && monitor.running
      ensures (monitor.State(), emitted) == Monitor.Step(old(monitor.State()), sample, now, MonitorSettings(configManager.config))
    {
      emitted := monitor.Poll(sample, now, MonitorSettings(configManager.config));
    }

    /** `update_status` with the battery reading and the clock passed in. */
    method UpdateStatus(sample: Option<Monitor.Sample>, now: int)
      requires monitor.Valid()
      modifies this`statusText
      ensures statusText == Render(translator.currentLanguage,
        View(sample, Config.Truthy(configManager.GetOr("enabled", Config.Null)), monitor.State(), now))
    {
      var enabled := Config.Truthy(configManager.GetOr("enabled", Config.Null));
      statusText := Render(translator.currentLanguage, View(sample, enabled, monitor.State(), now));
    }
  }

  /**
   * After a cancelled dialog the shared dictionary says `enabled` is false,
   * so every later poll leaves the monitor as it is and emits nothing, until
   * the setting is turned on again.
   */
  lemma CancelSilencesMonitor(c: Config.Dict, s: Monitor.MonitorState, polls: seq<Monitor.PollInput>)
    requires Monitor.Inv(s)
    requires forall k :: 0 <= k < |polls| ==> polls[k].cfg == MonitorSettings(c["enabled" := Config.Bool(false)])
    ensures Monitor.Run(s, polls) == (s, 0, 0)
  {
    Monitor.DisabledRunInert(s, polls);
  }
}
