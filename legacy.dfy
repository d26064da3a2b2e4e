/**
 * The single-file predecessor battery_shutdown.py: its own copy of the
 * monitor loop, proved to take the same step as src/core/monitor.py; its
 * dialog, whose countdown follows the same `Session` rules as the
 * ShutdownDialog module; the Russian texts written into the code; the
 * four-key default configuration without `language`; and a window that
 * keeps the configuration dictionary itself instead of a configuration
 * manager.
 */
module Legacy {
  import opened Wrappers
  import Strings
  import Config
  import Monitor
  import SD = ShutdownDialog
  import MW = MainWindow
  import Translations

  // ---------------------------------------------------------------------------
  // Monitor thread
  // ---------------------------------------------------------------------------

  /** The legacy monitor thread, with the fields and loop body of battery_shutdown.py. */
  class LegacyMonitor {
    var wasOnAc: bool
    var timerStarted: bool
    var shutdownTime: Option<int>
    var running: bool

    function State(): Monitor.MonitorState
      reads this
    {
      Monitor.MonitorState(wasOnAc, timerStarted, shutdownTime)
    }

    predicate Valid()
      reads this
    {
      Monitor.Inv(State())
    }

    constructor ()
      ensures Valid() && running && State() == Monitor.Initial
    {
      running := true;
      wasOnAc := true;
      timerStarted := false;
      shutdownTime := None;
    }

    /** One pass of the legacy loop body: it takes exactly the step of the newer monitor. */
    method Poll(sample: Option<Monitor.Sample>, now: int, cfg: Monitor.Settings) returns (emitted: bool)
      requires Valid() && running
      modifies this
      ensures Valid() && running
      ensures (State(), emitted) == Monitor.Step(old(State()), sample, now, cfg)
    {
      emitted := false;
      if cfg.enabled && sample.Some? {
        var onAc := sample.value.onAc;
        var percent := sample.value.percent;
        if wasOnAc && !onAc && !timerStarted {
          timerStarted := true;
          shutdownTime := Some(now + cfg.delayMinutes * 60);
        }
        if !wasOnAc && onAc && timerStarted {
          timerStarted := false;
          shutdownTime := None;
        }
        if timerStarted && !onAc && now >= shutdownTime.value && percent <= cfg.batteryPercent {
          emitted := true;
          timerStarted := false;
        }
        wasOnAc := onAc;
      }
    }

    /** `stop`. */
    method Stop()
      modifies this`running
      ensures !running
    {
      running := false;
    }
  }

  // ---------------------------------------------------------------------------
  // Shutdown dialog
  // ---------------------------------------------------------------------------

  /** The dialog's message, written into the code in Russian. */
  function Message(remaining: int): string
  {
    "Компьютер будет выключен через " + Strings.IntToString(remaining) + " секунд"
  }

  /** The legacy message is the Russian translation the newer dialog shows. */
  lemma MessageIsRussianTranslation(remaining: int)
    ensures Success(Message(remaining)) == SD.Message("ru", remaining)
  {
    Translations.ShutdownMessageRussian(Strings.IntToString(remaining));
  }

  /** The dialog of battery_shutdown.py: a 30-second countdown and a cancel button. */
  class LegacyShutdownDialog {
    var remainingTime: int
    var cancelled: bool
    var status: SD.Status
    var timerActive: bool
    const playSound: bool
    var progressValue: int
    var message: string
    var alertsPlayed: nat

    function State(): SD.Session
      reads this
    {
      SD.Session(remainingTime, cancelled, status, timerActive)
    }

    /** The progress bar and the label always show the remaining time. */
    predicate Valid()
      reads this
    {
      SD.SessionInv(State()) && progressValue == remainingTime && message == Message(remainingTime)
    }

    /** `__init__`: `remaining_time` starts at 30, the label reads 30 seconds, the alert sounds when asked. */
    constructor (playSound: bool)
      ensures Valid() && State() == SD.NewSession
      ensures this.playSound == playSound
      ensures alertsPlayed == (if playSound then 1 else 0)
    {
      this.playSound := playSound;
      cancelled := false;
      remainingTime := 30;
      status := SD.Open;
      timerActive := true;
      progressValue := 30;
      message := Message(30);
      alertsPlayed := if playSound then 1 else 0;
    }

    /** `update_countdown`, called by the running timer. */
    method UpdateCountdown()
      requires Valid() && timerActive
      modifies this
      ensures Valid() && State() == SD.Tick(old(State()))
      ensures alertsPlayed == old(alertsPlayed)
    {
      remainingTime := remainingTime - 1;
      progressValue := remainingTime;
      message := Message(remainingTime);
      if remainingTime <= 0 {
        timerActive := false;
        status := SD.Accepted;
      }
    }

    /** `cancel_shutdown`. */
    method CancelShutdown()
      requires Valid()
      modifies this
      ensures Valid() && State() == SD.Cancel(old(State()))
      ensures progressValue == old(progressValue) && message == old(message) && alertsPlayed == old(alertsPlayed)
    {
      cancelled := true;
      timerActive := false;
      status := SD.Rejected;
    }

    /** Esc or the window's close button: `reject()` without `cancel_shutdown`. */
    method Reject()
      requires Valid() && status == SD.Open
      modifies this`status
      ensures Valid() && State() == SD.Close(old(State()))
    {
      status := SD.Rejected;
    }

    /** `exec_()`: the events are handled while the dialog is shown; it returns once the dialog has closed. */
    method Exec(events: seq<SD.Event>) returns (result: SD.Status)
      requires Valid()
      requires SD.Play(State(), events).status != SD.Open
      modifies this
      ensures Valid() && State() == SD.Play(old(State()), events)
      ensures result == status && result != SD.Open
    {
      var n := 0;
      while n < |events| && status == SD.Open
        invariant 0 <= n <= |events|
        invariant Valid()
        invariant SD.Play(old(State()), events) == SD.Play(State(), events[n..])
        decreases |events| - n
      {
        var e := events[n];
        ghost var before := State();
        assert events[n..] == [e] + events[n + 1..];
        match e {
          case TimerTick => UpdateCountdown();
          case CancelClick => CancelShutdown();
          case CloseRequest => Reject();
        }
        assert State() == SD.Deliver(before, e);
        n := n + 1;
      }
      if n < |events| {
        SD.ClosedStaysClosed(State(), events[n..]);
      }
      result := status;
    }
  }

  // ---------------------------------------------------------------------------
  // Configuration
  // ---------------------------------------------------------------------------

  /** The keys of `load_config`'s defaults, in order. */
  const DefaultKeys: seq<string> := ["enabled", "delay_minutes", "battery_percent", "sound_enabled"]

  /** `load_config`'s `default_config`: the newer defaults without `language`. */
  const DefaultConfig: Config.Dict := map[
    "enabled" := Config.Bool(false),
    "delay_minutes" := Config.Int(5),
    "battery_percent" := Config.Int(50),
    "sound_enabled" := Config.Bool(true)
  ]

  /** The dictionary `load_config` returns for each kind of file. */
  function Loaded(file: Config.ConfigFile): Config.Dict
  {
    match file
    case Parsed(m) => Config.WithDefaults(m, DefaultConfig)
    case _ => DefaultConfig
  }

  /** `load_config`: a readable file's entries with the missing defaults filled in, or the defaults. */
  method Load(file: Config.ConfigFile) returns (r: Config.Dict)
    ensures r == Loaded(file)
  {
    match file {
      case Parsed(m) =>
        r := Config.FillMissing(m, DefaultKeys, DefaultConfig);
      case _ =>
        r := DefaultConfig;
    }
  }

  /**
   * The legacy defaults are the newer ones without `language`: on every
   * other key both loads agree, and `language` is present after a legacy
   * load only when the file has it.
   */
  lemma LoadAgreesExceptLanguage(file: Config.ConfigFile, key: string)
    ensures key != "language" ==>
      (key in Loaded(file) <==> key in Config.Loaded(file))
      && (key in Loaded(file) ==> Loaded(file)[key] == Config.Loaded(file)[key])
    ensures "language" in Loaded(file) <==> file.Parsed? && "language" in file.contents
  {
    Config.LoadWithoutFile();
  }

  /** Whatever the file, the loaded dictionary has the four keys the window and the monitor index. */
  lemma LoadedHasKeys(file: Config.ConfigFile)
    ensures DefaultConfig.Keys <= Loaded(file).Keys
    ensures DefaultConfig.Keys == {"enabled", "delay_minutes", "battery_percent", "sound_enabled"}
  {
  }

  // ---------------------------------------------------------------------------
  // Main window
  // ---------------------------------------------------------------------------

  /** The notification after the checkbox is ticked. */
  const EnabledNotice := MW.Notice("Автовыключение", "Функция автовыключения включена")

  /** The notification after the shutdown is cancelled. */
  const CancelledNotice := MW.Notice("Выключение отменено", "Автовыключение было отключено")

  /** `update_status`'s text, in Russian; the first line is labelled with the power state. */
  function Render(v: MW.StatusView): string
  {
    match v
    case NoBattery => "Батарея не обнаружена"
    case Report(onAc, percent, enabled, countdown) =>
      var status := if onAc then "Подключено к сети" else "Работа от батареи";
      var head := "Питание: " + status + "\n" + "Заряд батареи: " + Strings.IntToString(percent) + "%\n";
      if enabled then
        head + "\n✓ Автовыключение включено"
        + match countdown
          case None => ""
          case Some((mins, secs)) =>
            "\n⏱ До выключения: " + Strings.IntToString(mins) + " мин " + Strings.IntToString(secs) + " сек"
      else
        head + "\n✗ Автовыключение выключено"
  }

  /** The legacy window: it keeps the configuration dictionary, shared with its monitor thread. */
  class LegacyWindow {
    var config: Config.Dict
    /** Every dictionary `save_config` has written, oldest first. */
    var saved: seq<Config.Dict>
    const monitor: LegacyMonitor
    var enableChecked: bool
    var shutdownsExecuted: nat
    var notices: seq<MW.Notice>
    var statusText: string

    /** The four default keys are always present, as `load_config` guarantees and the handlers keep. */
    predicate Valid()
      reads this
    {
      DefaultConfig.Keys <= config.Keys
    }

    /** `__init__` without its user interface; `init_ui` ends with `update_status` for the reading `sample` at time `now`. */
    constructor (file: Config.ConfigFile, sample: Option<Monitor.Sample>, now: int)
      ensures Valid() && config == Loaded(file) && saved == []
      ensures monitor.Valid() && monitor.running && monitor.State() == Monitor.Initial
      ensures enableChecked == Config.Truthy(Loaded(file)["enabled"])
      ensures shutdownsExecuted == 0 && notices == []
      ensures statusText == Render(MW.View(sample, enableChecked, Monitor.Initial, now))
      ensures fresh(monitor)
    {
      var loaded := Load(file);
      LoadedHasKeys(file);
      config := loaded;
      saved := [];
      var mon := new LegacyMonitor();
      monitor := mon;
      var checked := Config.Truthy(loaded["enabled"]);
      enableChecked := checked;
      shutdownsExecuted := 0;
      notices := [];
      statusText := Render(MW.View(sample, checked, mon.State(), now));
    }

    /** `on_enable_changed`: the checkbox state is written and saved; turning it on notifies. */
    method OnEnableChanged()
      requires Valid()
      modifies this`config, this`saved, this`notices
      ensures Valid()
      ensures config == old(config)["enabled" := Config.Bool(enableChecked)]
      ensures saved == old(saved) + [config]
      ensures notices == old(notices) + if enableChecked then [EnabledNotice] else []
    {
      config := config["enabled" := Config.Bool(enableChecked)];
      saved := saved + [config];
      if Config.Truthy(config["enabled"]) {
        notices := notices + [EnabledNotice];
      }
    }

    /** `enable_checkbox.setChecked(checked)`: the handler runs only when the state changes. */
    method SetChecked(checked: bool)
      requires Valid()
      modifies this`enableChecked, this`config, this`saved, this`notices
      ensures Valid() && enableChecked == checked
      ensures old(enableChecked) == checked ==>
        config == old(config) && saved == old(saved) && notices == old(notices)
      ensures old(enableChecked) != checked ==>
        && config == old(config)["enabled" := Config.Bool(checked)]
        && saved == old(saved) + [config]
        && notices == old(notices) + if checked then [EnabledNotice] else []
    {
      if enableChecked != checked {
        enableChecked := checked;
        OnEnableChanged();
      }
    }

    /** The cancelled branch of `show_shutdown_dialog`. */
    method DisableAfterCancel()
      requires Valid()
      modifies this`enableChecked, this`config, this`saved, this`notices
      ensures Valid()
      ensures config == old(config)["enabled" := Config.Bool(false)]
      ensures saved == old(saved) + (if old(enableChecked) then [config] else []) + [config]
      ensures !enableChecked
      ensures notices == old(notices) + [CancelledNotice]
    {
      config := config["enabled" := Config.Bool(false)];
      SetChecked(false);
      saved := saved + [config];
      notices := notices + [CancelledNotice];
    }

    /**
     * `show_shutdown_dialog`: the dialog plays the alert when `sound_enabled`
     * is set; a cancelled dialog disables monitoring and saves, an accepted
     * one calls `execute_shutdown`, and one closed by Esc or the close button
     * changes nothing.
     */
    method ShowShutdownDialog(events: seq<SD.Event>) returns (outcome: MW.Outcome)
      requires Valid()
      requires SD.Play(SD.NewSession, events).status != SD.Open
      modifies this`enableChecked, this`config, this`saved, this`notices, this`shutdownsExecuted
      ensures Valid()
      ensures var r := SD.Play(SD.NewSession, events);
        outcome == MW.Arbitrate(r.cancelled, r.status)
      ensures outcome == MW.NoAction ==>
        && shutdownsExecuted == old(shutdownsExecuted) && config == old(config) && saved == old(saved)
        && enableChecked == old(enableChecked) && notices == old(notices)
      ensures outcome == MW.ShutDown ==>
        && shutdownsExecuted == old(shutdownsExecuted) + 1 && config == old(config) && saved == old(saved)
        && enableChecked == old(enableChecked) && notices == old(notices)
      ensures outcome == MW.DisableMonitoring ==>
        && shutdownsExecuted == old(shutdownsExecuted)
        && config == old(config)["enabled" := Config.Bool(false)]
        && saved == old(saved) + (if old(enableChecked) then [config] else []) + [config]
        && !enableChecked && notices == old(notices) + [CancelledNotice]
    {
      var dialog := new LegacyShutdownDialog(Config.Truthy(config["sound_enabled"]));
      var result := dialog.Exec(events);
      SD.NewDialogOutcome(events);
      if dialog.cancelled {
        DisableAfterCancel();
        outcome := MW.DisableMonitoring;
      } else if result == SD.Accepted {
        shutdownsExecuted := shutdownsExecuted + 1;
        outcome := MW.ShutDown;
      } else {
        outcome := MW.NoAction;
      }
    }

    /** One iteration of the legacy monitor loop, reading the dictionary the window shares with it. */
    method PollMonitor(sample: Option<Monitor.Sample>, now: int) returns (emitted: bool)
      requires monitor.Valid() && monitor.running
      requires MW.PollReadable(config, monitor.State(), sample, now)
      modifies monitor
      ensures monitor.Valid() && monitor.running
      ensures (monitor.State(), emitted) == Monitor.Step(old(monitor.State()), sample, now, MW.MonitorSettings(config))
    {
      emitted := monitor.Poll(sample, now, MW.MonitorSettings(config));
    }

    /** `update_status`, with the same decisions as the newer window and Russian text. */
    method UpdateStatus(sample: Option<Monitor.Sample>, now: int)
      requires Valid() && monitor.Valid()
      modifies this`statusText
      ensures statusText == Render(MW.View(sample, Config.Truthy(config["enabled"]), monitor.State(), now))
    {
      statusText := Render(MW.View(sample, Config.Truthy(config["enabled"]), monitor.State(), now));
    }
  }
}
