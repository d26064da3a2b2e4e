/**
 * The shutdown warning dialog of src/gui/shutdown_dialog.py: a 30-second
 * countdown driven by a one-second timer, which accepts the dialog when it
 * runs out, and a cancel button, which records the cancellation and rejects
 * the dialog.
 *
 * The dialog's outcome fields are captured by `Session`; the class keeps the
 * same fields plus the progress bar value, the message text and the alert
 * sound requests.
 */
module ShutdownDialog {
  import opened Wrappers
  import Strings
  import Translations

  /** `COUNTDOWN_SECONDS`. */
  const CountdownSeconds := 30

  /** Where the dialog stands: still shown, accepted (`accept()`), rejected (`reject()`). */
  datatype Status = Open | Accepted | Rejected

  /** The fields that decide the outcome: `remaining_time`, `cancelled`, the dialog result, whether the timer runs. */
  datatype Session = Session(remaining: int, cancelled: bool, status: Status, timerActive: bool)

  /** The session as `__init__` leaves it: the timer started, nothing cancelled. */
  const NewSession := Session(CountdownSeconds, false, Open, true)

  /**
   * A shown dialog has its timer running and time left; an accepted one has
   * stopped its timer with no time left. A rejected one has stopped its timer
   * exactly when it was cancelled by the button: Esc or the window's close
   * button reject the dialog without `cancel_shutdown`, so `cancelled` stays
   * false and the timer keeps running.
   */
  predicate SessionInv(s: Session)
  {
    && (s.status == Open ==> s.timerActive && s.remaining > 0 && !s.cancelled)
    && (s.status == Accepted ==> !s.timerActive && s.remaining <= 0 && !s.cancelled)
    && (s.status == Rejected ==> (s.cancelled <==> !s.timerActive))
    && (s.timerActive ==> s.remaining > 0)
  }

  /**
   * `update_countdown`: one second less; at zero or below, the timer stops and
   * the dialog is accepted, otherwise its result stays as it was.
   */
  function Tick(s: Session): (r: Session)
    requires SessionInv(s) && s.timerActive
    ensures SessionInv(r)
    ensures r.remaining == s.remaining - 1 && !r.cancelled
    ensures r.status == (if s.remaining <= 1 then Accepted else s.status)
    ensures r.timerActive == (s.remaining > 1)
  {
    var t := s.(remaining := s.remaining - 1);
    if t.remaining <= 0 then t.(timerActive := false, status := Accepted) else t
  }

  /** `cancel_shutdown`: the cancellation is recorded, the timer stops, the dialog is rejected. */
  function Cancel(s: Session): (r: Session)
    requires SessionInv(s)
    ensures SessionInv(r)
    ensures r.cancelled && r.status == Rejected && !r.timerActive && r.remaining == s.remaining
  {
    s.(cancelled := true, timerActive := false, status := Rejected)
  }

  /**
   * `QDialog.reject()` from Esc or the window's close button: the dialog is
   * rejected, `cancelled` stays false and the timer is not stopped.
   */
  function Close(s: Session): (r: Session)
    requires SessionInv(s) && s.status == Open
    ensures SessionInv(r)
    ensures r.status == Rejected && !r.cancelled && r.timerActive && r.remaining == s.remaining
  {
    s.(status := Rejected)
  }

  /**
   * What can happen while the dialog runs: a timer timeout, a click on the
   * cancel button, or Esc or the window's close button.
   */
  datatype Event = TimerTick | CancelClick | CloseRequest

  /**
   * The loop of `exec_()`: each event is handled while the dialog is shown,
   * and `exec_()` returns as soon as it closes, so later events do not reach
   * this session.
   */
  function Deliver(s: Session, e: Event): (r: Session)
    requires SessionInv(s)
    ensures SessionInv(r)
    ensures s.status != Open ==> r == s
  {
    if s.status != Open then s
    else
      match e
      case TimerTick => Tick(s)
      case CancelClick => Cancel(s)
      case CloseRequest => Close(s)
  }

  /** The session after a sequence of events. */
  function Play(s: Session, events: seq<Event>): (r: Session)
    requires SessionInv(s)
    ensures SessionInv(r)
    decreases |events|
  {
    if events == [] then s else Play(Deliver(s, events[0]), events[1..])
  }

  /** The number of timer timeouts before the first click or close request. */
  function LeadingTicks(events: seq<Event>): (n: nat)
    ensures n <= |events|
    ensures forall k :: 0 <= k < n ==> events[k] == TimerTick
    ensures n < |events| ==> events[n] != TimerTick
  {
    if events == [] || events[0] != TimerTick then 0
    else
      assert forall k :: 1 <= k < |events| ==> events[k] == events[1..][k - 1];
      1 + LeadingTicks(events[1..])
  }

  /** A closed dialog stays as it is. */
  lemma {:induction false} ClosedStaysClosed(s: Session, events: seq<Event>)
    requires SessionInv(s) && s.status != Open
    ensures Play(s, events) == s
    decreases |events|
  {
    if events != [] {
      ClosedStaysClosed(Deliver(s, events[0]), events[1..]);
    }
  }

  /**
   * The outcome of a shown dialog, decided by the first event that is not a
   * timeout: it is accepted exactly when the remaining seconds' worth of
   * timeouts come first; it is rejected exactly when a click or a close
   * request comes first, and cancelled exactly when that event is the click;
   * otherwise it is still shown with the timeouts counted off.
   */
  lemma {:induction false} Outcome(s: Session, events: seq<Event>)
    requires SessionInv(s) && s.status == Open
    ensures var r := Play(s, events);
      var n := LeadingTicks(events);
      && (r.status == Accepted <==> n >= s.remaining)
      && (r.status == Rejected <==> n < s.remaining && n < |events|)
      && (r.cancelled <==> n < s.remaining && n < |events| && events[n] == CancelClick)
      && (r.status == Open ==> r.remaining == s.remaining - |events| && n == |events|)
    decreases |events|
  {
    if events != [] {
      var t := Deliver(s, events[0]);
      if events[0] != TimerTick {
        ClosedStaysClosed(t, events[1..]);
      } else if t.status == Accepted {
        ClosedStaysClosed(t, events[1..]);
        assert s.remaining == 1;
      } else {
        Outcome(t, events[1..]);
        assert LeadingTicks(events) == 1 + LeadingTicks(events[1..]);
        assert forall k :: 1 <= k < |events| ==> events[k] == events[1..][k - 1];
      }
    }
  }

  /**
   * From a new dialog: accepted exactly after 30 timeouts with nothing before
   * them, cancelled exactly when the button is clicked first, and rejected
   * with `cancelled` still false exactly when Esc or close comes first.
   */
  lemma NewDialogOutcome(events: seq<Event>)
    ensures var r := Play(NewSession, events);
      var n := LeadingTicks(events);
      && (r.status == Accepted <==> n >= CountdownSeconds)
      && (r.cancelled <==> n < CountdownSeconds && n < |events| && events[n] == CancelClick)
      && (r.status == Rejected && !r.cancelled <==> n < CountdownSeconds && n < |events| && events[n] == CloseRequest)
  {
    Outcome(NewSession, events);
  }

  /** The message text: `computer_shutdown_in` with `seconds` set to the remaining time. */
  function Message(lang: string, remaining: int): Result<string, Translations.FormatError>
  {
    Translations.Get(lang, "computer_shutdown_in", map["seconds" := Strings.IntToString(remaining)])
  }

  /** In English the message reads "Computer will shut down in N seconds". */
  lemma EnglishMessage(remaining: int)
    ensures Message("en", remaining) == Success("Computer will shut down in " + Strings.IntToString(remaining) + " seconds")
  {
    Translations.ShutdownMessageEnglish(Strings.IntToString(remaining));
  }

  /** The dialog widget. `lang` is the translator's language while it is shown. */
  class ShutdownDialog {
    var remainingTime: int
    var cancelled: bool
    var status: Status
    var timerActive: bool
    const playSound: bool
    const lang: string
    /** The progress bar's value; its maximum is `CountdownSeconds`. */
    var progressValue: int
    var message: Result<string, Translations.FormatError>
    /** How many times the alert sound was requested. */
    var alertsPlayed: nat

    function State(): Session
      reads this
    {
      Session(remainingTime, cancelled, status, timerActive)
    }

    /** The progress bar and the message always show the remaining time. */
    predicate Valid()
      reads this
    {
      SessionInv(State()) && progressValue == remainingTime && message == Message(lang, remainingTime)
    }

    /** `__init__`: the countdown starts at 30 and the alert sounds once when `play_sound` is set. */
    constructor (lang: string, playSound: bool)
      ensures Valid() && State() == NewSession
      ensures this.lang == lang && this.playSound == playSound
      ensures alertsPlayed == (if playSound then 1 else 0)
    {
      this.lang := lang;
      this.playSound := playSound;
      cancelled := false;
      remainingTime := CountdownSeconds;
      status := Open;
      timerActive := true;
      message := Message(lang, CountdownSeconds);
      progressValue := CountdownSeconds;
      alertsPlayed := 0;
      new;
      if playSound {
        alertsPlayed := alertsPlayed + 1;
      }
    }

    /** `update_countdown`, which only the running timer calls. */
    method UpdateCountdown()
      requires Valid() && timerActive
      modifies this
      ensures Valid() && State() == Tick(old(State()))
      ensures alertsPlayed == old(alertsPlayed)
    {
      remainingTime := remainingTime - 1;
      progressValue := remainingTime;
      message := Message(lang, remainingTime);
      if remainingTime <= 0 {
        timerActive := false;
        status := Accepted;
      }
    }

    /** `cancel_shutdown`, the button's handler. */
    method CancelShutdown()
      requires Valid()
      modifies this
      ensures Valid() && State() == Cancel(old(State()))
      ensures progressValue == old(progressValue) && message == old(message) && alertsPlayed == old(alertsPlayed)
    {
      cancelled := true;
      timerActive := false;
      status := Rejected;
    }

    /** Esc or the window's close button: `QDialog.reject()` without `cancel_shutdown`. */
    method Reject()
      requires Valid() && status == Open
      modifies this`status
      ensures Valid() && State() == Close(old(State()))
    {
      status := Rejected;
    }

    /**
     * `exec_()` from the moment it is shown: the events are handled while the
     * dialog is shown, and it returns its result once it has closed.
     */
    method Exec(events: seq<Event>) returns (result: Status)
      requires Valid()
      requires Play(State(), events).status != Open
      modifies this
      ensures Valid() && State() == Play(old(State()), events)
      ensures result == status && result != Open
      ensures alertsPlayed == old(alertsPlayed)
    {
      var n := 0;
      while n < |events| && status == Open
        invariant 0 <= n <= |events|
        invariant Valid() && alertsPlayed == old(alertsPlayed)
        invariant Play(old(State()), events) == Play(State(), events[n..])
        decreases |events| - n
      {
        var e := events[n];
        ghost var before := State();
        assert events[n..] == [e] + events[n + 1..];
        match e {
          case TimerTick => UpdateCountdown();
          case CancelClick => CancelShutdown();
          case CloseRequest => Reject();
        }
        assert State() == Deliver(before, e);
        n := n + 1;
      }
      if n < |events| {
        ClosedStaysClosed(State(), events[n..]);
      }
      result := status;
    }
  }
}
