/**
 * The error reporting of src/gui/error_dialog.py: `show_error` turns a
 * message or a list of messages into the text of a message box, and
 * `ErrorDialog` first normalises its argument to a list of lines and then
 * shows them joined by newlines.
 */
module ErrorDialog {
  import Strings
  import Translations

  /** The argument: None, one message, or a list of messages. */
  datatype ErrorMessages = Missing | Single(text: string) | Several(lines: seq<string>)

  /** The message box `show_error` opens: its title and its text. */
  datatype MessageBox = MessageBox(title: string, text: string)

  /** `show_error`'s text: a list joined by newlines, a single message as it is. */
  function ShowErrorText(m: ErrorMessages): string
    requires !m.Missing?
  {
    match m
    case Several(lines) => Strings.Join(lines, '\n')
    case Single(text) => text
  }

  /** `show_error(messages)`, whose documented argument is a message or a list of messages. */
  function ShowError(lang: string, m: ErrorMessages): MessageBox
    requires !m.Missing?
  {
    MessageBox(Translations.Lookup(lang, "error_dialog_title"), ShowErrorText(m))
  }

  /** `ErrorDialog.__init__`: every argument becomes a list of lines, None the translated fallback message. */
  function Normalize(lang: string, m: ErrorMessages): seq<string>
  {
    match m
    case Missing => [Translations.Lookup(lang, "unknown_error_occurred")]
    case Single(text) => [text]
    case Several(lines) => lines
  }

  /** `init_ui`'s label text: the stored lines joined by newlines. */
  function LabelText(lang: string, m: ErrorMessages): string
  {
    Strings.Join(Normalize(lang, m), '\n')
  }

  /** A single message is shown unchanged, by the dialog and by `show_error`. */
  lemma SingleMessageUnchanged(lang: string, text: string)
    ensures Normalize(lang, Single(text)) == [text]
    ensures LabelText(lang, Single(text)) == text
    ensures ShowError(lang, Single(text)).text == text
  {
  }

  /** The dialog and `show_error` show the same text for every message or list of messages. */
  lemma DialogMatchesShowError(lang: string, m: ErrorMessages)
    requires !m.Missing?
    ensures LabelText(lang, m) == ShowErrorText(m)
  {
  }

  /** Lines without newlines can be read back from the label by splitting it at its newlines. */
  lemma LinesRecoverable(lang: string, lines: seq<string>)
    requires |lines| >= 1
    requires forall k :: 0 <= k < |lines| ==> '\n' !in lines[k]
    ensures Strings.Split(LabelText(lang, Several(lines)), '\n') == lines
  {
    Strings.SplitJoin(lines, '\n');
  }

  /**
   * Neither the fallback message key nor the title key has a translation,
   * so without messages the dialog shows the key `unknown_error_occurred`
   * itself, and every box is titled `error_dialog_title`.
   */
  lemma UntranslatedFallback(lang: string, m: ErrorMessages)
    requires !m.Missing?
    ensures LabelText(lang, Missing) == "unknown_error_occurred"
    ensures ShowError(lang, m).title == "error_dialog_title"
  {
    Translations.ErrorDialogKeysUntranslated(lang);
  }
}
