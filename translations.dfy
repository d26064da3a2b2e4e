/**
 * The Translator of src/i18n/translations.py: the English, Russian and
 * Ukrainian string tables, lookup with its fallbacks, `{name}` placeholder
 * formatting, language detection from the system locale and the guarded
 * language switch.
 */
module Translations {
  import opened Wrappers
  import Strings

  /** The `'en'` table of `TRANSLATIONS`: the entry for `key`, None when it has none. */
  function EnglishText(key: string): Option<string>
  {
    // Window titles
    if key == "main_window_title" then Some("Battery Auto-Shutdown")
    else if key == "settings_title" then Some("Settings")
    else if key == "help_title" then Some("Help - Battery Auto-Shutdown")
    else if key == "shutdown_warning_title" then Some("Shutdown Warning")
    // Main window
    else if key == "control_group" then Some("Control")
    else if key == "enable_auto_shutdown" then Some("Enable auto-shutdown")
    else if key == "current_status" then Some("Current Status")
    else if key == "loading" then Some("Loading...")
    else if key == "settings_button" then Some("⚙️ Settings")
    else if key == "help_button" then Some("📖 Help (FAQ)")
    else if key == "exit_button" then Some("Completely close application")
    // Status messages
    else if key == "power_connected" then Some("Connected to AC power")
    else if key == "power_battery" then Some("Running on battery")
    else if key == "battery_charge" then Some("Battery charge")
    else if key == "auto_shutdown_enabled" then Some("✓ Auto-shutdown enabled")
    else if key == "auto_shutdown_disabled" then Some("✗ Auto-shutdown disabled")
    else if key == "time_until_shutdown" then Some("⏱ Time until shutdown")
    else if key == "minutes_short" then Some("min")
    else if key == "seconds_short" then Some("sec")
    else if key == "battery_not_detected" then Some("⚠️ Battery not detected")
    // Settings dialog
    else if key == "main_settings" then Some("Main Settings")
    else if key == "delay_before_shutdown" then Some("Delay before shutdown:")
    else if key == "min_battery_percent" then Some("Minimum battery charge:")
    else if key == "additional_settings" then Some("Additional Settings")
    else if key == "sound_notifications" then Some("Sound notifications")
    else if key == "autostart_system" then Some("Run at system startup")
    else if key == "save_button" then Some("Save")
    else if key == "cancel_button" then Some("Cancel")
    // Shutdown dialog
    else if key == "warning_attention" then Some("⚠️ WARNING!")
    else if key == "computer_shutdown_in" then Some("Computer will shut down in {seconds} seconds")
    else if key == "cancel_shutdown_button" then Some("CANCEL SHUTDOWN")
    // Tray notifications
    else if key == "app_minimized" then Some("Application minimized")
    else if key == "app_running_in_tray" then Some("Application continues running in tray")
    else if key == "auto_shutdown_on" then Some("Auto-shutdown")
    else if key == "function_enabled" then Some("Auto-shutdown function enabled")
    else if key == "shutdown_cancelled" then Some("Shutdown cancelled")
    else if key == "auto_shutdown_disabled_msg" then Some("Auto-shutdown has been disabled")
    // Help content titles
    else if key == "help_purpose_title" then Some("Purpose of the Program")
    else if key == "help_how_it_works_title" then Some("How the Program Works")
    else if key == "help_settings_title" then Some("Settings Description")
    else if key == "help_warning_dialog_title" then Some("Shutdown Warning Dialog")
    else if key == "help_tray_title" then Some("System Tray Operation")
    else if key == "help_current_status_title" then Some("Current Status")
    else if key == "help_full_exit_title" then Some("Complete Program Shutdown")
    else None
  }

  /** The `'ru'` table of `TRANSLATIONS`: the entry for `key`, None when it has none. */
  function RussianText(key: string): Option<string>
  {
    // Window titles
    if key == "main_window_title" then Some("Автовыключение при работе от батареи")
    else if key == "settings_title" then Some("Настройки")
    else if key == "help_title" then Some("Помощь - Автовыключение при работе от батареи")
    else if key == "shutdown_warning_title" then Some("Предупреждение о выключении")
    // Main window
    else if key == "control_group" then Some("Управление")
    else if key == "enable_auto_shutdown" then Some("Включить автовыключение")
    else if key == "current_status" then Some("Текущий статус")
    else if key == "loading" then Some("Загрузка...")
    else if key == "settings_button" then Some("⚙️ Настройки")
    else if key == "help_button" then Some("📖 Помощь (FAQ)")
    else if key == "exit_button" then Some("Полностью закрыть приложение")
    // Status messages
    else if key == "power_connected" then Some("Подключено к сети")
    else if key == "power_battery" then Some("Работа от батареи")
    else if key == "battery_charge" then Some("Заряд батареи")
    else if key == "auto_shutdown_enabled" then Some("✓ Автовыключение включено")
    else if key == "auto_shutdown_disabled" then Some("✗ Автовыключение выключено")
    else if key == "time_until_shutdown" then Some("⏱ До выключения")
    else if key == "minutes_short" then Some("мин")
    else if key == "seconds_short" then Some("сек")
    else if key == "battery_not_detected" then Some("⚠️ Батарея не обнаружена")
    // Settings dialog
    else if key == "main_settings" then Some("Основные настройки")
    else if key == "delay_before_shutdown" then Some("Задержка перед выключением:")
    else if key == "min_battery_percent" then Some("Минимальный заряд батареи:")
    else if key == "additional_settings" then Some("Дополнительные настройки")
    else if key == "sound_notifications" then Some("Звуковые оповещения")
    else if key == "autostart_system" then Some("Автозапуск при старте системы")
    else if key == "save_button" then Some("Сохранить")
    else if key == "cancel_button" then Some("Отмена")
    // Shutdown dialog
    else if key == "warning_attention" then Some("⚠️ ВНИМАНИЕ!")
    else if key == "computer_shutdown_in" then Some("Компьютер будет выключен через {seconds} секунд")
    else if key == "cancel_shutdown_button" then Some("ОТМЕНИТЬ ВЫКЛЮЧЕНИЕ")
    // Tray notifications
    else if key == "app_minimized" then Some("Приложение свёрнуто")
    else if key == "app_running_in_tray" then Some("Приложение продолжает работать в трее")
    else if key == "auto_shutdown_on" then Some("Автовыключение")
    else if key == "function_enabled" then Some("Функция автовыключения включена")
    else if key == "shutdown_cancelled" then Some("Выключение отменено")
    else if key == "auto_shutdown_disabled_msg" then Some("Автовыключение было отключено")
    // Help content titles
    else if key == "help_purpose_title" then Some("Назначение программы")
    else if key == "help_how_it_works_title" then Some("Как работает программа")
    else if key == "help_settings_title" then Some("Описание настроек")
    else if key == "help_warning_dialog_title" then Some("Окно предупреждения о выключении")
    else if key == "help_tray_title" then Some("Работа в системном трее")
    else if key == "help_current_status_title" then Some("Текущий статус")
    else if key == "help_full_exit_title" then Some("Полное закрытие программы")
    else None
  }

  /** The `'uk'` table of `TRANSLATIONS`: the entry for `key`, None when it has none. */
  function UkrainianText(key: string): Option<string>
  {
    // Window titles
    if key == "main_window_title" then Some("Автовимикання при роботі від батареї")
    else if key == "settings_title" then Some("Налаштування")
    else if key == "help_title" then Some("Довідка - Автовимикання при роботі від батареї")
    else if key == "shutdown_warning_title" then Some("Попередження про вимикання")
    // Main window
    else if key == "control_group" then Some("Керування")
    else if key == "enable_auto_shutdown" then Some("Увімкнути автовимикання")
    else if key == "current_status" then Some("Поточний статус")
    else if key == "loading" then Some("Завантаження...")
    else if key == "settings_button" then Some("⚙️ Налаштування")
    else if key == "help_button" then Some("📖 Довідка (FAQ)")
    else if key == "exit_button" then Some("Повністю закрити додаток")
    // Status messages
    else if key == "power_connected" then Some("Підключено до мережі")
    else if key == "power_battery" then Some("Робота від батареї")
    else if key == "battery_charge" then Some("Заряд батареї")
    else if key == "auto_shutdown_enabled" then Some("✓ Автовимикання увімкнено")
    else if key == "auto_shutdown_disabled" then Some("✗ Автовимикання вимкнено")
    else if key == "time_until_shutdown" then Some("⏱ До вимикання")
    else if key == "minutes_short" then Some("хв")
    else if key == "seconds_short" then Some("сек")
    else if key == "battery_not_detected" then Some("⚠️ Батарею не виявлено")
    // Settings dialog
    else if key == "main_settings" then Some("Основні налаштування")
    else if key == "delay_before_shutdown" then Some("Затримка перед вимиканням:")
    else if key == "min_battery_percent" then Some("Мінімальний заряд батареї:")
    else if key == "additional_settings" then Some("Додаткові налаштування")
    else if key == "sound_notifications" then Some("Звукові сповіщення")
    else if key == "autostart_system" then Some("Автозапуск при старті системи")
    else if key == "save_button" then Some("Зберегти")
    else if key == "cancel_button" then Some("Скасувати")
    // Shutdown dialog
    else if key == "warning_attention" then Some("⚠️ УВАГА!")
    else if key == "computer_shutdown_in" then Some("Комп'ютер буде вимкнено через {seconds} секунд")
    else if key == "cancel_shutdown_button" then Some("СКАСУВАТИ ВИМИКАННЯ")
    // Tray notifications
    else if key == "app_minimized" then Some("Додаток згорнуто")
    else if key == "app_running_in_tray" then Some("Додаток продовжує працювати в треї")
    else if key == "auto_shutdown_on" then Some("Автовимикання")
    else if key == "function_enabled" then Some("Функцію автовимикання увімкнено")
    else if key == "shutdown_cancelled" then Some("Вимикання скасовано")
    else if key == "auto_shutdown_disabled_msg" then Some("Автовимикання було вимкнено")
    // Help content titles
    else if key == "help_purpose_title" then Some("Призначення програми")
    else if key == "help_how_it_works_title" then Some("Як працює програма")
    else if key == "help_settings_title" then Some("Опис налаштувань")
    else if key == "help_warning_dialog_title" then Some("Вікно попередження про вимикання")
    else if key == "help_tray_title" then Some("Робота в системному треї")
    else if key == "help_current_status_title" then Some("Поточний статус")
    else if key == "help_full_exit_title" then Some("Повне закриття програми")
    else None
  }

  /** The keys of the tables: all three have these 44. */
  predicate TranslatedKey(key: string)
  {
    key == "main_window_title"
    || key == "settings_title"
    || key == "help_title"
    || key == "shutdown_warning_title"
    || key == "control_group"
    || key == "enable_auto_shutdown"
    || key == "current_status"
    || key == "loading"
    || key == "settings_button"
    || key == "help_button"
    || key == "exit_button"
    || key == "power_connected"
    || key == "power_battery"
    || key == "battery_charge"
    || key == "auto_shutdown_enabled"
    || key == "auto_shutdown_disabled"
    || key == "time_until_shutdown"
    || key == "minutes_short"
    || key == "seconds_short"
    || key == "battery_not_detected"
    || key == "main_settings"
    || key == "delay_before_shutdown"
    || key == "min_battery_percent"
    || key == "additional_settings"
    || key == "sound_notifications"
    || key == "autostart_system"
    || key == "save_button"
    || key == "cancel_button"
    || key == "warning_attention"
    || key == "computer_shutdown_in"
    || key == "cancel_shutdown_button"
    || key == "app_minimized"
    || key == "app_running_in_tray"
    || key == "auto_shutdown_on"
    || key == "function_enabled"
    || key == "shutdown_cancelled"
    || key == "auto_shutdown_disabled_msg"
    || key == "help_purpose_title"
    || key == "help_how_it_works_title"
    || key == "help_settings_title"
    || key == "help_warning_dialog_title"
    || key == "help_tray_title"
    || key == "help_current_status_title"
    || key == "help_full_exit_title"
  }

  /** The language codes `TRANSLATIONS` has a table for. */
  predicate Supported(code: string)
  {
    code == "en" || code == "ru" || code == "uk"
  }

  /**
   * `TRANSLATIONS.get(lang, TRANSLATIONS['en']).get(key)`: the entry of the
   * language's table, the English table standing in for an unsupported code.
   */
  function Entry(lang: string, key: string): Option<string>
  {
    if lang == "ru" then RussianText(key) else if lang == "uk" then UkrainianText(key) else EnglishText(key)
  }

  /**
   * `TRANSLATIONS.get(lang, TRANSLATIONS['en']).get(key, key)`: a key missing
   * from the language's table is returned unchanged; it is not looked up in
   * the English table.
   */
  function Lookup(lang: string, key: string): string
  {
    match Entry(lang, key)
    case Some(t) => t
    case None => key
  }

  /** Why `str.format` raised: a field with no matching keyword, an unclosed `{`, or a lone `}`. */
  datatype FormatError = FieldNotSupplied(name: string) | UnclosedField | SingleCloseBrace

  function Prepend(p: string, r: Result<string, FormatError>): Result<string, FormatError>
  {
    match r
    case Success(s) => Success(p + s)
    case Failure(e) => Failure(e)
  }

  /**
   * `template.format(**kwargs)` with keyword arguments only: `{{` and `}}`
   * stand for single braces, `{name}` is replaced by the argument `name`.
   */
  function Format(template: string, kwargs: map<string, string>): Result<string, FormatError>
    decreases |template|
  {
    if template == [] then Success("")
    else if template[0] == '{' then
      if |template| > 1 && template[1] == '{' then Prepend("{", Format(template[2..], kwargs))
      else if '}' !in template[1..] then Failure(UnclosedField)
      else
        var i := Strings.IndexOf(template[1..], '}');
        var name := template[1..i + 1];
        if name in kwargs then Prepend(kwargs[name], Format(template[i + 2..], kwargs))
        else Failure(FieldNotSupplied(name))
    else if template[0] == '}' then
      if |template| > 1 && template[1] == '}' then Prepend("}", Format(template[2..], kwargs))
      else Failure(SingleCloseBrace)
    else Prepend([template[0]], Format(template[1..], kwargs))
  }

  /** `Translator.get(key, **kwargs)` for the language `lang`; formatting happens only when keyword arguments are given. */
  function Get(lang: string, key: string, kwargs: map<string, string>): Result<string, FormatError>
  {
    var translation := Lookup(lang, key);
    if |kwargs| == 0 then Success(translation) else Format(translation, kwargs)
  }

  /** What `locale.getdefaultlocale()[0]` gives: an exception, None, or a locale name such as `ru_RU`. */
  datatype LocaleQuery = LocaleFailed | NoLocale | LocaleName(name: string)

  /** `str.lower()` on ASCII letters; other characters are kept. */
  function Lower(s: string): (r: string)
    ensures |r| == |s|
    ensures forall k :: 0 <= k < |s| ==> r[k] == (if 'A' <= s[k] <= 'Z' then (s[k] as int + 32) as char else s[k])
  {
    seq(|s|, k requires 0 <= k < |s| => if 'A' <= s[k] <= 'Z' then (s[k] as int + 32) as char else s[k])
  }

  /** The language part of a locale name: the text before the first `_`, lower-cased. */
  function LocaleLanguage(name: string): string
  {
    Lower(Strings.Split(name, '_')[0])
  }

  /** `_detect_system_language`: the locale's language when there is a table for it, English otherwise. */
  function DetectSystemLanguage(q: LocaleQuery): (code: string)
    ensures Supported(code)
  {
    match q
    case LocaleName(name) =>
      if name != "" && Supported(LocaleLanguage(name)) then LocaleLanguage(name) else "en"
    case _ => "en"
  }

  /** `get_available_languages`: the keys of `TRANSLATIONS` in their order. */
  function AvailableLanguages(): (r: seq<string>)
    ensures forall k :: 0 <= k < |r| ==> Supported(r[k])
    ensures forall c :: Supported(c) ==> c in r
    ensures forall i, j :: 0 <= i < j < |r| ==> r[i] != r[j]
  {
    ["en", "ru", "uk"]
  }

  /** `get_language_name`: the language's own name, or the code itself when it is not one of the three. */
  function LanguageName(code: string): string
  {
    var names := map["en" := "English", "ru" := "Русский", "uk" := "Українська"];
    if code in names then names[code] else code
  }

  /** The application-wide translator. */
  class Translator {
    var currentLanguage: string

    predicate Valid()
      reads this
    {
      Supported(currentLanguage)
    }

    constructor (q: LocaleQuery)
      ensures Valid() && currentLanguage == DetectSystemLanguage(q)
    {
      currentLanguage := DetectSystemLanguage(q);
    }

    /** `get(key, **kwargs)`. */
    function GetText(key: string, kwargs: map<string, string>): Result<string, FormatError>
      reads this
    {
      Get(currentLanguage, key, kwargs)
    }

    /** `set_language(lang_code)`: only a code with a table is taken. */
    method SetLanguage(code: string)
      requires Valid()
      modifies this
      ensures Valid()
      ensures currentLanguage == if Supported(code) then code else old(currentLanguage)
    {
      if Supported(code) {
        currentLanguage := code;
      }
    }
  }

  // ---------------------------------------------------------------------------
  // Properties
  // ---------------------------------------------------------------------------

  /** An unsupported language code reads every key from the English table. */
  lemma UnsupportedReadsEnglish(lang: string, key: string)
    requires !Supported(lang)
    ensures Lookup(lang, key) == Lookup("en", key)
  {
  }

  /** The `'en'` table has an entry for exactly the translated keys. */
  lemma EnglishKeys(key: string)
    ensures EnglishText(key).Some? <==> TranslatedKey(key)
  {
  }

  /** The `'ru'` table has an entry for exactly the translated keys. */
  lemma RussianKeys(key: string)
    ensures RussianText(key).Some? <==> TranslatedKey(key)
  {
  }

  /** The `'uk'` table has an entry for exactly the translated keys. */
  lemma UkrainianKeys(key: string)
    ensures UkrainianText(key).Some? <==> TranslatedKey(key)
  {
  }

  /** A key of the tables reads as its entry in the language's table (English for an unsupported code). */
  lemma TranslatedKeyReadsEntry(lang: string, key: string)
    requires TranslatedKey(key)
    ensures Entry(lang, key).Some? && Lookup(lang, key) == Entry(lang, key).value
  {
    EnglishKeys(key);
    RussianKeys(key);
    UkrainianKeys(key);
  }

  /** A key that is not in the tables reads as itself in every language. */
  lemma UntranslatedKeyIsItself(lang: string, key: string)
    requires !TranslatedKey(key)
    ensures Lookup(lang, key) == key
  {
    EnglishKeys(key);
    RussianKeys(key);
    UkrainianKeys(key);
  }

  /** The error dialog's title and fallback message keys are in no table, so they read as themselves. */
  lemma ErrorDialogKeysUntranslated(lang: string)
    ensures Lookup(lang, "error_dialog_title") == "error_dialog_title"
    ensures Lookup(lang, "unknown_error_occurred") == "unknown_error_occurred"
  {
    assert "error_dialog_title" != "main_window_title" && "unknown_error_occurred" != "main_window_title";
    assert "error_dialog_title" != "settings_title" && "unknown_error_occurred" != "settings_title";
    assert "error_dialog_title" != "help_title" && "unknown_error_occurred" != "help_title";
    assert "error_dialog_title" != "shutdown_warning_title" && "unknown_error_occurred" != "shutdown_warning_title";
    assert "error_dialog_title" != "control_group" && "unknown_error_occurred" != "control_group";
    assert "error_dialog_title" != "enable_auto_shutdown" && "unknown_error_occurred" != "enable_auto_shutdown";
    assert "error_dialog_title" != "current_status" && "unknown_error_occurred" != "current_status";
    assert "error_dialog_title" != "loading" && "unknown_error_occurred" != "loading";
    assert "error_dialog_title" != "settings_button" && "unknown_error_occurred" != "settings_button";
    assert "error_dialog_title" != "help_button" && "unknown_error_occurred" != "help_button";
    assert "error_dialog_title" != "exit_button" && "unknown_error_occurred" != "exit_button";
    assert "error_dialog_title" != "power_connected" && "unknown_error_occurred" != "power_connected";
    assert "error_dialog_title" != "power_battery" && "unknown_error_occurred" != "power_battery";
    assert "error_dialog_title" != "battery_charge" && "unknown_error_occurred" != "battery_charge";
    assert "error_dialog_title" != "auto_shutdown_enabled" && "unknown_error_occurred" != "auto_shutdown_enabled";
    assert "error_dialog_title" != "auto_shutdown_disabled" && "unknown_error_occurred" != "auto_shutdown_disabled";
    assert "error_dialog_title" != "time_until_shutdown" && "unknown_error_occurred" != "time_until_shutdown";
    assert "error_dialog_title" != "minutes_short" && "unknown_error_occurred" != "minutes_short";
    assert "error_dialog_title" != "seconds_short" && "unknown_error_occurred" != "seconds_short";
    assert "error_dialog_title" != "battery_not_detected" && "unknown_error_occurred" != "battery_not_detected";
    assert "error_dialog_title" != "main_settings" && "unknown_error_occurred" != "main_settings";
    assert "error_dialog_title" != "delay_before_shutdown" && "unknown_error_occurred" != "delay_before_shutdown";
    assert "error_dialog_title" != "min_battery_percent" && "unknown_error_occurred" != "min_battery_percent";
    assert "error_dialog_title" != "additional_settings" && "unknown_error_occurred" != "additional_settings";
    assert "error_dialog_title" != "sound_notifications" && "unknown_error_occurred" != "sound_notifications";
    assert "error_dialog_title" != "autostart_system" && "unknown_error_occurred" != "autostart_system";
    assert "error_dialog_title" != "save_button" && "unknown_error_occurred" != "save_button";
    assert "error_dialog_title" != "cancel_button" && "unknown_error_occurred" != "cancel_button";
    assert "error_dialog_title" != "warning_attention" && "unknown_error_occurred" != "warning_attention";
    assert "error_dialog_title" != "computer_shutdown_in" && "unknown_error_occurred" != "computer_shutdown_in";
    assert "error_dialog_title" != "cancel_shutdown_button" && "unknown_error_occurred" != "cancel_shutdown_button";
    assert "error_dialog_title" != "app_minimized" && "unknown_error_occurred" != "app_minimized";
    assert "error_dialog_title" != "app_running_in_tray" && "unknown_error_occurred" != "app_running_in_tray";
    assert "error_dialog_title" != "auto_shutdown_on" && "unknown_error_occurred" != "auto_shutdown_on";
    assert "error_dialog_title" != "function_enabled" && "unknown_error_occurred" != "function_enabled";
    assert "error_dialog_title" != "shutdown_cancelled" && "unknown_error_occurred" != "shutdown_cancelled";
    assert "error_dialog_title" != "auto_shutdown_disabled_msg" && "unknown_error_occurred" != "auto_shutdown_disabled_msg";
    assert "error_dialog_title" != "help_purpose_title" && "unknown_error_occurred" != "help_purpose_title";
    assert "error_dialog_title" != "help_how_it_works_title" && "unknown_error_occurred" != "help_how_it_works_title";
    assert "error_dialog_title" != "help_settings_title" && "unknown_error_occurred" != "help_settings_title";
    assert "error_dialog_title" != "help_warning_dialog_title" && "unknown_error_occurred" != "help_warning_dialog_title";
    assert "error_dialog_title" != "help_tray_title" && "unknown_error_occurred" != "help_tray_title";
    assert "error_dialog_title" != "help_current_status_title" && "unknown_error_occurred" != "help_current_status_title";
    assert "error_dialog_title" != "help_full_exit_title" && "unknown_error_occurred" != "help_full_exit_title";
    UntranslatedKeyIsItself(lang, "error_dialog_title");
    UntranslatedKeyIsItself(lang, "unknown_error_occurred");
  }

  predicate BraceFree(s: string)
  {
    '{' !in s && '}' !in s
  }

  /** A template without braces formats to itself. */
  lemma {:induction false} FormatPlain(t: string, kwargs: map<string, string>)
    requires BraceFree(t)
    ensures Format(t, kwargs) == Success(t)
    decreases |t|
  {
    if t != [] {
      assert BraceFree(t[1..]);
      FormatPlain(t[1..], kwargs);
      assert [t[0]] + t[1..] == t;
    }
  }

  /** A template opening with the field `{name}` has it replaced by the argument, then the rest formatted. */
  lemma FormatFieldFirst(name: string, post: string, kwargs: map<string, string>)
    requires BraceFree(name) && name in kwargs
    ensures Format("{" + name + "}" + post, kwargs) == Prepend(kwargs[name], Format(post, kwargs))
  {
    var t := "{" + name + "}" + post;
    assert t[0] == '{';
    assert t[1] != '{' by {
      if name == [] { assert t[1] == '}'; } else { assert t[1] == name[0]; }
    }
    var body := t[1..];
    assert body == name + "}" + post;
    assert body[..|name|] == name;
    Strings.IndexOfAt(body, '}', |name|);
    assert t[1..|name| + 1] == name;
    assert t[|name| + 2..] == post;
  }

  /** A template opening with a character other than a brace keeps it and formats the rest. */
  lemma FormatPlainFirst(t: string, kwargs: map<string, string>)
    requires t != [] && t[0] != '{' && t[0] != '}'
    ensures Format(t, kwargs) == Prepend([t[0]], Format(t[1..], kwargs))
  {
  }

  /** A field with brace-free text after it: the field is replaced and the text kept. */
  lemma FormatOneFieldFirst(name: string, post: string, kwargs: map<string, string>)
    requires BraceFree(name) && BraceFree(post) && name in kwargs
    ensures Format("{" + name + "}" + post, kwargs) == Success(kwargs[name] + post)
  {
    FormatFieldFirst(name, post, kwargs);
    FormatPlain(post, kwargs);
  }

  /** A brace-free character before a formatted template is kept in front of its result. */
  lemma FormatOneFieldStep(pre: string, name: string, post: string, kwargs: map<string, string>)
    requires pre != [] && BraceFree(pre) && name in kwargs
    requires Format(pre[1..] + "{" + name + "}" + post, kwargs) == Success(pre[1..] + kwargs[name] + post)
    ensures Format(pre + "{" + name + "}" + post, kwargs) == Success(pre + kwargs[name] + post)
  {
    var t := pre + "{" + name + "}" + post;
    assert t[0] == pre[0];
    assert t[1..] == pre[1..] + "{" + name + "}" + post;
    FormatPlainFirst(t, kwargs);
    assert [pre[0]] + (pre[1..] + kwargs[name] + post) == pre + kwargs[name] + post;
  }

  /** One `{name}` field between brace-free text is replaced by the argument `name`. */
  lemma {:induction false} FormatOneField(pre: string, name: string, post: string, kwargs: map<string, string>)
    requires BraceFree(pre) && BraceFree(name) && BraceFree(post)
    requires name in kwargs
    ensures Format(pre + "{" + name + "}" + post, kwargs) == Success(pre + kwargs[name] + post)
    decreases |pre|
  {
    if pre == [] {
      assert pre + "{" + name + "}" + post == "{" + name + "}" + post;
      FormatOneFieldFirst(name, post, kwargs);
      assert pre + kwargs[name] + post == kwargs[name] + post;
    } else {
      assert BraceFree(pre[1..]);
      FormatOneField(pre[1..], name, post, kwargs);
      FormatOneFieldStep(pre, name, post, kwargs);
    }
  }

  /** The English template of the shutdown dialog's message. */
  lemma EnglishShutdownTemplate()
    ensures Lookup("en", "computer_shutdown_in") == "Computer will shut down in {seconds} seconds"
  {
  }

  /** The English template is text, the field `{seconds}`, and text. */
  lemma EnglishTemplateParts()
    ensures "Computer will shut down in {seconds} seconds" == "Computer will shut down in " + "{" + "seconds" + "}" + " seconds"
  {
  }

  /** The text around the field in the English template has no braces. */
  lemma EnglishTemplateBraceFree()
    ensures BraceFree("Computer will shut down in ") && BraceFree("seconds") && BraceFree(" seconds")
  {
  }

  /** With keyword arguments, a translation holding one `{name}` field has it replaced by the argument. */
  lemma GetOneField(lang: string, key: string, pre: string, name: string, post: string, kwargs: map<string, string>)
    requires Lookup(lang, key) == pre + "{" + name + "}" + post
    requires BraceFree(pre) && BraceFree(name) && BraceFree(post)
    requires name in kwargs
    ensures Get(lang, key, kwargs) == Success(pre + kwargs[name] + post)
  {
    assert |kwargs| != 0;
    FormatOneField(pre, name, post, kwargs);
  }

  /** The shutdown dialog's English message with `{seconds}` filled in. */
  lemma ShutdownMessageEnglish(seconds: string)
    ensures Get("en", "computer_shutdown_in", map["seconds" := seconds])
         == Success("Computer will shut down in " + seconds + " seconds")
  {
    EnglishShutdownTemplate();
    EnglishTemplateParts();
    EnglishTemplateBraceFree();
    GetOneField("en", "computer_shutdown_in", "Computer will shut down in ", "seconds", " seconds", map["seconds" := seconds]);
  }

  /** The Russian template of the shutdown dialog's message. */
  lemma RussianShutdownTemplate()
    ensures Lookup("ru", "computer_shutdown_in") == "Компьютер будет выключен через {seconds} секунд"
  {
  }

  /** The Russian template is text, the field `{seconds}`, and text. */
  lemma RussianTemplateParts()
    ensures "Компьютер будет выключен через {seconds} секунд" == "Компьютер будет выключен через " + "{" + "seconds" + "}" + " секунд"
  {
  }

  /** The text around the field in the Russian template has no braces. */
  lemma RussianTemplateBraceFree()
    ensures BraceFree("Компьютер будет выключен через ") && BraceFree("seconds") && BraceFree(" секунд")
  {
  }

  /** The shutdown dialog's Russian message with `{seconds}` filled in. */
  lemma ShutdownMessageRussian(seconds: string)
    ensures Get("ru", "computer_shutdown_in", map["seconds" := seconds])
         == Success("Компьютер будет выключен через " + seconds + " секунд")
  {
    RussianShutdownTemplate();
    RussianTemplateParts();
    RussianTemplateBraceFree();
    GetOneField("ru", "computer_shutdown_in", "Компьютер будет выключен через ", "seconds", " секунд", map["seconds" := seconds]);
  }

  /** The language part of a locale name is the text before its first `_`, lower-cased. */
  lemma LocaleLanguageAt(name: string, i: nat)
    requires i < |name| && name[i] == '_' && '_' !in name[..i]
    ensures LocaleLanguage(name) == Lower(name[..i])
  {
    Strings.FirstPiece(name, '_', i);
  }

  /**
   * A locale name `lang_rest` whose language part has no `_` is detected as
   * the lower-cased language part when it has a table, and as English
   * otherwise.
   */
  lemma DetectLocaleName(lang: string, rest: string)
    requires lang != [] && '_' !in lang
    ensures DetectSystemLanguage(LocaleName(lang + "_" + rest))
         == if Supported(Lower(lang)) then Lower(lang) else "en"
  {
    var name := lang + "_" + rest;
    assert name[..|lang|] == lang;
    LocaleLanguageAt(name, |lang|);
  }

  /** `ru_RU` is detected as Russian. */
  lemma DetectRussian()
    ensures DetectSystemLanguage(LocaleName("ru_RU")) == "ru"
  {
    assert "ru_RU" == "ru" + "_" + "RU";
    DetectLocaleName("ru", "RU");
    assert Lower("ru") == "ru";
  }

  /** `UK_UA` is detected as Ukrainian: the language part is lower-cased. */
  lemma DetectUkrainian()
    ensures DetectSystemLanguage(LocaleName("UK_UA")) == "uk"
  {
    assert "UK_UA" == "UK" + "_" + "UA";
    DetectLocaleName("UK", "UA");
    assert Lower("UK") == "uk";
  }

  /** `de_DE` has no table and falls back to English. */
  lemma DetectGerman()
    ensures DetectSystemLanguage(LocaleName("de_DE")) == "en"
  {
    assert "de_DE" == "de" + "_" + "DE";
    DetectLocaleName("de", "DE");
    assert Lower("de") == "de";
  }

  /** Without a locale name, or when the query raises, detection gives English. */
  lemma DetectWithoutLocale(q: LocaleQuery)
    requires !q.LocaleName?
    ensures DetectSystemLanguage(q) == "en"
  {
  }

  /** The empty locale name has the empty language part, which has no table. */
  lemma EmptyLocaleLanguage()
    ensures LocaleLanguage("") == ""
  {
    assert Strings.Split("", '_') == [""];
  }

  /** A locale whose language part has a table is detected as that language. */
  lemma DetectSupported(name: string)
    requires Supported(LocaleLanguage(name))
    ensures DetectSystemLanguage(LocaleName(name)) == LocaleLanguage(name)
  {
    EmptyLocaleLanguage();
  }

  /** The three language names, and the code itself for any other code. */
  lemma LanguageNames(code: string)
    ensures LanguageName("en") == "English" && LanguageName("ru") == "Русский" && LanguageName("uk") == "Українська"
    ensures !Supported(code) ==> LanguageName(code) == code
  {
  }
}
