/** The bot's reply texts and locale handling in the older service
    (src/app/api/modules/telegram/services/messages.py). Locales are the
    strings "ua" and "ru"; the reply texts themselves are a parameter. */
module Messages {
  import opened Wrappers
  import opened Text

  const DefaultLocale := "ua"

  /** The keys of `MESSAGES`. */
  const MessageKeys: set<string> := {"already_registered", "use_link", "invalid_token", "success", "save_error"}

  type MessageTable = map<string, map<string, string>>

  /** Every key present, each with a Ukrainian and a Russian text. */
  predicate Complete(table: MessageTable) {
    table.Keys == MessageKeys && forall k :: k in table ==> "ua" in table[k] && "ru" in table[k]
  }

  predicate IsSupported(l: string) {
    l == "ua" || l == "ru"
  }

  function NormalizeLocale(locale: Option<string>): (r: string)
    ensures IsSupported(r)
  {
    if locale == Some("ru") then "ru"
    else if locale == Some("uk") || locale == Some("ua") then "ua"
    else DefaultLocale
  }

  /** `language_code.lower().startswith(...)` on the Telegram client's
      language, which may be absent. */
  function DetectTelegramLocale(languageCode: Option<string>): (r: string)
    ensures IsSupported(r)
  {
    if languageCode.Some? && languageCode.value != "" && StartsWith(Lower(languageCode.value), "ru") then "ru"
    else if languageCode.Some? && languageCode.value != "" &&
            (StartsWith(Lower(languageCode.value), "uk") || StartsWith(Lower(languageCode.value), "ua")) then "ua"
    else DefaultLocale
  }

  /** `MESSAGES[key][normalize_locale(locale)]`; a missing key raises `KeyError`. */
  function GetMessage(table: MessageTable, key: string, locale: Option<string>): Result<string, string> {
    var l := NormalizeLocale(locale);
    if key !in table then Failure(key)
    else if l !in table[key] then Failure(l)
    else Success(table[key][l])
  }

  // ---------------------------------------------------------------------

  /** Russian is chosen only for "ru"; every other value, absent included,
      gives Ukrainian; normalising twice changes nothing. */
  lemma NormalizeLocaleSpec(locale: Option<string>)
    ensures NormalizeLocale(locale) == "ru" <==> locale == Some("ru")
    ensures NormalizeLocale(Some(NormalizeLocale(locale))) == NormalizeLocale(locale)
    ensures NormalizeLocale(None) == "ua" && NormalizeLocale(Some("uk")) == "ua"
  {
  }

  /** The detected locale is Russian exactly when the code begins with
      "ru" in either letter case. */
  lemma DetectTelegramLocaleSpec(languageCode: Option<string>)
    ensures DetectTelegramLocale(languageCode) == "ru" <==>
      languageCode.Some? && |languageCode.value| >= 2 &&
      LowerChar(languageCode.value[0]) == 'r' && LowerChar(languageCode.value[1]) == 'u'
  {
  }

  /** With a complete table a known key always has a text, in the
      normalised locale; an unknown key is the only failure. */
  lemma GetMessageTotal(table: MessageTable, key: string, locale: Option<string>)
    requires Complete(table)
    ensures GetMessage(table, key, locale).Success? <==> key in MessageKeys
    ensures key in MessageKeys ==> GetMessage(table, key, locale).value == table[key][NormalizeLocale(locale)]
    ensures key !in MessageKeys ==> GetMessage(table, key, locale) == Failure(key)
  {
  }
}
