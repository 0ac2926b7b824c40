/** The front end's language selection (frontend/src/i18n/locale.tsx):
    which of the two supported locales is used, how it is looked up in the
    translation tables, and how it is persisted in `localStorage`. */
module Locale {
  import opened Wrappers
  import opened Text

  datatype Locale = Ua | Ru

  function Code(l: Locale): string {
    match l
    case Ua => "ua"
    case Ru => "ru"
  }

  const DefaultLocale := Ua
  const StorageKey := "agency45_locale"

  /** `isLocale`: a present, non-empty value naming a supported locale. */
  predicate IsLocale(value: Option<string>) {
    value.Some? && value.value != "" && (value.value == "ua" || value.value == "ru")
  }

  function FromCode(code: string): Locale
    requires code == "ua" || code == "ru"
  {
    if code == "ua" then Ua else Ru
  }

  /** `detectBrowserLocale`; `language` is `navigator.language`, possibly absent. */
  function DetectBrowserLocale(language: Option<string>): Locale {
    var lang := Lower(language.GetOr(""));
    if StartsWith(lang, "ru") then Ru
    else if StartsWith(lang, "uk") || StartsWith(lang, "ua") then Ua
    else DefaultLocale
  }

  /** `getInitialLocale`; `hasWindow` is whether a browser window exists and
      `stored` is the value stored under `agency45_locale`. */
  function GetInitialLocale(hasWindow: bool, stored: Option<string>, language: Option<string>): Locale {
    if !hasWindow then DefaultLocale
    else if stored == Some("uk") then Ua
    else if IsLocale(stored) then FromCode(stored.value)
    else DetectBrowserLocale(language)
  }

  /** The translation tables, one per locale. */
  datatype Translations = Translations(ua: map<string, string>, ru: map<string, string>)

  function Table(tr: Translations, l: Locale): map<string, string> {
    match l
    case Ua => tr.ua
    case Ru => tr.ru
  }

  /** `t(key)`: the current locale's entry, else the default locale's, else
      the key itself. */
  function Translate(tr: Translations, l: Locale, key: string): string {
    if key in Table(tr, l) then Table(tr, l)[key]
    else if key in Table(tr, DefaultLocale) then Table(tr, DefaultLocale)[key]
    else key
  }

  // ---------------------------------------------------------------------

  /** `isLocale` accepts exactly the codes of the two locales. */
  lemma IsLocaleExactly(value: Option<string>)
    ensures IsLocale(value) <==> exists l: Locale :: value == Some(Code(l))
    ensures !IsLocale(None) && !IsLocale(Some(""))
  {
    if IsLocale(value) {
      assert value == Some(Code(FromCode(value.value)));
    }
  }

  /** A language tag starting with "ru" in any letter case selects Russian;
      every other tag, or none, selects Ukrainian. */
  lemma DetectBrowserLocaleSpec(language: Option<string>)
    ensures DetectBrowserLocale(language) == Ru <==>
      language.Some? && |language.value| >= 2 &&
      LowerChar(language.value[0]) == 'r' && LowerChar(language.value[1]) == 'u'
  {
  }

  /** A locale the provider stored is the one restored on the next start,
      whatever the browser's language. */
  lemma StoredLocaleRestored(l: Locale, language: Option<string>)
    ensures GetInitialLocale(true, Some(Code(l)), language) == l
  {
  }

  /** Without a usable stored value the browser's language decides. */
  lemma InitialLocaleFallback(stored: Option<string>, language: Option<string>)
    requires stored != Some("uk") && !IsLocale(stored)
    ensures GetInitialLocale(true, stored, language) == DetectBrowserLocale(language)
    ensures GetInitialLocale(false, stored, language) == Ua
  {
  }

  /** A lookup returns an entry of the current table, an entry of the
      default table, or the key; the default table is consulted only when the
      current one lacks the key. */
  lemma TranslateFallback(tr: Translations, l: Locale, key: string)
    ensures var s := Translate(tr, l, key);
      && (key in Table(tr, l) ==> s == Table(tr, l)[key])
      && (key !in Table(tr, l) && key in tr.ua ==> s == tr.ua[key])
      && (key !in Table(tr, l) && key !in tr.ua ==> s == key)
  {
  }

  /** The provider: the current locale, the storage it persists into and
      the document's `lang` attribute. */
  class Provider {
    var locale: Locale
    var storage: map<string, string>
    var documentLang: string
    const translations: Translations

    /** The effect has run for the current locale. */
    predicate Persisted()
      reads this
    {
      StorageKey in storage && storage[StorageKey] == Code(locale) && documentLang == Code(locale)
    }

    /** Mount: the initial locale from storage or the browser, then the
        persistence effect. */
    constructor (storage0: map<string, string>, language: Option<string>, translations: Translations)
      ensures locale == GetInitialLocale(true, if StorageKey in storage0 then Some(storage0[StorageKey]) else None, language)
      ensures storage == storage0[StorageKey := Code(locale)]
      ensures Persisted()
      ensures this.translations == translations
    {
      var stored := if StorageKey in storage0 then Some(storage0[StorageKey]) else None;
      locale := GetInitialLocale(true, stored, language);
      this.translations := translations;
      storage := storage0;
      documentLang := "";
      new;
      Persist();
    }

    /** The effect that runs after every locale change. */
    method Persist()
      modifies this
      ensures locale == old(locale)
      ensures storage == old(storage)[StorageKey := Code(locale)]
      ensures documentLang == Code(locale)
      ensures Persisted()
    {
      documentLang := Code(locale);
      storage := storage[StorageKey := Code(locale)];
    }

    method SetLocale(l: Locale)
      modifies this
      ensures locale == l
      ensures storage == old(storage)[StorageKey := Code(l)]
      ensures Persisted()
    {
      locale := l;
      Persist();
    }
  }
}
