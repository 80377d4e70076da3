/**
 * The language service: the current language, its initial choice, the
 * translation lookup with its fallback chain, and the writing direction.
 */
module Language {
  import opened Wrappers

  /** language → key → text; the table's contents are not part of the model. */
  type Translations = map<string, map<string, string>>

  /** `translations[lang]?.[key]`, with an empty text counting as missing. */
  function Entry(table: Translations, lang: string, key: string): Option<string> {
    if lang in table && key in table[lang] && table[lang][key] != "" then Some(table[lang][key]) else None
  }

  /**
   * `t(key)`: the current language's text, else the English text, else the
   * key itself; an empty text counts as missing.
   */
  function Translate(table: Translations, lang: string, key: string): (r: string)
    ensures Entry(table, lang, key).Some? ==> r == table[lang][key]
    ensures Entry(table, lang, key).None? && Entry(table, "en", key).Some? ==> r == table["en"][key]
    ensures Entry(table, lang, key).None? && Entry(table, "en", key).None? ==> r == key
  {
    match Entry(table, lang, key)
    case Some(text) => text
    case None =>
      match Entry(table, "en", key)
      case Some(text) => text
      case None => key
  }

  /** `t` never yields an empty text for a non-empty key. */
  lemma TranslateNeverEmpty(table: Translations, lang: string, key: string)
    requires key != ""
    ensures Translate(table, lang, key) != ""
  {
  }

  /** A language the table lacks reads exactly like English. */
  lemma UnknownLanguageFallsBackToEnglish(table: Translations, lang: string, key: string)
    requires lang !in table
    ensures Translate(table, lang, key) == Translate(table, "en", key)
  {
  }

  /** Whatever `t` returns is a text of the current language, a text of English, or the key. */
  lemma TranslateComesFromTable(table: Translations, lang: string, key: string)
    ensures var r := Translate(table, lang, key);
            r == key
            || (lang in table && key in table[lang] && r == table[lang][key])
            || ("en" in table && key in table["en"] && r == table["en"][key])
  {
  }

  /** The language at start-up: the saved one if non-empty, else French. */
  function InitialLanguage(saved: Option<string>): (lang: string)
    ensures saved.Some? && saved.value != "" ==> lang == saved.value
    ensures !(saved.Some? && saved.value != "") ==> lang == "fr"
    ensures lang != ""
  {
    if saved.Some? && saved.value != "" then saved.value else "fr"
  }

  /** `isRTL` */
  predicate IsRTL(lang: string) {
    lang == "ar"
  }

  /** The document direction the page sets for the language. */
  function Dir(lang: string): (d: string)
    ensures d == "rtl" || d == "ltr"
    ensures d == "rtl" <==> IsRTL(lang)
  {
    if lang == "ar" then "rtl" else "ltr"
  }

  class LanguageState {
    var language: string

    constructor (saved: Option<string>)
      ensures language == InitialLanguage(saved)
    {
      language := InitialLanguage(saved);
    }

    /** `setLanguage` */
    method SetLanguage(lang: string)
      modifies this
      ensures language == lang
    {
      language := lang;
    }

    /** `t` in the current language. */
    function T(table: Translations, key: string): string
      reads this
    {
      Translate(table, language, key)
    }
  }
}
