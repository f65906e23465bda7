/**
 * The pair of translations attached to catalog entries, and its resolution
 * for the active language. The app reads the language from a shared
 * manager; here it is a parameter.
 */
module Translation {
  import opened Wrappers

  /** The two languages the app supports. */
  datatype Language = English | Arabic

  datatype TranslationObj = TranslationObj(en: Option<string>, ar: Option<string>) {

    /** The translation for `lang`, falling back to the other one when it is missing. */
    function Localized(lang: Language): (r: Option<string>)
      ensures r.None? <==> en.None? && ar.None?
      ensures r.Some? ==> r == en || r == ar
      ensures lang == Arabic && ar.Some? ==> r == ar
      ensures lang == English && en.Some? ==> r == en
    {
      if lang == Arabic then
        (if ar.Some? then ar else en)
      else
        (if en.Some? then en else ar)
    }
  }

  /** A translation that is the only one present is chosen whatever the language. */
  lemma SoleTranslationChosen(t: TranslationObj, lang: Language)
    requires t.en.None? || t.ar.None?
    ensures t.Localized(lang) == (if t.en.Some? then t.en else t.ar)
  {
  }

  /** With both translations present the language decides, and the languages disagree when the texts do. */
  lemma BothTranslationsFollowLanguage(t: TranslationObj)
    requires t.en.Some? && t.ar.Some? && t.en != t.ar
    ensures t.Localized(English) == t.en && t.Localized(Arabic) == t.ar
    ensures t.Localized(English) != t.Localized(Arabic)
  {
  }
}
