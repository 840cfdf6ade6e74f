/** The display-language context: the active language and the `t` lookup
    over per-language key/text tables, falling back to the key itself. */
module Locale {

  /** The two supported languages. */
  datatype Language = Zh | En

  /** One language's table from keys to display text. */
  type Table = map<string, string>

  /** The tables of all languages. */
  type Tables = map<Language, Table>

  /** Every language has a table (the tables are a record keyed by
      language). */
  predicate Covers(tables: Tables) {
    forall lang: Language :: lang in tables
  }

  /** `translations[language][key] || key`: the entry when it is present
      and non-empty, the key otherwise (a missing entry and an empty one are
      both falsy). */
  function Lookup(tables: Tables, lang: Language, key: string): (r: string)
    requires Covers(tables)
    ensures key in tables[lang] && tables[lang][key] != "" ==> r == tables[lang][key]
    ensures key !in tables[lang] || tables[lang][key] == "" ==> r == key
  {
    var table := tables[lang];
    if key in table && table[key] != "" then table[key] else key
  }

  /** The lookup never yields the empty string for a non-empty key, and it
      yields either the key or the active table's entry for it. */
  lemma LookupNonEmpty(tables: Tables, lang: Language, key: string)
    requires Covers(tables)
    ensures key != "" ==> Lookup(tables, lang, key) != ""
    ensures Lookup(tables, lang, key) == key
            || (key in tables[lang] && Lookup(tables, lang, key) == tables[lang][key])
  {
  }

  /** The lookup reads only the active language's table: tables that agree
      on it give the same text for every key. */
  lemma LookupReadsActiveTable(tables: Tables, others: Tables, lang: Language, key: string)
    requires Covers(tables) && Covers(others) && tables[lang] == others[lang]
    ensures Lookup(tables, lang, key) == Lookup(others, lang, key)
  {
  }

  /** A sample of the translation tables; the full tables are data. */
  const Translations: Tables := map[
    Zh := map[
      "hero.badge" := "度尺前預先評估",
      "step.basic" := "基本資料",
      "step.risk" := "風險評估",
      "step.confirm" := "確認提交",
      "form.floor" := "樓層"],
    En := map[
      "hero.badge" := "Pre-measurement Assessment",
      "step.basic" := "Basic Info",
      "step.risk" := "Risk Assessment",
      "step.confirm" := "Confirm",
      "form.floor" := "Floor"]]

  /** The sample tables have a table for every language. */
  lemma TranslationsCover()
    ensures Covers(Translations)
  {
    forall lang: Language ensures lang in Translations {
      match lang
      case Zh =>
      case En =>
    }
  }

  /** The sample table of one language. */
  function TableOf(lang: Language): Table {
    TranslationsCover();
    Translations[lang]
  }

  /** The `LanguageProvider`'s state: the active language. */
  class LanguageProvider {
    var language: Language

    /** The provider as mounted: Chinese. */
    constructor()
      ensures language == Zh
    {
      language := Zh;
    }

    /** `t(key)`: the active table's non-empty entry for key, the key
        itself when there is none. */
    function T(key: string): (r: string)
      reads this
      ensures key in TableOf(language) && TableOf(language)[key] != "" ==>
                r == TableOf(language)[key]
      ensures key !in TableOf(language) || TableOf(language)[key] == "" ==>
                r == key
      ensures key != "" ==> r != ""
    {
      TranslationsCover();
      LookupNonEmpty(Translations, language, key);
      Lookup(Translations, language, key)
    }

    /** `setLanguage`: from now on `t` reads the chosen language's table,
        and only that one. */
    method SetLanguage(lang: Language)
      modifies this
      ensures language == lang
      ensures Covers(Translations) && forall key :: T(key) == Lookup(Translations, lang, key)
    {
      TranslationsCover();
      language := lang;
    }
  }

  /** A session against the sample tables: the provider starts in Chinese,
      switching to English changes the text of a known key, and an unknown
      key is shown as itself in both languages. */
  method ExampleLookups() returns (before: string, after: string, missing: string)
    ensures before == "基本資料" && after == "Basic Info"
    ensures missing == "no.such.key"
  {
    var provider := new LanguageProvider();
    before := provider.T("step.basic");
    provider.SetLanguage(En);
    after := provider.T("step.basic");
    missing := provider.T("no.such.key");
  }
}
