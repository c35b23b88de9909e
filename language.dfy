/**
 * The language context: Thai or English, chosen on mount from a saved
 * choice or the browser's language, persisted when changed, and a lookup
 * that falls back to the key itself.
 */
module Language {
  import opened Common

  datatype Lang = Th | En

  function Code(l: Lang): string {
    match l
    case Th => "th"
    case En => "en"
  }

  /** The `localStorage` key the choice is saved under. */
  const StorageKey := "realestate_language"

  type Table = map<string, string>

  /** The property- and transaction-type entries of each table, the ones
      the listing labels rely on. */
  function LabelEntries(l: Lang): Table {
    match l
    case Th => map[
      "property.condo" := "คอนโด", "property.house" := "บ้าน", "property.land" := "ที่ดิน",
      "property.commercial" := "เชิงพาณิชย์", "property.room" := "ห้อง",
      "transaction.sale" := "ขาย", "transaction.rent" := "เช่า"]
    case En => map[
      "property.condo" := "Condo", "property.house" := "House", "property.land" := "Land",
      "property.commercial" := "Commercial", "property.room" := "Room",
      "transaction.sale" := "Sale", "transaction.rent" := "Rent"]
  }

  /** A language's whole table: its other entries (given) and the label entries. */
  function TableOf(others: Lang -> Table, l: Lang): (t: Table)
    ensures t.Keys == others(l).Keys + LabelEntries(l).Keys
    ensures forall k :: k in LabelEntries(l) ==> t[k] == LabelEntries(l)[k]
    ensures forall k :: k in others(l) && k !in LabelEntries(l) ==> t[k] == others(l)[k]
  {
    others(l) + LabelEntries(l)
  }

  /** `translations[language]?.[key] || key`. */
  function Translate(table: Table, key: string): (r: string)
    ensures key in table && table[key] != "" ==> r == table[key]
    ensures !(key in table) || table[key] == "" ==> r == key
    ensures r != "" || key == ""
  {
    if key in table && table[key] != "" then table[key] else key
  }

  /** The context's value outside any provider translates everything to ''. */
  function DefaultT(key: string): (r: string)
    ensures r == ""
  {
    ""
  }

  /** The language chosen on mount: a saved "th" or "en" wins; anything else
      saved is ignored, and then a browser language starting with "en" in
      any case gives English, every other one Thai. */
  function Resolve(saved: Option<string>, browserLanguage: string): (l: Lang)
    ensures saved == Some("th") ==> l == Th
    ensures saved == Some("en") ==> l == En
    ensures saved != Some("th") && saved != Some("en") ==>
      (l == En <==> StartsWith(ToLower(browserLanguage), "en"))
  {
    if saved.Some? && saved.value != "" && (saved.value == "th" || saved.value == "en") then
      (if saved.value == "th" then Th else En)
    else if StartsWith(ToLower(browserLanguage), "en") then En
    else Th
  }

  /** A saved choice decides the language whatever the browser says. */
  lemma SavedChoiceWins(l: Lang, browserLanguage: string)
    ensures Resolve(Some(Code(l)), browserLanguage) == l
  {
  }

  /** Region tags and capitals make no difference: "EN-GB" is English, "th-TH" Thai. */
  lemma BrowserLanguageExamples()
    ensures Resolve(None, "EN-GB") == En
    ensures Resolve(Some("fr"), "th-TH") == Th
  {
    assert ToLower("EN-GB")[..2] == "en";
    assert ToLower("th-TH")[0] == 't';
  }

  /** `LanguageProvider`: the current language, the browser storage it
      persists to, and the page's `lang` attribute. */
  class LanguageProvider {
    const others: Lang -> Table
    var language: Lang
    var storage: map<string, string>
    var htmlLang: string

    /** Before mount the language is Thai. */
    constructor (others: Lang -> Table, storage: map<string, string>, htmlLang: string)
      ensures this.others == others && language == Th
      ensures this.storage == storage && this.htmlLang == htmlLang
    {
      this.others := others;
      language := Th;
      this.storage := storage;
      this.htmlLang := htmlLang;
    }

    /** The mount effect, followed by the effect that mirrors the language into `lang`. */
    method Mount(browserLanguage: string)
      modifies this`language, this`htmlLang
      ensures language == Resolve(if StorageKey in storage then Some(storage[StorageKey]) else None, browserLanguage)
      ensures htmlLang == Code(language)
    {
      var saved := if StorageKey in storage then Some(storage[StorageKey]) else None;
      language := Resolve(saved, browserLanguage);
      htmlLang := Code(language);
    }

    /** `setLanguage(l)`: the state, the saved choice and `lang` all become `l`. */
    method SetLanguage(l: Lang)
      modifies this`language, this`storage, this`htmlLang
      ensures language == l && htmlLang == Code(l)
      ensures storage == old(storage)[StorageKey := Code(l)]
    {
      language := l;
      storage := storage[StorageKey := Code(l)];
      htmlLang := Code(l);
    }

    /** `t(key)` in the current language. */
    function T(key: string): (r: string)
      reads this
      ensures key in LabelEntries(language) ==> r == LabelEntries(language)[key]
      ensures key !in TableOf(others, language) ==> r == key
      ensures r != "" || key == ""
    {
      Translate(TableOf(others, language), key)
    }
  }

  /** A choice made with `setLanguage` is the one the next mount resolves
      to, whatever the browser's language. */
  lemma ChoiceSurvivesReload(storage: map<string, string>, l: Lang, browserLanguage: string)
    ensures var s := storage[StorageKey := Code(l)];
      Resolve(if StorageKey in s then Some(s[StorageKey]) else None, browserLanguage) == l
  {
  }

  /** The label keys always translate, to the entries of the current language. */
  lemma LabelKeysTranslate(others: Lang -> Table, l: Lang, key: string)
    requires key in LabelEntries(l)
    ensures Translate(TableOf(others, l), key) == LabelEntries(l)[key]
  {
  }

  /** A key no table holds comes back unchanged. */
  lemma UnknownKeyIsItself(others: Lang -> Table, l: Lang, key: string)
    requires !(key in others(l)) && !(key in LabelEntries(l))
    ensures Translate(TableOf(others, l), key) == key
  {
  }
}
