/**
 * The language switcher: a constant table of three languages, the lookup of
 * the active one with English as fallback, and the menu whose items change
 * the interface language, the document's direction and language, and the
 * stored preference.
 *
 * The i18n library's current language, the document element's attributes
 * and local storage are fields of the switcher.
 */
module LanguageSwitcher {
  import opened Wrappers

  /** Text direction of a language. */
  datatype Dir = Ltr | Rtl

  datatype Language = Language(code: string, name: string, nativeName: string, flag: string, dir: Dir)

  /** The `languages` table, in menu order. */
  const Languages: seq<Language> := [
    Language("en", "English", "English", "\U{1F1EC}\U{1F1E7}", Ltr),
    Language("ar", "Arabic", "\U{0627}\U{0644}\U{0639}\U{0631}\U{0628}\U{064A}\U{0629}", "\U{1F1F8}\U{1F1E6}", Rtl),
    Language("fr", "French", "Fran\U{00E7}ais", "\U{1F1EB}\U{1F1F7}", Ltr)
  ]

  /** `languages.find(lang => lang.code === code)`. */
  function Find(table: seq<Language>, code: string): (r: Option<Language>)
    ensures r.Some? ==> r.value in table && r.value.code == code
    ensures r.None? ==> forall k :: 0 <= k < |table| ==> table[k].code != code
  {
    if |table| == 0 then None
    else if table[0].code == code then Some(table[0])
    else Find(table[1..], code)
  }

  /** `currentLanguage`: the table entry for the active code, or English when there is none. */
  function CurrentLanguage(active: string): (r: Language)
    ensures r in Languages
    ensures Find(Languages, active).Some? ==> r.code == active
    ensures Find(Languages, active).None? ==> r == Languages[0]
  {
    Find(Languages, active).GetOr(Languages[0])
  }

  /** `find` returns the first entry with the code. */
  lemma {:induction false} FindIsFirstMatch(table: seq<Language>, code: string, i: nat)
    requires i < |table| && table[i].code == code
    requires forall j :: 0 <= j < i ==> table[j].code != code
    ensures Find(table, code) == Some(table[i])
  {
    if i > 0 {
      FindIsFirstMatch(table[1..], code, i - 1);
    }
  }

  /** The table's codes are distinct. */
  predicate DistinctCodes(table: seq<Language>) {
    forall i, j :: 0 <= i < j < |table| ==> table[i].code != table[j].code
  }

  /** The menu items marked active for a given current language. */
  function ActiveItems(active: string): set<nat> {
    set k | 0 <= k < |Languages| && Languages[k].code == CurrentLanguage(active).code
  }

  /** Whatever the i18n language, exactly one menu item is marked active. */
  lemma ExactlyOneActiveItem(active: string)
    ensures DistinctCodes(Languages)
    ensures |ActiveItems(active)| == 1
  {
    var cur := CurrentLanguage(active);
    var k :| 0 <= k < |Languages| && Languages[k] == cur;
    assert ActiveItems(active) == {k};
  }

  /** A code the table knows, with its entry; only Arabic is right-to-left. */
  lemma KnownCodes(code: string)
    ensures Find(Languages, code).Some? <==> code in ["en", "ar", "fr"]
    ensures Find(Languages, code).Some? ==> (Find(Languages, code).value.dir == Rtl <==> code == "ar")
  {
  }

  /** The switcher's state: the menu flag and the pieces of the environment it writes. */
  class Switcher {
    /** `i18n.language`. */
    var language: string
    /** `document.documentElement.dir`; `None` while unset. */
    var documentDir: Option<Dir>
    /** `document.documentElement.lang`. */
    var documentLang: string
    /** The `preferredLanguage` entry of local storage. */
    var preferredLanguage: Option<string>
    var isOpen: bool

    constructor (language: string, documentDir: Option<Dir>, documentLang: string, preferredLanguage: Option<string>)
      ensures this.language == language && this.documentDir == documentDir
      ensures this.documentLang == documentLang && this.preferredLanguage == preferredLanguage
      ensures !isOpen
    {
      this.language := language;
      this.documentDir := documentDir;
      this.documentLang := documentLang;
      this.preferredLanguage := preferredLanguage;
      isOpen := false;
    }

    /**
     * `changeLanguage`: for a code in the table, switch every piece of state
     * to it and close the menu; for any other code, change nothing.
     */
    method ChangeLanguage(langCode: string)
      modifies this
      ensures match Find(Languages, langCode)
              case Some(lang) =>
                && language == langCode && documentDir == Some(lang.dir)
                && documentLang == langCode && preferredLanguage == Some(langCode) && !isOpen
              case None =>
                && language == old(language) && documentDir == old(documentDir)
                && documentLang == old(documentLang) && preferredLanguage == old(preferredLanguage)
                && isOpen == old(isOpen)
    {
      var selectedLang := Find(Languages, langCode);
      if selectedLang.Some? {
        language := langCode;
        documentDir := Some(selectedLang.value.dir);
        documentLang := langCode;
        preferredLanguage := Some(langCode);
        isOpen := false;
      }
    }

    /** The trigger button flips the menu. */
    method Toggle()
      modifies this
      ensures isOpen == !old(isOpen)
      ensures language == old(language) && documentDir == old(documentDir)
      ensures documentLang == old(documentLang) && preferredLanguage == old(preferredLanguage)
    {
      isOpen := !isOpen;
    }

    /** A click on the backdrop closes the menu. */
    method Close()
      modifies this
      ensures !isOpen
      ensures language == old(language) && documentDir == old(documentDir)
      ensures documentLang == old(documentLang) && preferredLanguage == old(preferredLanguage)
    {
      isOpen := false;
    }
  }
}
