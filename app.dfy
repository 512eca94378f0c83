/**
  The language control of app.js, the older variant of globals.js: the preferred
  language is the stored choice or else the browser language (no "en-EN" fall-back), the
  keyed elements are those found when the script starts, lookups go through the older
  table of translations.js, and with nothing stored the first language link's code is
  stored.
 */
module App {
  import opened JsValues
  import Translations
  import LegacyTranslations
  import Globals

  /** `localStorageValue || navigator.language`. */
  function PreferredLanguage(stored: JsValue, navigatorLanguage: string): (language: JsValue)
    ensures language.Str?
    ensures Truthy(stored) ==> language == stored
    ensures !Truthy(stored) ==> language == Str(navigatorLanguage)
  {
    Or(stored, Str(navigatorLanguage))
  }

  /** The two variants choose the same language unless nothing is stored and the browser
      language is empty: then globals.js falls back to "en-EN" and app.js keeps "". */
  lemma PreferenceMatchesGlobals(stored: JsValue, navigatorLanguage: string)
    ensures Truthy(stored) || navigatorLanguage != "" <==>
            PreferredLanguage(stored, navigatorLanguage) == Globals.PreferredLanguage(stored, navigatorLanguage)
  {
    if !Truthy(stored) && navigatorLanguage == "" {
      assert PreferredLanguage(stored, navigatorLanguage) == Str("");
      assert Globals.PreferredLanguage(stored, navigatorLanguage) == Str(Translations.ENGLISH);
    }
  }

  class AppPage {
    /** The `data-language` of each language link, queried when the script starts. */
    const languageLinks: seq<string>
    /** `localStorage["prefered-language"]`: `null` when nothing is stored. */
    var stored: JsValue
    /** Messages posted on the "language" channel, oldest first. */
    var posted: seq<string>
    /** The `data-language-key` of each keyed element found when the script starts, and
        the `innerHTML` of each. */
    const keys: seq<string>
    var texts: seq<string>

    ghost predicate Valid()
      reads this
    {
      |texts| == |keys|
    }

    constructor (languageLinks: seq<string>, stored: JsValue, keys: seq<string>, texts: seq<string>)
      requires |texts| == |keys|
      ensures Valid()
      ensures this.languageLinks == languageLinks && this.stored == stored && posted == []
      ensures this.keys == keys && this.texts == texts
    {
      this.languageLinks := languageLinks;
      this.stored := stored;
      posted := [];
      this.keys := keys;
      this.texts := texts;
    }

    /** The `forEach` over the keyed elements found at start: each receives
        `getTranslation(language, key)` from the older table; an unsupported language
        throws at the first element and leaves them all as they were. */
    method TranslateAll(language: string) returns (r: Result<()>)
      requires Valid()
      modifies this
      ensures Valid()
      ensures r.Throw? <==> language !in LegacyTranslations.TRANSLATIONS && keys != []
      ensures r.Throw? ==> r.error == TypeError && texts == old(texts)
      ensures r.Ok? && keys != [] ==> texts == Translations.RenderedTexts(language, keys)
      ensures keys == [] ==> texts == old(texts)
      ensures stored == old(stored) && posted == old(posted)
    {
      LegacyTranslations.SameTableAsConstants();
      for i := 0 to |keys|
        invariant Valid()
        invariant i > 0 ==> language in LegacyTranslations.TRANSLATIONS
        invariant forall j :: 0 <= j < i ==>
                    texts[j] == ToStr(Translations.GetTranslation(language, keys[j]).value)
        invariant forall j :: i <= j < |keys| ==> texts[j] == old(texts)[j]
        invariant stored == old(stored) && posted == old(posted)
      {
        var translation := LegacyTranslations.GetTranslation(language, keys[i]);
        if translation.Throw? {
          return Throw(translation.error);
        }
        texts := texts[i := ToStr(translation.value)];
      }
      if keys == [] {
        assert texts == old(texts);
      } else {
        assert texts == Translations.RenderedTexts(language, keys);
      }
      r := Ok(());
    }

    /** The `DOMContentLoaded` handler. With nothing truthy stored it first stores the
        first language link's code (throwing when there is no link), yet it translates with
        the language chosen before, that is the browser language. */
    method OnLoad(navigatorLanguage: string) returns (r: Result<()>)
      requires Valid()
      modifies this
      ensures Valid()
      ensures !Truthy(old(stored)) && languageLinks == [] ==>
                r == Throw(TypeError) && stored == old(stored) && texts == old(texts)
      ensures !Truthy(old(stored)) && languageLinks != [] ==> stored == Str(languageLinks[0])
      ensures Truthy(old(stored)) ==> stored == old(stored)
      ensures (Truthy(old(stored)) || languageLinks != []) ==>
                var language := PreferredLanguage(old(stored), navigatorLanguage).s;
                (r.Throw? <==> language !in LegacyTranslations.TRANSLATIONS && keys != []) &&
                (r.Ok? && keys != [] ==> texts == Translations.RenderedTexts(language, keys)) &&
                (!r.Ok? || keys == [] ==> texts == old(texts))
      ensures r.Throw? ==> r.error == TypeError
      ensures posted == old(posted)
    {
      var language := PreferredLanguage(stored, navigatorLanguage);
      if !Truthy(stored) {
        if languageLinks == [] {
          return Throw(TypeError);
        }
        stored := Str(languageLinks[0]);
      }
      r := TranslateAll(language.s);
    }

    /** A click on language link `i`: post its code on the "language" channel, then
        store it. */
    method OnLanguageClick(i: nat)
      requires Valid() && i < |languageLinks|
      modifies this
      ensures Valid()
      ensures posted == old(posted) + [languageLinks[i]]
      ensures stored == Str(languageLinks[i])
      ensures texts == old(texts)
    {
      posted := posted + [languageLinks[i]];
      stored := Str(languageLinks[i]);
    }

    /** A message on the "language" channel: translate the keyed elements found at start. */
    method OnLanguageMessage(language: string) returns (r: Result<()>)
      requires Valid()
      modifies this
      ensures Valid()
      ensures r.Throw? <==> language !in LegacyTranslations.TRANSLATIONS && keys != []
      ensures r.Ok? && keys != [] ==> texts == Translations.RenderedTexts(language, keys)
      ensures !r.Ok? || keys == [] ==> texts == old(texts)
      ensures stored == old(stored) && posted == old(posted)
    {
      r := TranslateAll(language);
    }
  }

  /** A first visit with the links "es-ES" then "en-EN" and a browser in "en-EN": "es-ES"
      is stored for later visits while this page is shown in English. */
  method FirstVisitStoresFirstLink(key: string) returns (stored: JsValue, texts: seq<string>)
    requires key in Translations.KEYS
    ensures stored == Str(Translations.SPANISH)
    ensures texts == [Translations.ENGLISH_TEXTS[key]]
  {
    var page := new AppPage([Translations.SPANISH, Translations.ENGLISH], Null, [key], [""]);
    Translations.SupportedLanguages();
    LegacyTranslations.SameTableAsConstants();
    var r := page.OnLoad(Translations.ENGLISH);
    stored := page.stored;
    texts := page.texts;
  }
}
