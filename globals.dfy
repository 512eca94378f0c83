/**
  The language control of globals.js: the preferred language is chosen by a `||` chain
  (stored choice, browser language, "en-EN"), every element with a `data-language-key`
  present when a handler runs receives its translation, and clicking a language link
  broadcasts and stores the choice.

  `localStorage["prefered-language"]` (after its JSON round trip) and the messages posted on
  the "language" channel are fields; `navigator.language` and the channel's incoming
  messages are parameters.
 */
module Globals {
  import opened JsValues
  import Translations

  /** `localStorageValue || navigator.language || "en-EN"`. */
  function PreferredLanguage(stored: JsValue, navigatorLanguage: string): (language: JsValue)
    ensures language.Str? && Truthy(language)
    ensures Truthy(stored) ==> language == stored
    ensures !Truthy(stored) && navigatorLanguage != "" ==> language == Str(navigatorLanguage)
    ensures !Truthy(stored) && navigatorLanguage == "" ==> language == Str(Translations.ENGLISH)
  {
    Or(Or(stored, Str(navigatorLanguage)), Str(Translations.ENGLISH))
  }

  class GlobalsPage {
    /** The `data-language` of each language link, queried when the script starts. */
    const languageLinks: seq<string>
    /** `localStorage["prefered-language"]`: `null` when nothing is stored. */
    var stored: JsValue
    /** Messages posted on the "language" channel, oldest first. */
    var posted: seq<string>
    /** The `data-language-key` and the `innerHTML` of each keyed element in the document. */
    var keys: seq<string>
    var texts: seq<string>

    ghost predicate Valid()
      reads this
    {
      |texts| == |keys|
    }

    constructor (languageLinks: seq<string>, stored: JsValue, keys: seq<string>, texts: seq<string>)
      requires |texts| == |keys|
      ensures Valid()
      ensures this.languageLinks == languageLinks && this.stored == stored && posted == []
      ensures this.keys == keys && this.texts == texts
    {
      this.languageLinks := languageLinks;
      this.stored := stored;
      posted := [];
      this.keys := keys;
      this.texts := texts;
    }

    /** An element with a `data-language-key` is added to the document (the difficulty
        cards render theirs after the script has run). */
    method AddKeyedElement(key: string, text: string)
      requires Valid()
      modifies this
      ensures Valid()
      ensures keys == old(keys) + [key] && texts == old(texts) + [text]
      ensures stored == old(stored) && posted == old(posted)
    {
      keys := keys + [key];
      texts := texts + [text];
    }

    /** The `forEach` over the keyed elements queried now: each receives
        `getTranslation(language, key)`; the first lookup in an unsupported language throws,
        which leaves every element as it was. */
    method TranslateAll(language: string) returns (r: Result<()>)
      requires Valid()
      modifies this
      ensures Valid()
      ensures r.Throw? <==> language !in Translations.TRANSLATIONS && keys != []
      ensures r.Throw? ==> r.error == TypeError && texts == old(texts)
      ensures r.Ok? && keys != [] ==> texts == Translations.RenderedTexts(language, keys)
      ensures keys == [] ==> texts == old(texts)
      ensures keys == old(keys)
      ensures stored == old(stored) && posted == old(posted)
    {
      for i := 0 to |keys|
        invariant Valid() && keys == old(keys)
        invariant i > 0 ==> language in Translations.TRANSLATIONS
        invariant forall j :: 0 <= j < i ==>
                    texts[j] == ToStr(Translations.GetTranslation(language, keys[j]).value)
        invariant forall j :: i <= j < |keys| ==> texts[j] == old(texts)[j]
        invariant stored == old(stored) && posted == old(posted)
      {
        var translation := Translations.GetTranslation(language, keys[i]);
        if translation.Throw? {
          return Throw(translation.error);
        }
        texts := texts[i := ToStr(translation.value)];
      }
      if keys == [] {
        assert texts == old(texts);
      } else {
        assert texts == Translations.RenderedTexts(language, keys);
      }
      r := Ok(());
    }

    /** The `DOMContentLoaded` handler. With nothing truthy stored it first stores a
        default: "en-EN" when there is no language link, but with a link present it reads
        `.dataset` of the NodeList itself (`undefined`) and throws before translating. */
    method OnLoad(navigatorLanguage: string) returns (r: Result<()>)
      requires Valid()
      modifies this
      ensures Valid()
      ensures !Truthy(old(stored)) && languageLinks != [] ==>
                r == Throw(TypeError) && stored == old(stored) && texts == old(texts)
      ensures !Truthy(old(stored)) && languageLinks == [] ==> stored == Str(Translations.ENGLISH)
      ensures Truthy(old(stored)) ==> stored == old(stored)
      ensures (Truthy(old(stored)) || languageLinks == []) ==>
                var language := PreferredLanguage(old(stored), navigatorLanguage).s;
                (r.Throw? <==> language !in Translations.TRANSLATIONS && keys != []) &&
                (r.Ok? && keys != [] ==> texts == Translations.RenderedTexts(language, keys)) &&
                (!r.Ok? || keys == [] ==> texts == old(texts))
      ensures r.Throw? ==> r.error == TypeError
      ensures keys == old(keys) && posted == old(posted)
    {
      var language := PreferredLanguage(stored, navigatorLanguage);
      if !Truthy(stored) {
        if languageLinks != [] {
          return Throw(TypeError);
        }
        stored := Str(Translations.ENGLISH);
      }
      r := TranslateAll(language.s);
    }

    /** A click on language link `i`: post its code on the "language" channel, then
        store it. */
    method OnLanguageClick(i: nat)
      requires Valid() && i < |languageLinks|
      modifies this
      ensures Valid()
      ensures posted == old(posted) + [languageLinks[i]]
      ensures stored == Str(languageLinks[i])
      ensures keys == old(keys) && texts == old(texts)
    {
      posted := posted + [languageLinks[i]];
      stored := Str(languageLinks[i]);
    }

    /** A message on the "language" channel: translate the keyed elements present now. */
    method OnLanguageMessage(language: string) returns (r: Result<()>)
      requires Valid()
      modifies this
      ensures Valid()
      ensures r.Throw? <==> language !in Translations.TRANSLATIONS && keys != []
      ensures r.Ok? && keys != [] ==> texts == Translations.RenderedTexts(language, keys)
      ensures !r.Ok? || keys == [] ==> texts == old(texts)
      ensures keys == old(keys) && stored == old(stored) && posted == old(posted)
    {
      r := TranslateAll(language);
    }
  }

  /** A browser language such as "en-US" with nothing stored and no language link: "en-EN"
      is stored, yet the page is translated with "en-US", which has no table, so the first
      keyed element makes the handler throw. */
  method FirstVisitWithRegionalBrowserLanguage(keys: seq<string>, texts: seq<string>)
    returns (r: Result<()>, stored: JsValue)
    requires |texts| == |keys| && keys != []
    ensures r == Throw(TypeError)
    ensures stored == Str(Translations.ENGLISH)
  {
    var page := new GlobalsPage([], Null, keys, texts);
    Translations.SupportedLanguages();
    assert "en-US"[3] != Translations.ENGLISH[3] && "en-US"[3] != Translations.SPANISH[3];
    r := page.OnLoad("en-US");
    stored := page.stored;
  }

  /** A page reached after the difficulty cards were added translates their keys too: a
      broadcast in Spanish gives every keyed element present at that moment its Spanish text. */
  method BroadcastReachesLaterElements(key: string) returns (texts: seq<string>)
    requires key in Translations.KEYS
    ensures texts == [Translations.SPANISH_TEXTS[key]]
  {
    var page := new GlobalsPage([], Str(Translations.ENGLISH), [], []);
    page.AddKeyedElement(key, "");
    Translations.SupportedLanguages();
    var r := page.OnLanguageMessage(Translations.SPANISH);
    texts := page.texts;
  }
}
