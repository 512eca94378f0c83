/**
  The UI string table of constants/translations.js and its `getTranslation`:
  a lookup in the chosen language with a fall-back to the English table.
 */
module Translations {
  import opened JsValues

  const ENGLISH := "en-EN"
  const SPANISH := "es-ES"

  /** language code -> (translation key -> text); a plain object literal. */
  type Table = map<string, map<string, string>>

  const TRANSLATIONS: Table := map[ENGLISH := ENGLISH_TEXTS, SPANISH := SPANISH_TEXTS]

  const ENGLISH_TEXTS: map<string, string> := map[
      "title" := "A Victorian Pastime",
      "name" := "Hangman",
      "howToPlay" := "How to Play",
      "hero" := "A Game of Wits & Words",
      "easy" := "Easy",
      "easyDescription" := "6-letter words",
      "medium" := "Medium",
      "mediumDescription" := "8-letter words",
      "hard" := "Hard",
      "hardDescription" := "10+ letter words",
      "start" := "Begin Amusement"
    ]

  const SPANISH_TEXTS: map<string, string> := map[
      "title" := "Un Pasatiempo Victoriano",
      "name" := "El Ahorcado",
      "howToPlay" := "¿Cómo Jugar?",
      "hero" := "Un Juego de Ingenio y Palabras",
      "easy" := "Fácil",
      "easyDescription" := "Palabras de 6 letras",
      "medium" := "Medio",
      "mediumDescription" := "Palabras de 8 letras",
      "hard" := "Difícil",
      "hardDescription" := "Palabras de más de 10 letras",
      "start" := "Empieza la diversión"
    ]

  /** The keys both tables define. */
  const KEYS: set<string> := {
    "title", "name", "howToPlay", "hero", "easy", "easyDescription",
    "medium", "mediumDescription", "hard", "hardDescription", "start"
  }

  /** `obj[key]` on a plain object: the property, or `undefined` when it is missing. */
  function Property(obj: map<string, string>, key: string): JsValue {
    if key in obj then Str(obj[key]) else Undefined
  }

  /** `TRANSLATIONS[language][key] || TRANSLATIONS["en-EN"][key]`; reading a key of
      `TRANSLATIONS[language]` throws when the language has no table. */
  function GetTranslation(language: string, key: string): (r: Result<JsValue>)
    ensures r.Throw? <==> language !in TRANSLATIONS
    ensures r.Throw? ==> r.error == TypeError
    ensures language in TRANSLATIONS && Truthy(Property(TRANSLATIONS[language], key)) ==>
              r == Ok(Str(TRANSLATIONS[language][key]))
    ensures language in TRANSLATIONS && !Truthy(Property(TRANSLATIONS[language], key)) ==>
              r == Ok(Property(TRANSLATIONS[ENGLISH], key))
  {
    if language !in TRANSLATIONS then Throw(TypeError)
    else Ok(Or(Property(TRANSLATIONS[language], key), Property(TRANSLATIONS[ENGLISH], key)))
  }

  /** Exactly two languages are supported, each with its own table. */
  lemma SupportedLanguages()
    ensures TRANSLATIONS.Keys == {ENGLISH, SPANISH}
    ensures TRANSLATIONS[ENGLISH] == ENGLISH_TEXTS && TRANSLATIONS[SPANISH] == SPANISH_TEXTS
  {
    assert ENGLISH[1] != SPANISH[1];
  }

  /** Both tables define the same keys. */
  lemma TableKeys()
    ensures ENGLISH_TEXTS.Keys == KEYS && SPANISH_TEXTS.Keys == KEYS
  {
  }

  /** There are eleven of them. */
  lemma KeyCount()
    ensures |KEYS| == 11
  {
    // keys of equal length differ at the first or second character
    assert "name"[0] != "hero"[0] && "name"[0] != "easy"[0] && "name"[0] != "hard"[0];
    assert "hero"[0] != "easy"[0] && "hero"[1] != "hard"[1] && "easy"[0] != "hard"[0];
    assert "title"[0] != "start"[0];
    assert "easyDescription"[0] != "hardDescription"[0];
  }

  /** No entry of either table is the empty string, so no entry is falsy. */
  lemma EntriesNonEmpty(language: string, key: string)
    requires language in TRANSLATIONS && key in TRANSLATIONS[language]
    ensures TRANSLATIONS[language][key] != ""
  {
    SupportedLanguages();
  }

  /** A supported language never falls back: for each of its keys the result is its own text. */
  lemma NoFallbackForSupportedKeys(language: string, key: string)
    requires language in TRANSLATIONS && key in KEYS
    ensures GetTranslation(language, key) == Ok(Str(TRANSLATIONS[language][key]))
    ensures GetTranslation(language, key).value != Undefined
  {
    SupportedLanguages();
    TableKeys();
    EntriesNonEmpty(language, key);
  }

  /** For "en-EN" both operands of `||` are the same entry, so the result is that entry. */
  lemma EnglishIsItsOwnEntry(key: string)
    ensures GetTranslation(ENGLISH, key) == Ok(Property(TRANSLATIONS[ENGLISH], key))
  {
  }

  /** Every supported language gives its own text for every key both tables define. */
  lemma SupportedKeysTranslate(language: string)
    requires language in TRANSLATIONS
    ensures forall key :: key in KEYS ==> GetTranslation(language, key) == Ok(Str(TRANSLATIONS[language][key]))
    ensures forall key :: key !in KEYS ==> GetTranslation(language, key) == Ok(Undefined)
  {
    forall key | key in KEYS
      ensures GetTranslation(language, key) == Ok(Str(TRANSLATIONS[language][key]))
    {
      NoFallbackForSupportedKeys(language, key);
    }
    forall key | key !in KEYS
      ensures GetTranslation(language, key) == Ok(Undefined)
    {
      UnknownKeyIsUndefined(language, key);
    }
  }

  /** The `innerHTML` each element with a `data-language-key` receives from
      `key.innerHTML = getTranslation(language, key.dataset.languageKey)`: its own text for
      a known key, the string "undefined" for any other. */
  function RenderedTexts(language: string, keys: seq<string>): (texts: seq<string>)
    requires language in TRANSLATIONS
    ensures |texts| == |keys|
    ensures forall i :: 0 <= i < |keys| && keys[i] in KEYS ==> texts[i] == TRANSLATIONS[language][keys[i]]
    ensures forall i :: 0 <= i < |keys| && keys[i] !in KEYS ==> texts[i] == "undefined"
  {
    SupportedKeysTranslate(language);
    seq(|keys|, i requires 0 <= i < |keys| => ToStr(GetTranslation(language, keys[i]).value))
  }

  /** A key neither table defines reads as `undefined`. */
  lemma UnknownKeyIsUndefined(language: string, key: string)
    requires language in TRANSLATIONS && key !in KEYS
    ensures GetTranslation(language, key) == Ok(Undefined)
  {
    SupportedLanguages();
    TableKeys();
  }
}
