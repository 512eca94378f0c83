/**
  translations.js: the older copy of the UI string table and of `getTranslation`,
  still used by app.js. Its tables hold the same entries as constants/translations.js.
 */
module LegacyTranslations {
  import opened JsValues
  import Translations

  const ENGLISH := "en-EN"
  const SPANISH := "es-ES"

  const TRANSLATIONS: map<string, map<string, string>> := map[ENGLISH := ENGLISH_TEXTS, SPANISH := SPANISH_TEXTS]

  const ENGLISH_TEXTS: map<string, string> := map[
      "title" := "A Victorian Pastime",
      "name" := "Hangman",
      "howToPlay" := "How to Play",
      "hero" := "A Game of Wits & Words",
      "easy" := "Easy",
      "easyDescription" := "6-letter words",
      "medium" := "Medium",
      "mediumDescription" := "8-letter words",
      "hard" := "Hard",
      "hardDescription" := "10+ letter words",
      "start" := "Begin Amusement"
    ]

  const SPANISH_TEXTS: map<string, string> := map[
      "title" := "Un Pasatiempo Victoriano",
      "name" := "El Ahorcado",
      "howToPlay" := "¿Cómo Jugar?",
      "hero" := "Un Juego de Ingenio y Palabras",
      "easy" := "Fácil",
      "easyDescription" := "Palabras de 6 letras",
      "medium" := "Medio",
      "mediumDescription" := "Palabras de 8 letras",
      "hard" := "Difícil",
      "hardDescription" := "Palabras de más de 10 letras",
      "start" := "Empieza la diversión"
    ]

  /** `TRANSLATIONS[language][key] || TRANSLATIONS["en-EN"][key]`, as in the newer copy:
      both copies answer alike for every language and key, so here too an unsupported
      language throws and no key of a supported language falls back. */
  function GetTranslation(language: string, key: string): (r: Result<JsValue>)
    ensures r == Translations.GetTranslation(language, key)
    ensures r.Throw? <==> language !in TRANSLATIONS
  {
    SameTableAsConstants();
    if language !in TRANSLATIONS then Throw(TypeError)
    else Ok(Or(Translations.Property(TRANSLATIONS[language], key),
               Translations.Property(TRANSLATIONS[ENGLISH], key)))
  }

  /** The older table is entry for entry the newer one. */
  lemma SameTableAsConstants()
    ensures TRANSLATIONS == Translations.TRANSLATIONS
  {
    assert ENGLISH_TEXTS == Translations.ENGLISH_TEXTS;
    assert SPANISH_TEXTS == Translations.SPANISH_TEXTS;
  }
}
