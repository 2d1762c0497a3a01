/**
 * Selecting a translation table by language code. Each widget keeps one table
 * per language code; the model identifies a table by its code, since only the
 * choice of table (not the marketing text in it) has behaviour.
 */
module Translations {
  import opened Common

  /** Codes with a table in the slideshow, Google-maps and Leaflet widgets. */
  const EightLanguages: set<string> := {"en", "zh", "fr", "it", "de", "es", "pt", "nl"}

  /** Codes with a table in the two SVG route maps. */
  const FourLanguages: set<string> := {"en", "zh", "fr", "it"}

  /**
   * `translations[language] || translations.en`: the table of the requested
   * language when there is one, the English table otherwise.
   */
  function TableWithFallback(available: set<string>, code: string): (t: string)
    requires "en" in available
    ensures t in available
    ensures code in available ==> t == code
    ensures code !in available ==> t == "en"
  {
    if code in available then code else "en"
  }

  /** `translations[language]` with no fallback: an unknown code finds no table. */
  function TableWithoutFallback(available: set<string>, code: string): (t: Option<string>)
    ensures t.Some? <==> code in available
    ensures t.Some? ==> t.value == code
  {
    if code in available then Some(code) else None
  }

  /** The fallback lookup agrees with the plain one wherever the plain one finds a table. */
  lemma FallbackExtendsLookup(available: set<string>, code: string)
    requires "en" in available
    ensures TableWithoutFallback(available, code).Some? ==>
              TableWithFallback(available, code) == TableWithoutFallback(available, code).value
    ensures TableWithoutFallback(available, code).None? ==>
              TableWithFallback(available, code) == TableWithFallback(available, "en")
  {
  }
}
