/** The language provider: the interface language, whether the saved choice
    has been read yet, and the browser storage the choice is kept in. */
module LanguageContext {
  import opened Wrappers
  import opened Strings

  datatype Language = En | Es

  /** The code a language is stored and looked up under. */
  function Code(l: Language): (r: string)
    ensures FromCode(r) == Some(l)
  {
    match l
    case En => "en"
    case Es => "es"
  }

  /** The language a stored code names, if it names one. */
  function FromCode(s: string): (r: Option<Language>)
    ensures r.Some? <==> s == "en" || s == "es"
  {
    if s == "en" then Some(En) else if s == "es" then Some(Es) else None
  }

  /** The storage key of the saved choice. */
  const StorageKey := "app-language"

  const OutsideProvider := "useLanguage must be used within a LanguageProvider"

  /** The language the provider settles on when it mounts: a saved "en" or
      "es", else English exactly when the browser's language starts with "en"
      ignoring case, else Spanish. */
  function InitialLanguage(saved: Option<string>, browserLanguage: string): (l: Language)
    ensures saved.Some? && FromCode(saved.value).Some? ==> l == FromCode(saved.value).value
    ensures !(saved.Some? && FromCode(saved.value).Some?) ==> (l == En <==> StartsWith(Lower(browserLanguage), "en"))
  {
    if saved.Some? && FromCode(saved.value).Some? then FromCode(saved.value).value
    else if StartsWith(Lower(browserLanguage), "en") then En
    else Es
  }

  /** The saved value under a key of the storage, `getItem`'s null as None. */
  function GetItem(storage: map<string, string>, key: string): Option<string> {
    if key in storage then Some(storage[key]) else None
  }

  /** A language chosen with `setLanguage` is the one the next mount picks,
      whatever the browser's language. */
  lemma ChoiceSurvivesReload(storage: map<string, string>, l: Language, browserLanguage: string)
    ensures InitialLanguage(GetItem(storage[StorageKey := Code(l)], StorageKey), browserLanguage) == l
  {
    assert GetItem(storage[StorageKey := Code(l)], StorageKey) == Some(Code(l));
  }

  class LanguageProvider {
    var language: Language
    var isLoading: bool
    /** `localStorage` */
    var storage: map<string, string>

    /** The first render: Spanish, still loading. */
    constructor (stored: map<string, string>)
      ensures language == Es && isLoading
      ensures storage == stored
    {
      language := Es;
      isLoading := true;
      storage := stored;
    }

    /** The mount effect: adopt the saved language, else detect the browser's;
        loading ends whichever way the language was found. */
    method Initialize(browserLanguage: string)
      modifies this
      ensures language == InitialLanguage(GetItem(old(storage), StorageKey), browserLanguage)
      ensures !isLoading
      ensures storage == old(storage)
    {
      var saved := GetItem(storage, StorageKey);
      if saved.Some? && saved.value != "" && (saved.value == "en" || saved.value == "es") {
        language := if saved.value == "en" then En else Es;
      } else {
        var browserLang := Lower(browserLanguage);
        if StartsWith(browserLang, "en") {
          language := En;
        } else {
          language := Es;
        }
      }
      isLoading := false;
    }

    /** `setLanguage`: the state and the saved choice both become `l`. */
    method SetLanguage(l: Language)
      modifies this
      ensures language == l
      ensures storage == old(storage)[StorageKey := Code(l)]
      ensures isLoading == old(isLoading)
    {
      language := l;
      storage := storage[StorageKey := Code(l)];
    }
  }

  /** `useLanguage`: the provider's value, or the error thrown outside any provider. */
  function UseLanguage<T>(context: Option<T>): (r: Result<T, string>)
    ensures r.Ok? <==> context.Some?
    ensures r.Ok? ==> r.value == context.value
    ensures r.Err? ==> r.error == OutsideProvider
  {
    match context
    case Some(c) => Ok(c)
    case None => Err(OutsideProvider)
  }
}
