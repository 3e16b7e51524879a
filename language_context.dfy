/** The language preference store: the active language, a loading flag, and
    the one device-storage entry that mirrors the language across launches. */
module LanguageContext {
  import opened Wrappers
  import opened I18n

  /** The storage key under which the language code is kept. */
  const LanguageStorageKey := "@app_language"

  /** The message `useLanguage` throws outside a provider. */
  const UseLanguageError := "useLanguage must be used within a LanguageProvider"

  /** What the one storage read at start-up gives: a failure, or the entry
      (absent, or any string at all). */
  datatype StorageRead = ReadFailed | ReadValue(saved: Option<string>)

  /** The language `loadLanguage` finishes with, from the language it started
      with and what the read gave. */
  function LoadedLanguage(current: Language, read: StorageRead): (lang: Language)
    ensures lang == current || read == ReadValue(Some(Code(lang)))
    ensures forall l: Language :: read == ReadValue(Some(Code(l))) ==> lang == l
  {
    match read
    case ReadFailed => current
    case ReadValue(None) => current
    case ReadValue(Some(saved)) =>
      match ParseCode(saved)
      case Some(adopted) => adopted
      case None => current
  }

  /** A language written by `setLanguage` is the one the next launch loads,
      and an unusable entry leaves the default. */
  lemma {:induction false} PersistedLanguageSurvivesRestart(lang: Language, other: string)
    requires ParseCode(other).None?
    ensures LoadedLanguage(En, ReadValue(Some(Code(lang)))) == lang
    ensures LoadedLanguage(En, ReadValue(Some(other))) == En
    ensures LoadedLanguage(En, ReadValue(None)) == En
    ensures LoadedLanguage(En, ReadFailed) == En
  {
    CodeRoundTrip(lang);
  }

  /** The state of a `LanguageProvider`, with the storage entry it reads and
      writes. */
  class LanguageProvider {
    var language: Language
    var isLoading: bool
    /** The device-storage entry under `LanguageStorageKey`. */
    var stored: Option<string>

    /** A fresh provider, before `loadLanguage` has finished: English, loading. */
    constructor (entry: Option<string>)
      ensures language == En && isLoading
      ensures stored == entry
    {
      language := En;
      isLoading := true;
      stored := entry;
    }

    /** `loadLanguage`: adopts the stored code when it is exactly "tr", "en" or
        "ru", keeps the language otherwise, and always ends loading, whether
        the read succeeded, failed or found nothing. */
    method LoadLanguage(readFails: bool)
      modifies this
      ensures language == LoadedLanguage(old(language), if readFails then ReadFailed else ReadValue(old(stored)))
      ensures !isLoading
      ensures stored == old(stored)
    {
      if !readFails {
        var saved := stored;
        if saved.Some? {
          var parsed := ParseCode(saved.value);
          if parsed.Some? {
            language := parsed.value;
          }
        }
      }
      isLoading := false;
    }

    /** `setLanguage`: the language changes in memory first; the write may
        fail, and a failed write does not undo the change. */
    method SetLanguage(lang: Language, writeFails: bool)
      modifies this
      ensures language == lang
      ensures stored == if writeFails then old(stored) else Some(Code(lang))
      ensures isLoading == old(isLoading)
    {
      language := lang;
      if !writeFails {
        stored := Some(Code(lang));
      }
    }

    /** `t`: the bundle of the current language; it changes with the language
        and has the same shape in every language. */
    function T(): (t: Translations)
      reads this
      ensures language in Table && t == Table[language]
      ensures WellShaped(t)
    {
      Lookup(language)
    }
  }

  /** `useLanguage`: the enclosing provider, or a thrown error when there is
      none. */
  function UseLanguage(context: Option<LanguageProvider>): (r: Fallible<LanguageProvider>)
    ensures r.Ok? <==> context.Some?
    ensures r.Ok? ==> r.value == context.value
    ensures r.Thrown? ==> r.message == UseLanguageError
  {
    match context
    case None => Thrown(UseLanguageError)
    case Some(provider) => Ok(provider)
  }
}
