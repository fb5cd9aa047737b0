/** `useTranslation`: the interface strings fetched for the native language
    kept in localStorage, and the lookup `t(key, fallback)`. The request to
    `/api/translate-ui` is a parameter from the target language to its
    outcome. */
module Translation {
  import opened Common

  /** The outcome of the request: a non-ok status, an exception (network or
      `response.json()`), or the parsed translations. */
  datatype FetchOutcome = NotOk | Threw | Ok(data: map<string, string>)

  /** `translations[key] || fallback || key`. */
  function T(translations: map<string, string>, key: string, fallback: Option<string>): (r: string)
    ensures key in translations && translations[key] != "" ==> r == translations[key]
    ensures !(key in translations && translations[key] != "") && Truthy(fallback) ==> r == fallback.value
    ensures !(key in translations && translations[key] != "") && !Truthy(fallback) ==> r == key
  {
    if key in translations && translations[key] != "" then translations[key]
    else if Truthy(fallback) then fallback.value
    else key
  }

  /** `t` never yields an empty string for a non-empty key, and before any
      translations arrive it shows the fallback or the key. */
  lemma TShowsSomething(translations: map<string, string>, key: string, fallback: Option<string>)
    ensures key != "" ==> T(translations, key, fallback) != ""
    ensures T(map[], key, fallback) == OrElse(fallback, key)
  {
  }

  /** The native language the hook uses: the stored one, 'English' when it is absent or empty. */
  function NativeLanguage(stored: Option<string>): string {
    OrElse(stored, "English")
  }

  /** The hook's state. */
  class TranslationHook {
    var translations: map<string, string>
    var loading: bool

    /** The initial state: no translations, loading. */
    constructor ()
      ensures translations == map[] && loading
    {
      translations := map[];
      loading := true;
    }

    /** `fetchTranslations()` with the localStorage entry `stored`: no request
        for English; otherwise the translations are replaced only by an ok
        response. Loading is over either way. `requested` is the language
        sent, if a request was made. */
    method FetchTranslations(stored: Option<string>, respond: string -> FetchOutcome)
      returns (requested: Option<string>)
      modifies this
      ensures !loading
      ensures NativeLanguage(stored) == "English" ==> requested == None && translations == old(translations)
      ensures NativeLanguage(stored) != "English" ==> requested == Some(NativeLanguage(stored))
      ensures NativeLanguage(stored) != "English" && respond(NativeLanguage(stored)).Ok? ==>
        translations == respond(NativeLanguage(stored)).data
      ensures NativeLanguage(stored) != "English" && !respond(NativeLanguage(stored)).Ok? ==>
        translations == old(translations)
    {
      var nativeLanguage := NativeLanguage(stored);
      if nativeLanguage == "English" {
        loading := false;
        return None;
      }
      requested := Some(nativeLanguage);
      var outcome := respond(nativeLanguage);
      if outcome.Ok? {
        translations := outcome.data;
      }
      loading := false;
    }

    /** `handleStorageChange`: only a change of the 'nativeLanguage' entry refetches. */
    method OnStorage(eventKey: Option<string>, stored: Option<string>, respond: string -> FetchOutcome)
      returns (requested: Option<string>)
      modifies this
      ensures eventKey != Some("nativeLanguage") ==>
        requested == None && translations == old(translations) && loading == old(loading)
      ensures eventKey == Some("nativeLanguage") ==> !loading
      ensures eventKey == Some("nativeLanguage") && NativeLanguage(stored) == "English" ==>
        requested == None && translations == old(translations)
      ensures eventKey == Some("nativeLanguage") && NativeLanguage(stored) != "English" ==>
        requested == Some(NativeLanguage(stored))
      ensures eventKey == Some("nativeLanguage") && NativeLanguage(stored) != "English" && respond(NativeLanguage(stored)).Ok? ==>
        translations == respond(NativeLanguage(stored)).data
      ensures eventKey == Some("nativeLanguage") && NativeLanguage(stored) != "English" && !respond(NativeLanguage(stored)).Ok? ==>
        translations == old(translations)
    {
      if eventKey == Some("nativeLanguage") {
        requested := FetchTranslations(stored, respond);
      } else {
        requested := None;
      }
    }
  }

  /** An English user never triggers a request and sees only fallbacks and keys. */
  method EnglishNeverFetches(stored: Option<string>, respond: string -> FetchOutcome, key: string, fallback: Option<string>)
    returns (requested: Option<string>, shown: string)
    requires NativeLanguage(stored) == "English"
    ensures requested == None && shown == OrElse(fallback, key)
  {
    var hook := new TranslationHook();
    requested := hook.FetchTranslations(stored, respond);
    shown := T(hook.translations, key, fallback);
  }
}
