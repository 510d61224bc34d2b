/** Language detection and persistence (client/i18n/i18n.ts): a saved
    choice in device storage wins over the device locale, and a change of
    language is written back, ignoring storage errors. */
module I18n {
  import opened Types
  import LanguageSwitch

  const LanguageKey := "@app_language"

  /** The bundled translations and the language used for anything else
      (i18n.ts:41-48). */
  const Resources: set<string> := {"en", "ur"}
  const FallbackLng := "en"

  /** The translation table a language resolves to. */
  function ResourceLanguage(lang: string): (r: string)
    ensures r in Resources
    ensures lang in Resources ==> r == lang
    ensures lang !in Resources ==> r == FallbackLng
  {
    if lang in Resources then lang else FallbackLng
  }

  /** `getLocales()[0]?.languageCode ?? 'en'`; each locale's language code
      may be null. */
  function DeviceLanguage(localeCodes: seq<Option<string>>): (lang: string)
    ensures |localeCodes| > 0 && localeCodes[0].Some? ==> lang == localeCodes[0].value
    ensures |localeCodes| == 0 || localeCodes[0].None? ==> lang == "en"
  {
    if |localeCodes| > 0 && localeCodes[0].Some? then localeCodes[0].value else "en"
  }

  /** The detector's choice (i18n.ts:16-28) for what reading storage gave:
      `None` when the read threw, else the stored value or null. */
  function Detected(saved: Option<Option<string>>, localeCodes: seq<Option<string>>): (lang: string)
    ensures saved.Some? && Truthy(saved.value) ==> lang == saved.value.value
    ensures !(saved.Some? && Truthy(saved.value)) ==> lang == DeviceLanguage(localeCodes)
  {
    if saved.Some? && Truthy(saved.value) then saved.value.value else DeviceLanguage(localeCodes)
  }

  /** The device storage the detector reads and the cache writes. */
  class PreferenceStore {
    var entries: map<string, string>

    constructor (persisted: map<string, string>)
      ensures entries == persisted
    {
      entries := persisted;
    }

    /** detect (i18n.ts:16-28): `readFails` makes the storage read throw,
        which falls through to the device locale. */
    method Detect(readFails: bool, localeCodes: seq<Option<string>>) returns (lang: string)
      ensures var saved := if readFails then None
                           else Some(if LanguageKey in entries then Some(entries[LanguageKey]) else None);
        lang == Detected(saved, localeCodes)
    {
      if !readFails && LanguageKey in entries && entries[LanguageKey] != "" {
        return entries[LanguageKey];
      }
      lang := DeviceLanguage(localeCodes);
    }

    /** cacheUserLanguage (i18n.ts:29-35): a failed write is swallowed. */
    method CacheUserLanguage(language: string, writeFails: bool)
      modifies this
      ensures writeFails ==> entries == old(entries)
      ensures !writeFails ==> entries == old(entries)[LanguageKey := language]
    {
      if !writeFails {
        entries := entries[LanguageKey := language];
      }
    }
  }

  /** A language picked with the switch and cached is what the next start
      detects, whatever the device locale says. */
  lemma ToggledChoiceSurvivesRestart(current: Option<string>, entries: map<string, string>,
                                     localeCodes: seq<Option<string>>)
    ensures var chosen := LanguageSwitch.ToggleTarget(LanguageSwitch.CurrentLang(current));
      var after := entries[LanguageKey := chosen];
      Detected(Some(Some(after[LanguageKey])), localeCodes) == chosen
  {
  }
}
