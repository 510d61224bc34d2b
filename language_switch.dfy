/** The EN/UR switch (client/components/LanguageSwitch.tsx): which side is
    active, where the thumb slides and which language a press selects. */
module LanguageSwitch {
  import opened Types
  import Strings

  /** `i18n.language || 'en'` */
  function CurrentLang(language: Option<string>): (lang: string)
    ensures lang != ""
    ensures Truthy(language) ==> lang == language.value
    ensures !Truthy(language) ==> lang == "en"
  {
    if Truthy(language) then language.value else "en"
  }

  /** Any code starting with `ur` (such as `ur-PK`) counts as Urdu. */
  predicate IsUrdu(lang: string) {
    Strings.StartsWith(lang, "ur")
  }

  /** `en` and `fr` are not Urdu codes; `ur` is. */
  lemma UrduCodes()
    ensures IsUrdu("ur") && !IsUrdu("en") && !IsUrdu("fr")
  {
    assert "en"[..2] == "en" && "en"[0] != "ur"[0];
    assert "fr"[..2] == "fr" && "fr"[0] != "ur"[0];
    assert "ur"[..2] == "ur";
  }

  /** The thumb's animation target: 1 on the Urdu side, 0 otherwise. */
  function SlideTarget(lang: string): (x: int)
    ensures x == 1 <==> IsUrdu(lang)
    ensures x == 0 <==> !IsUrdu(lang)
  {
    if IsUrdu(lang) then 1 else 0
  }

  /** toggleLanguage: Urdu goes to English, anything else to Urdu. */
  function ToggleTarget(lang: string): (next: string)
    ensures next == "en" || next == "ur"
    ensures IsUrdu(next) <==> !IsUrdu(lang)
  {
    UrduCodes();
    if IsUrdu(lang) then "en" else "ur"
  }

  /** Two presses restore either of the two supported languages. */
  lemma ToggleTwiceRestores(lang: string)
    requires lang == "en" || lang == "ur"
    ensures ToggleTarget(ToggleTarget(lang)) == lang
  {
    UrduCodes();
  }
}
