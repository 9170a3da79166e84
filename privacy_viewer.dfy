/** The privacy-policy page (src/app/privacy/components/privacy-viewer/privacy-viewer.component.ts):
    the fallback that turns the requested (type, language) pair into one that exists, the
    loading flags, the language switcher and the legacy `from` parameter. */
module PrivacyViewer {
  import opened Wrappers
  import opened PrivacyService

  /** `mapLegacyFromParam`: the two spellings of the QR-code app give `basic`, the two future apps
      `premium` and `enterprise`, and anything else `basic`. */
  function MapLegacyFromParam(from: string): (r: string)
    ensures r == "basic" || r == "premium" || r == "enterprise"
    ensures r == "premium" <==> from == "Future App 1"
    ensures r == "enterprise" <==> from == "Future App 2"
  {
    if from == "z-control QR Code Generator App" || from == "Z-Control QR Code Generator App" then "basic"
    else if from == "Future App 1" then "premium"
    else if from == "Future App 2" then "enterprise"
    else "basic"
  }

  /** The pair that `loadPolicy` settles on: the requested pair if it exists, else the same type
      in English if that exists, else the basic English policy. */
  function Fallback(t: string, l: string): (r: (string, string))
    ensures IsPolicyAvailable(t, l) ==> r == (t, l)
    ensures !IsPolicyAvailable(t, l) && l != "en" && IsPolicyAvailable(t, "en") ==> r == (t, "en")
    ensures !IsPolicyAvailable(t, l) && (l == "en" || !IsPolicyAvailable(t, "en")) ==> r == ("basic", "en")
  {
    if IsPolicyAvailable(t, l) then (t, l)
    else if l != "en" && IsPolicyAvailable(t, "en") then (t, "en")
    else ("basic", "en")
  }

  /** Whatever was requested, the page ends up on a policy that exists, and it keeps the
      requested type whenever that type exists. */
  lemma {:induction false} FallbackAvailable(t: string, l: string)
    ensures IsPolicyAvailable(Fallback(t, l).0, Fallback(t, l).1)
    ensures (t == "basic" || t == "premium") ==> Fallback(t, l).0 == t
    ensures (t == "basic" || t == "premium") && (l == "en" || l == "de") ==> Fallback(t, l) == (t, l)
  {
    AvailableExactly(t, l);
    AvailableExactly(t, "en");
    AvailableExactly("basic", "en");
  }

  /** `policyMeta?.languages || ['en']` for the policy of type `t` (an array, even an empty one,
      is truthy, so only a missing policy gives `['en']`). */
  function LanguagesOf(t: string): seq<string> {
    match FindPolicy(AvailablePolicies, t)
    case Some(meta) => meta.languages
    case None => ["en"]
  }

  /** Types the catalogue knows are offered in English and German; others only in English. */
  lemma {:induction false} LanguagesOfTypes(t: string)
    ensures (t == "basic" || t == "premium") ==> LanguagesOf(t) == ["en", "de"]
    ensures t != "basic" && t != "premium" ==> LanguagesOf(t) == ["en"]
  {
    if t == "basic" {
      assert AvailablePolicies[0].policyType == t;
    } else if t == "premium" {
      assert AvailablePolicies[0].policyType != t;
    } else {
      assert forall i :: 0 <= i < |AvailablePolicies| ==> AvailablePolicies[i].policyType != t;
    }
  }

  class PrivacyViewerComponent {
    var policy: Option<PrivacyPolicy>
    var loading: bool
    var error: bool
    var policyType: string
    var language: string
    var availableLanguages: seq<string>

    constructor()
      ensures policy.None? && loading && !error && policyType == "basic" && language == "en"
      ensures availableLanguages == []
    {
      policy := None;
      loading := true;
      error := false;
      policyType := "basic";
      language := "en";
      availableLanguages := [];
    }

    /** `otherLanguage`. */
    function OtherLanguage(): (r: string)
      reads this
      ensures r == "en" || r == "de"
      ensures (language == "en" || language == "de") ==> r != language
      ensures r == "de" <==> language == "en"
    {
      if language == "en" then "de" else "en"
    }

    /** `hasOtherLanguage`. */
    predicate HasOtherLanguage()
      reads this
    {
      OtherLanguage() in availableLanguages
    }

    /** `loadAvailableLanguages`. */
    method LoadAvailableLanguages()
      modifies this
      ensures availableLanguages == LanguagesOf(policyType)
      ensures policy == old(policy) && loading == old(loading) && error == old(error)
      ensures policyType == old(policyType) && language == old(language)
    {
      var meta := FindPolicy(AvailablePolicies, policyType);
      availableLanguages := if meta.Some? then meta.value.languages else ["en"];
    }

    /** `loadPolicy`, with the response arriving at once. The request cannot fail as seen from
        here, because the service turns a failed download into `null`, so `error` stays false. */
    method LoadPolicy(http: map<string, string>)
      modifies this
      ensures (policyType, language) == Fallback(old(policyType), old(language))
      ensures IsPolicyAvailable(policyType, language)
      ensures policy == GetPolicy(policyType, language, http).policy
      ensures !loading && !error
      ensures availableLanguages == LanguagesOf(policyType) == ["en", "de"]
      ensures HasOtherLanguage()
    {
      loading := true;
      error := false;
      if !IsPolicyAvailable(policyType, language) {
        if language != "en" && IsPolicyAvailable(policyType, "en") {
          language := "en";
        } else {
          policyType := "basic";
          language := "en";
        }
      }
      FallbackAvailable(old(policyType), old(language));
      var outcome := GetPolicy(policyType, language, http);
      policy := outcome.policy;
      loading := false;
      LoadAvailableLanguages();
      AvailableExactly(policyType, language);
      LanguagesOfTypes(policyType);
    }

    /** `switchLanguage`: the route to navigate to, if any. */
    method SwitchLanguage(newLanguage: string) returns (navigation: Option<seq<string>>)
      ensures navigation.Some? <==> newLanguage != language && newLanguage in availableLanguages
      ensures navigation.Some? ==> navigation.value == ["/privacy", policyType, newLanguage]
    {
      if newLanguage != language && newLanguage in availableLanguages {
        navigation := Some(["/privacy", policyType, newLanguage]);
      } else {
        navigation := None;
      }
    }
  }
}
