/** The privacy-policy catalogue (src/app/privacy/services/privacy.service.ts): which
    (type, language) pairs exist, where their HTML lives, their titles, and the policy a request
    yields. The HTTP client is a parameter: a map from asset path to file content, where a path
    that is absent is a failed request. */
module PrivacyService {
  import opened Wrappers

  datatype PolicyMeta = PolicyMeta(policyType: string, languages: seq<string>, description: string)

  datatype PrivacyPolicy = PrivacyPolicy(
    policyType: string, language: string, title: string, content: string, lastUpdated: string)

  /** `availablePolicies`. */
  const AvailablePolicies: seq<PolicyMeta> := [
    PolicyMeta("basic", ["en", "de"], "Standard privacy policy for z-control QR Code Generator App"),
    PolicyMeta("premium", ["en", "de"], "Privacy policy for premium features (future)")
  ]

  const LastUpdated := "2025-06-30"
  const DefaultTitle := "Privacy Policy"

  /** `policies.find((p) => p.type === t)`. */
  function FindPolicy(policies: seq<PolicyMeta>, t: string): (r: Option<PolicyMeta>)
    ensures r.None? <==> forall i :: 0 <= i < |policies| ==> policies[i].policyType != t
    ensures r.Some? ==> r.value in policies && r.value.policyType == t
  {
    if policies == [] then None
    else if policies[0].policyType == t then Some(policies[0])
    else FindPolicy(policies[1..], t)
  }

  /** `isPolicyAvailable`. */
  predicate IsPolicyAvailable(t: string, l: string) {
    match FindPolicy(AvailablePolicies, t)
    case Some(meta) => l in meta.languages
    case None => false
  }

  /** The catalogue is exactly basic and premium, each in English and German. */
  lemma {:induction false} AvailableExactly(t: string, l: string)
    ensures IsPolicyAvailable(t, l) <==> (t == "basic" || t == "premium") && (l == "en" || l == "de")
  {
    if t == "basic" {
      assert AvailablePolicies[0].policyType == t;
    } else if t == "premium" {
      assert AvailablePolicies[0].policyType != t;
      assert AvailablePolicies[1].policyType == t;
    } else {
      assert forall i :: 0 <= i < |AvailablePolicies| ==> AvailablePolicies[i].policyType != t;
    }
  }

  /** The asset that `loadPolicyContent` requests. */
  function ContentPath(t: string, l: string): string {
    "assets/privacy/policies/" + t + "/" + t + "-" + l + ".html"
  }

  /** Different policy types never share a file. */
  lemma {:induction false} ContentPathSeparatesTypes(t1: string, l1: string, t2: string, l2: string)
    requires '/' !in t1 && '/' !in t2
    requires ContentPath(t1, l1) == ContentPath(t2, l2)
    ensures t1 == t2
  {
    var prefix := "assets/privacy/policies/";
    var p := ContentPath(t1, l1);
    assert p[|prefix|..] == t1 + ("/" + t1 + "-" + l1 + ".html");
    assert p[|prefix|..] == t2 + ("/" + t2 + "-" + l2 + ".html");
    SegmentsEqual(t1, "/" + t1 + "-" + l1 + ".html", t2, "/" + t2 + "-" + l2 + ".html");
  }

  /** Two strings that each run up to a `/` agree on the part before it. */
  lemma {:induction false} SegmentsEqual(a: string, ra: string, b: string, rb: string)
    requires '/' !in a && '/' !in b && ra != [] && ra[0] == '/' && rb != [] && rb[0] == '/'
    requires a + ra == b + rb
    ensures a == b
  {
    assert (a + ra)[0] == (b + rb)[0];
    if a != [] && b != [] {
      assert (a + ra)[1..] == a[1..] + ra;
      assert (b + rb)[1..] == b[1..] + rb;
      SegmentsEqual(a[1..], ra, b[1..], rb);
      assert a == [a[0]] + a[1..];
      assert b == [b[0]] + b[1..];
    }
  }

  /** `getTitle`: the entry of the titles table, or `Privacy Policy` for any other pair. */
  function Title(t: string, l: string): (r: string)
    ensures r != ""
    ensures r == DefaultTitle <==> !((t == "basic" || t == "premium") && (l == "en" || l == "de"))
  {
    if t == "basic" && l == "en" then "Privacy Policy - z-control QR Code Generator App"
    else if t == "basic" && l == "de" then "Datenschutzerklärung - z-control QR-Code-Generator-App"
    else if t == "premium" && l == "en" then "Privacy Policy - Premium Features"
    else if t == "premium" && l == "de" then "Datenschutzerklärung - Premium-Funktionen"
    else DefaultTitle
  }

  /** Every available policy has a title of its own: the fallback title is used for no pair
      that can be loaded, and the four available pairs have four different titles. */
  lemma {:induction false} TitlesOfAvailable(t1: string, l1: string, t2: string, l2: string)
    requires IsPolicyAvailable(t1, l1) && IsPolicyAvailable(t2, l2)
    ensures Title(t1, l1) != DefaultTitle
    ensures Title(t1, l1) == Title(t2, l2) ==> t1 == t2 && l1 == l2
  {
    AvailableExactly(t1, l1);
    AvailableExactly(t2, l2);
  }

  /** The fallback title `Privacy Policy` is used exactly for the pairs that cannot be loaded. */
  lemma {:induction false} TitleFallbackExactly(t: string, l: string)
    ensures Title(t, l) == DefaultTitle <==> !IsPolicyAvailable(t, l)
  {
    AvailableExactly(t, l);
  }

  /** What a `getPolicy` call does: the assets it requests and the policy (or `null`) it yields. */
  datatype Outcome = Outcome(requested: seq<string>, policy: Option<PrivacyPolicy>)

  /** `getPolicy(t, l)`: an unavailable pair yields `null` without a request; an available one
      requests its file and yields the policy on success and `null` on failure. */
  function GetPolicy(t: string, l: string, http: map<string, string>): (r: Outcome)
    ensures !IsPolicyAvailable(t, l) ==> r.requested == [] && r.policy.None?
    ensures IsPolicyAvailable(t, l) ==> r.requested == [ContentPath(t, l)]
    ensures r.policy.Some? <==> IsPolicyAvailable(t, l) && ContentPath(t, l) in http
    ensures r.policy.Some? ==>
      r.policy.value == PrivacyPolicy(t, l, Title(t, l), http[ContentPath(t, l)], LastUpdated)
  {
    if !IsPolicyAvailable(t, l) then Outcome([], None)
    else
      var path := ContentPath(t, l);
      if path in http then Outcome([path], Some(PrivacyPolicy(t, l, Title(t, l), http[path], LastUpdated)))
      else Outcome([path], None)
  }

  /** `getDefaultPolicy`: the basic English policy. */
  function GetDefaultPolicy(http: map<string, string>): Outcome {
    GetPolicy("basic", "en", http)
  }

  /** The default policy is always requested, from its fixed asset, and is the basic English
      policy titled for the app whenever that file loads. */
  lemma {:induction false} DefaultPolicyRequested(http: map<string, string>)
    ensures GetDefaultPolicy(http).policy.Some? <==> "assets/privacy/policies/basic/basic-en.html" in http
    ensures GetDefaultPolicy(http).policy.Some? ==>
      GetDefaultPolicy(http).policy.value.policyType == "basic" && GetDefaultPolicy(http).policy.value.language == "en"
    ensures GetDefaultPolicy(http).requested == ["assets/privacy/policies/basic/basic-en.html"]
    ensures GetDefaultPolicy(http).policy.Some? ==>
      GetDefaultPolicy(http).policy.value.title == "Privacy Policy - z-control QR Code Generator App"
  {
    AvailableExactly("basic", "en");
    assert ContentPath("basic", "en") == "assets/privacy/policies/basic/basic-en.html";
  }
}
