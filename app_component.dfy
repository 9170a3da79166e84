/** The application root (src/app/app.component.ts): at start-up it initialises analytics,
    reads the stored consent and decides whether to show the consent banner; the banner's
    decision is stored and applied. The platform's `ready()` promise is taken to have resolved
    by the time the start-up logic runs. */
module AppComponent {
  import opened Wrappers
  import opened FirebaseAnalytics
  import opened LocalStorage

  /** The analytics state after start-up, given the outcome of reading the stored consent. */
  function StartupState(s: ServiceState, hasWindow: bool, config: FirebaseConfig, sdk: Sdk,
                        consent: Result<Option<bool>, string>): ServiceState {
    var afterInit := InitState(s, hasWindow, config, sdk);
    if consent.Success? && consent.value.Some? then EnableState(afterInit, consent.value.value, sdk)
    else afterInit
  }

  /** Whether the banner is shown after start-up. */
  predicate StartupBanner(consent: Result<Option<bool>, string>) {
    consent.Failure? || consent.value != Some(true)
  }

  /** The banner is shown unless consent was given; a stored decision is applied, and without one
      (or when the store cannot be read) collection stays as `init` left it, which is never on
      for a fresh service. */
  lemma {:induction false} StartupRespectsConsent(s: ServiceState, hasWindow: bool, config: FirebaseConfig, sdk: Sdk,
                               consent: Result<Option<bool>, string>)
    ensures !StartupBanner(consent) <==> consent == Success(Some(true))
    ensures Consistent(s) ==> Consistent(StartupState(s, hasWindow, config, sdk, consent))
    ensures !s.enabled && (consent.Failure? || consent.value != Some(true)) ==>
      !StartupState(s, hasWindow, config, sdk, consent).enabled
    ensures var afterInit := InitState(s, hasWindow, config, sdk);
      consent == Success(Some(true)) && afterInit.analytics.Some? && !sdk.setCollectionThrows ==>
        StartupState(s, hasWindow, config, sdk, consent).enabled
  {
    InitNeverEnables(s, hasWindow, config, sdk);
    var afterInit := InitState(s, hasWindow, config, sdk);
    if consent.Success? && consent.value.Some? {
      EnableFollowsConsent(afterInit, consent.value.value, sdk);
    }
  }

  class AppComponent {
    var showConsentBanner: bool
    const fa: FirebaseAnalyticsService
    const storage: Storage

    constructor(fa: FirebaseAnalyticsService, storage: Storage)
      ensures !showConsentBanner && this.fa == fa && this.storage == storage
    {
      showConsentBanner := false;
      this.fa := fa;
      this.storage := storage;
    }

    /** `ngOnInit`, up to the router subscription. */
    method NgOnInit(hasWindow: bool, config: FirebaseConfig, sdk: Sdk)
      modifies this, fa
      ensures var consent := if storage.blocked then Failure(SecurityError)
                             else Success(ParseConsent(Get(storage.items, ConsentKey)));
        fa.State() == StartupState(old(fa.State()), hasWindow, config, sdk, consent) &&
        showConsentBanner == StartupBanner(consent)
      ensures fa.delivered == old(fa.delivered)
    {
      fa.Init(hasWindow, config, sdk);
      var consent := GetAnalyticsConsent(storage);
      if consent.Failure? {
        showConsentBanner := true;
        return;
      }
      showConsentBanner := consent.value != Some(true);
      if consent.value.Some? {
        fa.EnableCollection(consent.value.value, sdk);
      }
    }

    /** `onConsentDecision(allow)`: stores the decision, applies it and hides the banner. When the
        store throws, the exception leaves the handler before the other two steps. */
    method OnConsentDecision(allow: bool, sdk: Sdk) returns (completed: bool)
      modifies this, fa, storage
      ensures completed == !storage.blocked
      ensures completed ==> storage.items == old(storage.items)[ConsentKey := BoolToString(allow)]
      ensures completed ==> fa.State() == EnableState(old(fa.State()), allow, sdk) && !showConsentBanner
      ensures !completed ==>
        storage.items == old(storage.items) && fa.State() == old(fa.State()) && showConsentBanner == old(showConsentBanner)
      ensures fa.delivered == old(fa.delivered)
    {
      completed := SetAnalyticsConsent(storage, allow);
      if !completed {
        return;
      }
      fa.EnableCollection(allow, sdk);
      showConsentBanner := false;
    }
  }
}
