/** The analytics wrapper (src/app/services/firebase-analytics.service.ts): the Firebase app and
    analytics handles, the `enabled` consent flag, and which events reach the SDK.

    The SDK is outside the model. Its handles are values built from the configuration, and
    whether each SDK call throws is a parameter (`Sdk`). The state the three methods change is
    also given as a value (`ServiceState`), and each method is specified by a function on it, so
    the consent properties are lemmas about those functions. */
module FirebaseAnalytics {
  import opened Wrappers

  datatype FirebaseConfig = FirebaseConfig(projectId: string, measurementId: Option<string>)
  datatype FirebaseApp = FirebaseApp(config: FirebaseConfig)
  datatype Analytics = Analytics(app: FirebaseApp)
  datatype Event = Event(name: string, params: map<string, string>)

  /** Which SDK calls throw: `initializeApp`, `getAnalytics`, `setAnalyticsCollectionEnabled`
      and `logEvent`. */
  datatype Sdk = Sdk(initializeThrows: bool, getAnalyticsThrows: bool, setCollectionThrows: bool, logThrows: bool)

  datatype ServiceState = ServiceState(app: Option<FirebaseApp>, analytics: Option<Analytics>, enabled: bool)

  /** `environment.firebase?.measurementId` is truthy. */
  predicate HasMeasurementId(config: FirebaseConfig) {
    config.measurementId.Some? && config.measurementId.value != ""
  }

  /** The flag is only ever on while there is an analytics handle. */
  predicate Consistent(s: ServiceState) {
    s.enabled ==> s.analytics.Some?
  }

  /** `init()`: without a window, or when `initializeApp` throws, nothing changes; a
      measurement id gives an analytics handle with collection off; when `getAnalytics` throws
      only the app is kept. */
  function InitState(s: ServiceState, hasWindow: bool, config: FirebaseConfig, sdk: Sdk): ServiceState {
    if !hasWindow || sdk.initializeThrows then s
    else
      var app := FirebaseApp(config);
      if !HasMeasurementId(config) || sdk.getAnalyticsThrows then s.(app := Some(app))
      else ServiceState(Some(app), Some(Analytics(app)), false)
  }

  /** `enableCollection(allow)`: without analytics the flag goes off; otherwise it follows
      `allow` unless the SDK call throws, which leaves it as it was. */
  function EnableState(s: ServiceState, allow: bool, sdk: Sdk): ServiceState {
    if s.analytics.None? then s.(enabled := false)
    else if sdk.setCollectionThrows then s
    else s.(enabled := allow)
  }

  /** `logEvent` hands an event to the SDK exactly in these states. */
  predicate Forwards(s: ServiceState) {
    s.analytics.Some? && s.enabled
  }

  /** `init` never switches collection on, and with a window, a working SDK and a measurement id
      it leaves a handle with collection off; without a measurement id the handle is unchanged. */
  lemma {:induction false} InitNeverEnables(s: ServiceState, hasWindow: bool, config: FirebaseConfig, sdk: Sdk)
    ensures InitState(s, hasWindow, config, sdk).enabled ==> s.enabled
    ensures Consistent(s) ==> Consistent(InitState(s, hasWindow, config, sdk))
    ensures hasWindow && !sdk.initializeThrows && !sdk.getAnalyticsThrows && HasMeasurementId(config) ==>
      InitState(s, hasWindow, config, sdk).analytics.Some? && !InitState(s, hasWindow, config, sdk).enabled
    ensures !HasMeasurementId(config) ==> InitState(s, hasWindow, config, sdk).analytics == s.analytics
    ensures !hasWindow ==> InitState(s, hasWindow, config, sdk) == s
  {
  }

  /** After `enableCollection(allow)` the flag is `allow` when the SDK accepted the call, off
      without analytics, and otherwise unchanged; so refusing consent can leave collection on only
      if it was on and the SDK call failed. */
  lemma {:induction false} EnableFollowsConsent(s: ServiceState, allow: bool, sdk: Sdk)
    ensures Consistent(EnableState(s, allow, sdk))
    ensures s.analytics.Some? && !sdk.setCollectionThrows ==> EnableState(s, allow, sdk).enabled == allow
    ensures EnableState(s, allow, sdk).enabled ==> s.analytics.Some? && (allow || (s.enabled && sdk.setCollectionThrows))
    ensures EnableState(s, allow, sdk).analytics == s.analytics && EnableState(s, allow, sdk).app == s.app
  {
  }

  /** Nothing is logged after a refusal the SDK accepted, nor before any consent. */
  lemma {:induction false} NoEventsWithoutConsent(s: ServiceState, hasWindow: bool, config: FirebaseConfig, sdk: Sdk)
    ensures !sdk.setCollectionThrows ==> !Forwards(EnableState(s, false, sdk))
    ensures !s.enabled ==> !Forwards(InitState(s, hasWindow, config, sdk))
  {
  }

  class FirebaseAnalyticsService {
    var app: Option<FirebaseApp>
    var analytics: Option<Analytics>
    var enabled: bool
    /** The events handed to the SDK's `logEvent` that it accepted. */
    var delivered: seq<Event>

    function State(): ServiceState
      reads this
    {
      ServiceState(app, analytics, enabled)
    }

    constructor()
      ensures State() == ServiceState(None, None, false) && delivered == []
    {
      app := None;
      analytics := None;
      enabled := false;
      delivered := [];
    }

    /** `init()`. */
    method Init(hasWindow: bool, config: FirebaseConfig, sdk: Sdk)
      modifies this
      ensures State() == InitState(old(State()), hasWindow, config, sdk)
      ensures delivered == old(delivered)
    {
      if !hasWindow {
        return;
      }
      if sdk.initializeThrows {
        return;
      }
      app := Some(FirebaseApp(config));
      if HasMeasurementId(config) {
        if sdk.getAnalyticsThrows {
          return;
        }
        analytics := Some(Analytics(app.value));
        enabled := false;
      }
    }

    /** `logEvent(name, params)`: whether the event was handed to the SDK. A throwing SDK call
        is caught, so the event is then simply lost. */
    method LogEvent(e: Event, sdk: Sdk) returns (forwarded: bool)
      modifies this
      ensures forwarded <==> Forwards(old(State()))
      ensures delivered == old(delivered) + (if forwarded && !sdk.logThrows then [e] else [])
      ensures State() == old(State())
    {
      if analytics.None? || !enabled {
        return false;
      }
      forwarded := true;
      if !sdk.logThrows {
        delivered := delivered + [e];
      }
    }

    /** `enableCollection(allow)`. */
    method EnableCollection(allow: bool, sdk: Sdk)
      modifies this
      ensures State() == EnableState(old(State()), allow, sdk)
      ensures delivered == old(delivered)
    {
      if analytics.None? {
        enabled := false;
        return;
      }
      if !sdk.setCollectionThrows {
        enabled := allow;
      }
    }
  }
}
