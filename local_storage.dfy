/** Consent storage (src/app/services/local-storage.service.ts) over the browser's
    `localStorage`, a string-to-string store. A store the browser blocks throws on every access;
    that is the `blocked` flag. */
module LocalStorage {
  import opened Wrappers

  const ConsentKey := "analytics_consent"
  const SecurityError := "SecurityError"

  class Storage {
    var items: map<string, string>
    const blocked: bool

    constructor(blocked: bool)
      ensures items == map[] && this.blocked == blocked
    {
      items := map[];
      this.blocked := blocked;
    }

    /** `localStorage.setItem(k, v)`: whether it returned rather than threw. */
    method SetItem(k: string, v: string) returns (ok: bool)
      modifies this
      ensures ok == !blocked
      ensures items == if ok then old(items)[k := v] else old(items)
    {
      if blocked {
        return false;
      }
      items := items[k := v];
      ok := true;
    }

    /** `localStorage.getItem(k)`: the stored string or `null`, or the exception. */
    method GetItem(k: string) returns (r: Result<Option<string>, string>)
      ensures blocked ==> r == Failure(SecurityError)
      ensures !blocked ==> r == Success(Get(items, k))
    {
      if blocked {
        return Failure(SecurityError);
      }
      r := Success(Get(items, k));
    }
  }

  /** `allow.toString()`. */
  function BoolToString(b: bool): string {
    if b then "true" else "false"
  }

  /** What `getAnalyticsConsent` makes of the stored string: `null` stays `null`, and only
      `"true"` means consent. */
  function ParseConsent(stored: Option<string>): (r: Option<bool>)
    ensures r.None? <==> stored.None?
    ensures r == Some(true) <==> stored == Some("true")
  {
    match stored
    case None => None
    case Some(s) => Some(s == "true")
  }

  /** Reading back what was written gives the decision that was written. */
  lemma {:induction false} ConsentRoundTrip(b: bool)
    ensures ParseConsent(Some(BoolToString(b))) == Some(b)
  {
  }

  /** `setAnalyticsConsent(allow)`: writes only the consent key; `false` when the store threw. */
  method SetAnalyticsConsent(storage: Storage, allow: bool) returns (ok: bool)
    modifies storage
    ensures ok == !storage.blocked
    ensures storage.items == if ok then old(storage.items)[ConsentKey := BoolToString(allow)] else old(storage.items)
  {
    ok := storage.SetItem(ConsentKey, BoolToString(allow));
  }

  /** `getAnalyticsConsent()`: the decision stored under the consent key. */
  method GetAnalyticsConsent(storage: Storage) returns (r: Result<Option<bool>, string>)
    ensures storage.blocked ==> r == Failure(SecurityError)
    ensures !storage.blocked ==> r == Success(ParseConsent(Get(storage.items, ConsentKey)))
  {
    var stored := storage.GetItem(ConsentKey);
    if stored.Failure? {
      return Failure(stored.error);
    }
    r := Success(ParseConsent(stored.value));
  }

  /** A consent written and then read back is the decision written, whatever else the store
      holds, and writing consent leaves every other key alone. */
  lemma {:induction false} StoredConsentReadsBack(items: map<string, string>, allow: bool, k: string)
    ensures ParseConsent(Get(items[ConsentKey := BoolToString(allow)], ConsentKey)) == Some(allow)
    ensures k != ConsentKey ==> Get(items[ConsentKey := BoolToString(allow)], k) == Get(items, k)
  {
    ConsentRoundTrip(allow);
  }
}
