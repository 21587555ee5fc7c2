/**
 * Processor configuration: which secret key and webhook secret are used,
 * and the one-hour cache in front of the USD-to-INR exchange rate.
 */
module StripeConfig {
  import opened Wrappers
  import opened Records
  import opened Db

  /** The secret key from the settings row, if that row has a non-empty one. */
  function SettingsKey(settings: seq<SettingsRow>): Option<string> {
    match FirstSettings(settings)
    case Some(row) => row.stripeSecretKey
    case None => None
  }

  /**
   * `getStripeClient`: the key it initialises the client with, or `None`
   * when it throws because neither the settings row nor the environment
   * yields a non-empty key.
   */
  function SecretKey(settings: seq<SettingsRow>, envKey: Option<string>): (r: Option<string>)
    ensures r.Some? <==> TruthyStr(SettingsKey(settings)) || TruthyStr(envKey)
    ensures r.Some? ==> r.value != ""
    ensures TruthyStr(SettingsKey(settings)) ==> r == SettingsKey(settings)
    ensures !TruthyStr(SettingsKey(settings)) ==> r == (if TruthyStr(envKey) then envKey else None)
  {
    var key := if TruthyStr(SettingsKey(settings)) then SettingsKey(settings) else envKey;
    if TruthyStr(key) then key else None
  }

  /**
   * `getStripeWebhookSecret`: the settings value when non-empty, else the
   * environment value as it is (possibly missing); it never throws.
   */
  function WebhookSecret(settings: seq<SettingsRow>, envSecret: Option<string>): (r: Option<string>)
    ensures FirstSettings(settings).Some? && TruthyStr(FirstSettings(settings).value.stripeWebhookSecret)
            ==> r == FirstSettings(settings).value.stripeWebhookSecret
    ensures !(FirstSettings(settings).Some? && TruthyStr(FirstSettings(settings).value.stripeWebhookSecret))
            ==> r == envSecret
  {
    match FirstSettings(settings)
    case Some(row) => if TruthyStr(row.stripeWebhookSecret) then row.stripeWebhookSecret else envSecret
    case None => envSecret
  }

  /** A settings key, when usable, wins over the environment. */
  lemma SettingsKeyWins(settings: seq<SettingsRow>, envKey: Option<string>)
    requires settings != [] && TruthyStr(settings[0].stripeSecretKey)
    ensures SecretKey(settings, envKey) == settings[0].stripeSecretKey
  {
  }

  /** Cache lifetime in ms. */
  const CacheDuration: int := 3600 * 1000

  /** The rate served when no rate was ever fetched. */
  const DefaultRate: real := 90.0

  /** The cache after one call, together with the rate the call returns. */
  datatype RateState = RateState(cachedRate: Option<real>, lastFetchTime: int)
  datatype RateResult = RateResult(rate: real, next: RateState)

  /** The cached rate is served without fetching: truthy and younger than an hour. */
  predicate Fresh(s: RateState, now: int) {
    s.cachedRate.Some? && s.cachedRate.value != 0.0 && now - s.lastFetchTime < CacheDuration
  }

  /** `cachedRate || 90`. */
  function Fallback(s: RateState): real {
    if s.cachedRate.Some? && s.cachedRate.value != 0.0 then s.cachedRate.value else DefaultRate
  }

  /**
   * `getConversionRate` at time `now`; `fetched` is `rates.INR` from the
   * exchange-rate service, `None` when the request throws or the body has no
   * such rate.
   */
  function RateStep(s: RateState, now: int, fetched: Option<real>): RateResult {
    if Fresh(s, now) then RateResult(s.cachedRate.value, s)
    else if fetched.Some? && fetched.value != 0.0 then
      RateResult(fetched.value, RateState(fetched, now))
    else RateResult(Fallback(s), s)
  }

  /** A fresh entry is returned and the service reply plays no part. */
  lemma FreshIsServed(s: RateState, now: int, fetched: Option<real>)
    requires Fresh(s, now)
    ensures RateStep(s, now, fetched) == RateResult(s.cachedRate.value, s)
  {
  }

  /** A usable reply to a call that was not served from the cache is stored with this call's time. */
  lemma RefreshStores(s: RateState, now: int, v: real)
    requires !Fresh(s, now) && v != 0.0
    ensures RateStep(s, now, Some(v)) == RateResult(v, RateState(Some(v), now))
  {
  }

  /** A failed refresh leaves the cache alone and serves the old rate or 90. */
  lemma FailureKeepsCache(s: RateState, now: int, fetched: Option<real>)
    requires !Fresh(s, now) && (fetched.None? || fetched.value == 0.0)
    ensures RateStep(s, now, fetched).next == s
    ensures RateStep(s, now, fetched).rate
            == if s.cachedRate.Some? && s.cachedRate.value != 0.0 then s.cachedRate.value else 90.0
  {
  }

  /**
   * A stale entry that failed to refresh stays stale: the next call, at any
   * later time, asks the service again.
   */
  lemma StaleStaysStale(s: RateState, now: int, later: int, fetched: Option<real>)
    requires !Fresh(s, now) && (fetched.None? || fetched.value == 0.0) && now <= later
    ensures !Fresh(RateStep(s, now, fetched).next, later)
  {
  }

  /** A stored rate is never 0, and then every call returns a non-zero rate. */
  ghost predicate NonZeroCache(s: RateState) {
    s.cachedRate.Some? ==> s.cachedRate.value != 0.0
  }

  lemma RateAlwaysDefined(s: RateState, now: int, fetched: Option<real>)
    requires NonZeroCache(s)
    ensures RateStep(s, now, fetched).rate != 0.0
    ensures NonZeroCache(RateStep(s, now, fetched).next)
  {
  }

  /** The module-level `cachedRate` and `lastFetchTime`. */
  class RateCache {
    var cachedRate: Option<real>
    var lastFetchTime: int

    function State(): RateState
      reads this
    {
      RateState(cachedRate, lastFetchTime)
    }

    /** Only truthy rates are ever stored. */
    ghost predicate Valid()
      reads this
    {
      NonZeroCache(State())
    }

    constructor ()
      ensures Valid() && State() == RateState(None, 0)
    {
      cachedRate := None;
      lastFetchTime := 0;
    }

    method GetConversionRate(now: int, fetched: Option<real>) returns (rate: real)
      requires Valid()
      modifies this
      ensures Valid() && rate != 0.0
      ensures RateResult(rate, State()) == RateStep(old(State()), now, fetched)
    {
      RateAlwaysDefined(State(), now, fetched);
      if cachedRate.Some? && cachedRate.value != 0.0 && now - lastFetchTime < CacheDuration {
        return cachedRate.value;
      }
      if fetched.Some? && fetched.value != 0.0 {
        cachedRate := fetched;
        lastFetchTime := now;
        return cachedRate.value;
      }
      rate := if cachedRate.Some? && cachedRate.value != 0.0 then cachedRate.value else DefaultRate;
    }
  }
}
