/**
 * The per-key settings bag the host persists for one action instance, the
 * credential gate that decides whether the key is configured at all, and the
 * freshness rule that lets a re-render reuse the cached count.
 */
module Config {
  import opened Wrappers

  /**
   * The settings of one key, as the host hands them to the plugin.
   * `lastDateTime` is the instant of the last successful sync in milliseconds
   * since the epoch; `None` stands for a missing or unparseable ISO-8601 string
   * (both give an invalid `Date`).
   */
  datatype Settings = Settings(
    website: string,
    apiKey: Option<string>,
    username: Option<string>,
    password: Option<string>,
    lastCount: Option<nat>,
    lastDateTime: Option<int>)

  /** Length of the freshness window: ten minutes in milliseconds. */
  const FreshnessWindowMs: int := 10 * 60 * 1000

  /** JavaScript truthiness of an optional string field: present and non-empty. */
  predicate Truthy(field: Option<string>) {
    field.Some? && field.value != ""
  }

  /** `settings.apiKey || (settings.username && settings.password)` */
  predicate HasCredentials(s: Settings)
    ensures HasCredentials(s) ==> s.apiKey.Some? || (s.username.Some? && s.password.Some?)
    ensures s.apiKey == Some("") && s.username.None? ==> !HasCredentials(s)
  {
    Truthy(s.apiKey) || (Truthy(s.username) && Truthy(s.password))
  }

  /** `(new Date() - lastDate) / 1000 / 60`, the elapsed minutes as a real. */
  function ElapsedMinutes(now: int, last: int): real {
    (now - last) as real / 1000.0 / 60.0
  }

  /**
   * `updatedLessThanTenMinutesAgo`: an invalid date makes the subtraction NaN
   * and the comparison false, so a missing timestamp counts as stale.
   */
  predicate UpdatedLessThanTenMinutesAgo(s: Settings, now: int)
    ensures s.lastDateTime.None? ==> !UpdatedLessThanTenMinutesAgo(s, now)
    ensures s.lastDateTime.Some? ==>
      (UpdatedLessThanTenMinutesAgo(s, now) <==> now - s.lastDateTime.value < FreshnessWindowMs)
  {
    s.lastDateTime.Some? && ElapsedMinutes(now, s.lastDateTime.value) < 10.0
  }

  /** The cache may be shown instead of fetching: recent sync and a count is stored. */
  predicate IsFresh(s: Settings, now: int)
    ensures IsFresh(s, now) ==> s.lastCount.Some? && s.lastDateTime.Some?
    ensures IsFresh(s, now) ==> now - s.lastDateTime.value < FreshnessWindowMs
  {
    UpdatedLessThanTenMinutesAgo(s, now) && s.lastCount.Some?
  }

  /** The settings written back after a successful sync at instant `now`. */
  function WithLastValues(s: Settings, count: nat, now: int): (r: Settings)
    ensures r.lastCount == Some(count) && r.lastDateTime == Some(now)
    ensures r.website == s.website && r.apiKey == s.apiKey
    ensures r.username == s.username && r.password == s.password
  {
    s.(lastCount := Some(count), lastDateTime := Some(now))
  }

  /** The floating-point comparison of the source is exactly an integer window. */
  lemma FreshnessInMilliseconds(s: Settings, now: int)
    ensures IsFresh(s, now) <==>
      s.lastDateTime.Some? && now - s.lastDateTime.value < FreshnessWindowMs && s.lastCount.Some?
  {
    if s.lastDateTime.Some? {
      var d := (now - s.lastDateTime.value) as real;
      assert ElapsedMinutes(now, s.lastDateTime.value) == d / 60000.0;
    }
  }

  /** Storing a sync makes the cache fresh for exactly the next ten minutes. */
  lemma StoredValuesStayFresh(s: Settings, count: nat, syncedAt: int, now: int)
    ensures syncedAt <= now < syncedAt + FreshnessWindowMs ==>
      IsFresh(WithLastValues(s, count, syncedAt), now)
    ensures now >= syncedAt + FreshnessWindowMs ==>
      !IsFresh(WithLastValues(s, count, syncedAt), now)
  {
    FreshnessInMilliseconds(WithLastValues(s, count, syncedAt), now);
  }

  /** Writing back a sync never changes whether the key is configured. */
  lemma StoringKeepsCredentials(s: Settings, count: nat, now: int)
    ensures HasCredentials(WithLastValues(s, count, now)) == HasCredentials(s)
  {
  }
}
