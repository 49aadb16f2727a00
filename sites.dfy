/**
 * The registry of supported review sites: each one's review page, its icon,
 * the guard its adapter checks before it issues any request, and the count
 * its callback receives once the remote service has answered.
 */
module Sites {
  import opened Wrappers
  import opened Config

  datatype Site = Bunpro | Kitsun | WaniKani

  /** The key under which a site is registered (the `website` setting). */
  function Name(site: Site): string {
    match site
    case Bunpro => "bunpro"
    case Kitsun => "kitsun"
    case WaniKani => "wanikani"
  }

  /**
   * `supportedSites[website]`; `None` is the `undefined` that makes every
   * later member access throw.
   */
  function Lookup(website: string): (r: Option<Site>)
    ensures r.Some? ==> Name(r.value) == website
    ensures r.None? ==> forall site: Site :: Name(site) != website
  {
    if website == "bunpro" then Some(Bunpro)
    else if website == "kitsun" then Some(Kitsun)
    else if website == "wanikani" then Some(WaniKani)
    else None
  }

  function ReviewUrl(site: Site): (r: string)
    ensures |r| > 8 && r[..8] == "https://"
  {
    match site
    case Bunpro => "https://bunpro.jp/dashboard"
    case Kitsun => "https://kitsun.io/decks"
    case WaniKani => "https://www.wanikani.com/review"
  }

  /** The icon file shipped with the plugin, named after the site. */
  function Icon(site: Site): (r: string)
    ensures r == Name(site) + ".png"
  {
    match site
    case Bunpro => "bunpro.png"
    case Kitsun => "kitsun.png"
    case WaniKani => "wanikani.png"
  }

  /** Every registered site is found under its own name, and under no other. */
  lemma LookupName(site: Site, website: string)
    ensures Lookup(Name(site)) == Some(site)
    ensures Lookup(website) == Some(site) <==> website == Name(site)
  {
  }

  /** Distinct sites open distinct review pages and show distinct icons. */
  lemma RegistryIsInjective(a: Site, b: Site)
    ensures ReviewUrl(a) == ReviewUrl(b) <==> a == b
    ensures Icon(a) == Icon(b) <==> a == b
  {
    if a != b {
      assert ReviewUrl(a)[8] != ReviewUrl(b)[8];
      assert Icon(a)[0] != Icon(b)[0];
    }
  }

  /**
   * The guard at the top of `getReviewValue`: whether the adapter issues any
   * request at all. Bunpro returns when `apiKey == null`, Kitsun when
   * `username` or `password` is `null`; WaniKani has no guard.
   */
  predicate Issues(site: Site, s: Settings)
    ensures site == WaniKani ==> Issues(site, s)
    ensures Issues(site, s) ==> s.apiKey.Some? || (s.username.Some? && s.password.Some?) || site == WaniKani
  {
    match site
    case Bunpro => s.apiKey.Some?
    case Kitsun => s.username.Some? && s.password.Some?
    case WaniKani => true
  }

  /**
   * What the remote service does with the adapter's requests: whether a
   * Kitsun login is accepted, and whether the review query yields a count
   * (`None` for a network error or an unreadable body, which rejects the
   * promise chain).
   */
  datatype Remote = Remote(loginAccepted: bool, reviews: Option<nat>)

  /**
   * The value the adapter passes to its callback once the requests have
   * settled, or `None` when the callback never fires. Only Kitsun logs in
   * first, and it drops the result when `loginResponseBody.success` is false.
   */
  function Delivered(site: Site, remote: Remote): (r: Option<nat>)
    ensures r.Some? ==> remote.reviews == r
    ensures r.None? <==> remote.reviews.None? || (site == Kitsun && !remote.loginAccepted)
  {
    match site
    case Bunpro => remote.reviews
    case Kitsun => if remote.loginAccepted then remote.reviews else None
    case WaniKani => remote.reviews
  }

  /**
   * The short-circuit is weaker than the credential gate: a key whose
   * settings hold only a username and password passes the gate, yet the
   * Bunpro adapter issues nothing for it.
   */
  lemma GateAdmitsSilentBunpro(s: Settings)
    ensures s.apiKey.None? && Truthy(s.username) && Truthy(s.password) ==>
      HasCredentials(s) && !Issues(Bunpro, s)
  {
  }

  /**
   * Likewise a key whose settings hold only an API key passes the gate, yet
   * the Kitsun adapter, which needs a username and password, issues nothing.
   */
  lemma GateAdmitsSilentKitsun(s: Settings)
    ensures Truthy(s.apiKey) && s.username.None? ==> HasCredentials(s) && !Issues(Kitsun, s)
  {
  }

  /**
   * Conversely, whenever the gate passes on a non-empty API key, or on a
   * non-empty username and password, the matching adapter does issue a request.
   */
  lemma GateImpliesIssue(s: Settings)
    ensures Truthy(s.apiKey) ==> Issues(Bunpro, s) && Issues(WaniKani, s)
    ensures Truthy(s.username) && Truthy(s.password) ==> Issues(Kitsun, s)
  {
  }
}
