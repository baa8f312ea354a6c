/**
 * The app catalog behind the storefront: the time-to-live cache refreshed from
 * the app-source URLs, the validation filter (manifest types and the two
 * permission answers), and the tag and favourite filters.
 *
 * Every effect is an input. `Env` carries the current time in milliseconds, the
 * outcome of fetching and parsing each URL, and the answers of the two
 * permission queries, each `None` when the query itself failed.
 */
module StoreCatalog {
  import opened Wrappers
  import opened Models
  import opened Sequences

  /** What `fetch(url)` followed by `response.json()` yields: the app list, or a thrown error. */
  datatype FetchOutcome = Fetched(apps: seq<App>) | FetchFailed

  /** The `granted` answers for "System.launchExternalProcess" and "System.downloadAsset". */
  datatype Permissions = Permissions(launchExternalProcess: Option<bool>, downloadAsset: Option<bool>)

  datatype Env = Env(now: int, fetch: Url -> FetchOutcome, permissions: Permissions)

  /** The service's cache fields `lastCacheUpdate` and `cachedApps`. */
  datatype Cache = Cache(lastUpdate: int, apps: seq<App>)

  const ExternalManifestType := "external"
  const AppAssetTag := "appasset"
  const DefaultCacheDurationInMinutes := 1
  const MillisecondsPerMinute := 60 * 1000

  // ---------------------------------------------------------------------------
  // Validation of fetched entries
  // ---------------------------------------------------------------------------

  /** A manifest type that is present and not the empty string (JavaScript truthiness). */
  predicate HasManifestType(a: App) {
    a.manifestType.Some? && a.manifestType.value != ""
  }

  /** An absent or empty `manifestTypes` list accepts every type. */
  predicate SupportedManifestType(s: AppProviderSettings, a: App)
    requires HasManifestType(a)
  {
    match s.manifestTypes
    case None => true
    case Some(types) => |types| == 0 || a.manifestType.value in types
  }

  predicate HasTag(a: App, tag: string) {
    a.tags.Some? && tag in a.tags.value
  }

  /** Only an answer that is exactly `false` denies; a failed query (`None`) does not. */
  predicate Denied(answer: Option<bool>) {
    answer == Some(false)
  }

  /** What validation does with one entry. */
  datatype Verdict =
    | Dropped      // no manifest type: silently skipped
    | Unsupported  // manifest type not in the configured list: warned about, skipped
    | Rejected     // missing permission: its id goes to the batched warning
    | Accepted

  function Classify(s: AppProviderSettings, a: App, p: Permissions): (v: Verdict)
    ensures v == Dropped <==> !HasManifestType(a)
    ensures v == Unsupported <==> HasManifestType(a) && !SupportedManifestType(s, a)
    ensures v == Rejected ==>
      a.manifestType == Some(ExternalManifestType)
      && (Denied(p.launchExternalProcess) || (HasTag(a, AppAssetTag) && Denied(p.downloadAsset)))
    ensures HasManifestType(a) && SupportedManifestType(s, a) && a.manifestType != Some(ExternalManifestType) ==>
      v == Accepted
  {
    if !HasManifestType(a) then Dropped
    else if !SupportedManifestType(s, a) then Unsupported
    else if a.manifestType.value != ExternalManifestType then Accepted
    else if Denied(p.launchExternalProcess) then Rejected
    else if a.tags.Some? && AppAssetTag in a.tags.value && Denied(p.downloadAsset) then Rejected
    else Accepted
  }

  function AcceptedBy(s: AppProviderSettings, p: Permissions): App -> bool {
    (a: App) => Classify(s, a, p) == Accepted
  }

  function RejectedBy(s: AppProviderSettings, p: Permissions): App -> bool {
    (a: App) => Classify(s, a, p) == Rejected
  }

  /** The list `validateEntries` returns. */
  function Validated(s: AppProviderSettings, apps: seq<App>, p: Permissions): seq<App> {
    Filter(AcceptedBy(s, p), apps)
  }

  function AppIds(apps: seq<App>): (ids: seq<string>)
    ensures |ids| == |apps|
    ensures forall i :: 0 <= i < |apps| ==> ids[i] == apps[i].appId
  {
    seq(|apps|, i requires 0 <= i < |apps| => apps[i].appId)
  }

  /** The ids listed in the one batched "missing permissions" warning. */
  function RejectedIds(s: AppProviderSettings, apps: seq<App>, p: Permissions): seq<string> {
    AppIds(Filter(RejectedBy(s, p), apps))
  }

  /** One more step of the validation loop. */
  lemma ValidationStep(s: AppProviderSettings, apps: seq<App>, p: Permissions, i: nat)
    requires i < |apps|
    ensures Validated(s, apps[..i + 1], p)
         == Validated(s, apps[..i], p) + if Classify(s, apps[i], p) == Accepted then [apps[i]] else []
    ensures RejectedIds(s, apps[..i + 1], p)
         == RejectedIds(s, apps[..i], p) + if Classify(s, apps[i], p) == Rejected then [apps[i].appId] else []
  {
    assert apps[..i + 1] == apps[..i] + [apps[i]];
    FilterConcat(AcceptedBy(s, p), apps[..i], [apps[i]]);
    FilterConcat(RejectedBy(s, p), apps[..i], [apps[i]]);
    var before := Filter(RejectedBy(s, p), apps[..i]);
    var step := Filter(RejectedBy(s, p), [apps[i]]);
    assert AppIds(before + step) == AppIds(before) + AppIds(step);
  }

  /** The validated list keeps the input's order and only holds accepted entries. */
  lemma ValidatedIsOrderedSubsequence(s: AppProviderSettings, apps: seq<App>, p: Permissions)
    ensures IsSubsequence(Validated(s, apps, p), apps)
    ensures forall a :: a in Validated(s, apps, p) ==> HasManifestType(a) && SupportedManifestType(s, a)
  {
    FilterIsSubsequence(AcceptedBy(s, p), apps);
  }

  /**
   * The permission rule, both directions: an entry of the input with a supported
   * manifest type is kept iff it is not `external`, or it is `external`, launching
   * is not denied, and it is not an `appasset`-tagged entry whose download is denied.
   */
  lemma PermissionRule(s: AppProviderSettings, apps: seq<App>, p: Permissions, a: App)
    requires a in apps && HasManifestType(a) && SupportedManifestType(s, a)
    ensures a in Validated(s, apps, p) <==>
      (a.manifestType.value != ExternalManifestType
       || (!Denied(p.launchExternalProcess) && !(HasTag(a, AppAssetTag) && Denied(p.downloadAsset))))
    ensures a !in Validated(s, apps, p) <==> Classify(s, a, p) == Rejected
    ensures Classify(s, a, p) == Rejected ==> a.appId in RejectedIds(s, apps, p)
  {
    FilterMembership(AcceptedBy(s, p), apps, a);
    FilterMembership(RejectedBy(s, p), apps, a);
    var rejected := Filter(RejectedBy(s, p), apps);
    if a in rejected {
      var i :| 0 <= i < |rejected| && rejected[i] == a;
      assert RejectedIds(s, apps, p)[i] == a.appId;
    }
  }

  /** Entries without a manifest type, or with an unsupported one, appear in neither output list. */
  lemma UntypedAndUnsupportedAreSkipped(s: AppProviderSettings, apps: seq<App>, p: Permissions, a: App)
    requires !HasManifestType(a) || !SupportedManifestType(s, a)
    ensures a !in Validated(s, apps, p)
    ensures a !in Filter(RejectedBy(s, p), apps)
  {
    FilterMembership(RejectedBy(s, p), apps, a);
  }

  /** Only an explicit `false` rejects: with both queries failed, nothing is rejected for permissions. */
  lemma {:induction false} FailedQueriesRejectNothing(s: AppProviderSettings, apps: seq<App>)
    ensures RejectedIds(s, apps, Permissions(None, None)) == []
    ensures forall a :: a in apps && HasManifestType(a) && SupportedManifestType(s, a) ==>
      a in Validated(s, apps, Permissions(None, None))
  {
    var p := Permissions(None, None);
    FilterAllOrNone(RejectedBy(s, p), apps);
    forall a | a in apps && HasManifestType(a) && SupportedManifestType(s, a)
      ensures a in Validated(s, apps, p)
    {
      FilterMembership(AcceptedBy(s, p), apps, a);
    }
  }

  /** Validation looks at each entry on its own, so validating merged lists merges the validated lists. */
  lemma ValidatedConcat(s: AppProviderSettings, xs: seq<App>, ys: seq<App>, p: Permissions)
    ensures Validated(s, xs + ys, p) == Validated(s, xs, p) + Validated(s, ys, p)
  {
    FilterConcat(AcceptedBy(s, p), xs, ys);
  }

  // ---------------------------------------------------------------------------
  // The time-to-live cache
  // ---------------------------------------------------------------------------

  /** `appSettings.cacheDurationInMinutes ?? 1` */
  function CacheDuration(s: AppProviderSettings): int {
    s.cacheDurationInMinutes.GetOr(DefaultCacheDurationInMinutes)
  }

  /** A refresh happens only when strictly more than the duration has elapsed. */
  predicate Expired(lastUpdate: int, s: AppProviderSettings, now: int) {
    now - lastUpdate > CacheDuration(s) * MillisecondsPerMinute
  }

  /**
   * Fetching the URLs in order and concatenating the lists; `None` as soon as one
   * fetch or parse throws (the loop is left by the exception).
   */
  function Gather(urls: seq<Url>, fetch: Url -> FetchOutcome): Option<seq<App>>
    decreases |urls|
  {
    if urls == [] then Some([])
    else
      match Gather(urls[..|urls| - 1], fetch)
      case None => None
      case Some(apps) =>
        match fetch(urls[|urls| - 1])
        case FetchFailed => None
        case Fetched(more) => Some(apps + more)
  }

  /** The concatenation of the lists every URL returns, in URL order. */
  function FetchedLists(urls: seq<Url>, fetch: Url -> FetchOutcome): seq<App>
    requires forall u :: u in urls ==> fetch(u).Fetched?
    decreases |urls|
  {
    if urls == [] then [] else FetchedLists(urls[..|urls| - 1], fetch) + fetch(urls[|urls| - 1]).apps
  }

  /** The refresh is all or nothing: one failing URL loses every list; otherwise all lists in URL order. */
  lemma {:induction false} GatherAllOrNothing(urls: seq<Url>, fetch: Url -> FetchOutcome)
    ensures Gather(urls, fetch).None? <==> exists u :: u in urls && fetch(u).FetchFailed?
    ensures Gather(urls, fetch).Some? ==> Gather(urls, fetch).value == FetchedLists(urls, fetch)
    decreases |urls|
  {
    if urls != [] {
      var init := urls[..|urls| - 1];
      var last := urls[|urls| - 1];
      GatherAllOrNothing(init, fetch);
      assert urls == init + [last];
      assert forall u :: u in init ==> u in urls;
    }
  }

  /** The list a refresh stores: the validated merge, or empty when something threw. */
  function Refreshed(s: AppProviderSettings, env: Env): (apps: seq<App>)
    ensures forall a :: a in apps ==> HasManifestType(a) && SupportedManifestType(s, a)
  {
    match Gather(s.appSourceUrls.GetOr([]), env.fetch)
    case None => []
    case Some(apps) => Validated(s, apps, env.permissions)
  }

  /** The cache after one `getApps` call. */
  function NextCache(c: Cache, settings: Option<AppProviderSettings>, env: Env): (next: Cache)
    ensures settings.None? || !Expired(c.lastUpdate, settings.value, env.now) ==> next == c
    ensures settings.Some? && Expired(c.lastUpdate, settings.value, env.now) ==>
      next.lastUpdate == env.now
      && forall a :: a in next.apps ==> HasManifestType(a) && SupportedManifestType(settings.value, a)
  {
    if settings.Some? && Expired(c.lastUpdate, settings.value, env.now)
    then Cache(env.now, Refreshed(settings.value, env))
    else c
  }

  /** The catalog one `getApps` call returns. */
  function Catalog(c: Cache, settings: Option<AppProviderSettings>, env: Env): seq<App> {
    NextCache(c, settings, env).apps
  }

  /**
   * Serving from the cache: without settings, or while the entry is not older than
   * the duration, the cache comes back untouched whatever the URLs and the
   * permission queries would answer; no fetch result can influence it.
   */
  lemma CacheServesWithoutFetching(c: Cache, settings: Option<AppProviderSettings>, env: Env, other: Env)
    requires settings.None? || env.now - c.lastUpdate <= CacheDuration(settings.value) * MillisecondsPerMinute
    requires other.now == env.now
    ensures NextCache(c, settings, env) == c
    ensures NextCache(c, settings, other) == c
  {
  }

  /**
   * A refresh stamps the time first and replaces the whole list: with the validated
   * concatenation of every URL's list when all succeed, with nothing when any fails.
   */
  lemma RefreshReplacesAllOrNothing(c: Cache, s: AppProviderSettings, env: Env)
    requires Expired(c.lastUpdate, s, env.now)
    ensures NextCache(c, Some(s), env).lastUpdate == env.now
    ensures (exists u :: u in s.appSourceUrls.GetOr([]) && env.fetch(u).FetchFailed?) ==>
      NextCache(c, Some(s), env).apps == []
    ensures (forall u :: u in s.appSourceUrls.GetOr([]) ==> env.fetch(u).Fetched?) ==>
      NextCache(c, Some(s), env).apps == Validated(s, FetchedLists(s.appSourceUrls.GetOr([]), env.fetch), env.permissions)
  {
    GatherAllOrNothing(s.appSourceUrls.GetOr([]), env.fetch);
  }

  /**
   * With the clock and the inputs unchanged, a second `getApps` changes nothing more:
   * either the entry is now fresh, or (a negative duration) it refreshes to the same list.
   */
  lemma NextCacheIdempotent(c: Cache, settings: Option<AppProviderSettings>, env: Env)
    ensures NextCache(NextCache(c, settings, env), settings, env) == NextCache(c, settings, env)
  {
  }

  /** With a non-negative duration the timestamp never moves backwards. */
  lemma LastUpdateNonDecreasing(c: Cache, settings: Option<AppProviderSettings>, env: Env)
    requires settings.Some? ==> CacheDuration(settings.value) >= 0
    ensures NextCache(c, settings, env).lastUpdate >= c.lastUpdate
  {
  }

  /** The cache state after several calls: refreshed once some call reached `getApps`, else as before. */
  function After(c: Cache, queried: bool, settings: Option<AppProviderSettings>, env: Env): Cache {
    if queried then NextCache(c, settings, env) else c
  }

  lemma AfterAfter(c: Cache, q1: bool, q2: bool, settings: Option<AppProviderSettings>, env: Env)
    ensures After(After(c, q1, settings, env), q2, settings, env) == After(c, q1 || q2, settings, env)
    ensures NextCache(After(c, q1, settings, env), settings, env) == NextCache(c, settings, env)
  {
    NextCacheIdempotent(c, settings, env);
  }

  // ---------------------------------------------------------------------------
  // Tag and favourite filters
  // ---------------------------------------------------------------------------

  /** The source's inner loop: is one of `wanted` among `tags`? */
  predicate AnyTagIncluded(tags: seq<string>, wanted: seq<string>)
    decreases |wanted|
  {
    if wanted == [] then false
    else if wanted[0] in tags then true
    else AnyTagIncluded(tags, wanted[1..])
  }

  lemma {:induction false} AnyTagIncludedIff(tags: seq<string>, wanted: seq<string>)
    ensures AnyTagIncluded(tags, wanted) <==> exists t :: t in wanted && t in tags
    decreases |wanted|
  {
    if wanted != [] {
      AnyTagIncludedIff(tags, wanted[1..]);
      assert wanted == [wanted[0]] + wanted[1..];
    }
  }

  function TaggedWithAnyOf(wanted: seq<string>): App -> bool {
    (a: App) => a.tags.Some? && AnyTagIncluded(a.tags.value, wanted)
  }

  /** `getAppsByTag`'s result on a catalog: empty for undefined tags, else the apps sharing a tag. */
  function AppsByTag(catalog: seq<App>, tags: Option<seq<string>>): (apps: seq<App>)
    ensures tags.None? ==> apps == []
    ensures |apps| <= |catalog|
    ensures forall a :: a in apps ==> a in catalog && a.tags.Some?
  {
    match tags
    case None => []
    case Some(wanted) => Filter(TaggedWithAnyOf(wanted), catalog)
  }

  /**
   * An app is in the tag filter iff the request's tags are defined, the app's tags
   * are defined and the two share a tag (OR across tags); catalog order is kept.
   */
  lemma AppsByTagSpec(catalog: seq<App>, tags: Option<seq<string>>, a: App)
    ensures a in AppsByTag(catalog, tags) <==>
      a in catalog && tags.Some? && a.tags.Some? && exists t :: t in tags.value && t in a.tags.value
    ensures IsSubsequence(AppsByTag(catalog, tags), catalog)
  {
    if tags.Some? {
      FilterMembership(TaggedWithAnyOf(tags.value), catalog, a);
      FilterIsSubsequence(TaggedWithAnyOf(tags.value), catalog);
      if a.tags.Some? {
        AnyTagIncludedIff(a.tags.value, tags.value);
      }
    }
  }

  function IsFavoriteIn(favoriteAppIds: seq<string>): App -> bool {
    (a: App) => a.appId in favoriteAppIds
  }

  /** `getFavoriteApps`'s result on a catalog. */
  function Favorites(catalog: seq<App>, favoriteAppIds: seq<string>): (apps: seq<App>)
    ensures |apps| <= |catalog|
    ensures forall a :: a in apps ==> a in catalog && a.appId in favoriteAppIds
  {
    Filter(IsFavoriteIn(favoriteAppIds), catalog)
  }

  /** Exactly the catalog apps whose id is a favourite, in catalog order. */
  lemma FavoritesSpec(catalog: seq<App>, favoriteAppIds: seq<string>, a: App)
    ensures a in Favorites(catalog, favoriteAppIds) <==> a in catalog && a.appId in favoriteAppIds
    ensures IsSubsequence(Favorites(catalog, favoriteAppIds), catalog)
  {
    FilterMembership(IsFavoriteIn(favoriteAppIds), catalog, a);
    FilterIsSubsequence(IsFavoriteIn(favoriteAppIds), catalog);
  }

  /** Marking an id as favourite brings its apps in; removing every occurrence takes them out. */
  lemma FavoriteToggle(catalog: seq<App>, favoriteAppIds: seq<string>, a: App)
    requires a in catalog
    ensures a in Favorites(catalog, favoriteAppIds + [a.appId])
    ensures a !in Favorites(catalog, Filter((id: string) => id != a.appId, favoriteAppIds))
  {
    FavoritesSpec(catalog, favoriteAppIds + [a.appId], a);
    var removed := Filter((id: string) => id != a.appId, favoriteAppIds);
    FavoritesSpec(catalog, removed, a);
  }
}
