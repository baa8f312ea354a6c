# Storefront catalog and logging service, modelled in Dafny

This project models two services of the Rubicon trading workspace.

- **`StoreProviderService`** feeds the OpenFin storefront. It keeps a
  time-to-live cache of the app catalog. The catalog is fetched from the
  configured app-source URLs and filtered by manifest type and by two permission
  answers ("launch an external process", "download an app asset"). It also
  assembles the storefront views: navigation sections and items, the landing
  page (hero, top, middle and bottom rows, the middle row with launch and
  favourite buttons) and the footer. Each list is cut to its fixed limit, with a
  warning when the configuration exceeds it. `launchApp` picks the platform call
  from an app's manifest type.
- **`LogService`** filters log calls by a level threshold and hands each passing
  entry to every configured appender in order. A failing appender cannot stop
  the others.

Layout:

| file | module | contents |
|---|---|---|
| `wrappers.dfy` | `Wrappers` | `Option` |
| `models.dfy` | `Models` | app entries, app-provider settings, storefront settings |
| `sequences.dfy` | `Sequences` | `Array.filter`, skipping `null` entries, `slice(0, n)` |
| `store_catalog.dfy` | `StoreCatalog` | validation, the TTL cache, the tag and favourite filters |
| `storefront_views.dfy` | `StorefrontViews` | slug ids, buttons, navigation, landing page, warnings |
| `app_launch.dfy` | `AppLaunch` | the manifest-type dispatch of `launchApp` |
| `store_provider.dfy` | `StoreProviderService` | class `StoreProvider`: the service's fields and methods |
| `log_service.dfy` | `Logging` | log levels, classes `LogConfig` and `LogService` |

Effects are inputs. An `Env` value carries:

- the current time in milliseconds;
- the outcome of fetching and parsing each URL (the list, or a thrown error);
- the two permission answers, each `None` when the query itself threw.

One `Env` is used for a whole top-level call, so the clock does not move inside
one assembly; "## Left out" says what that leaves out.

The class `StoreProvider` keeps the service's mutable fields: `lastCacheUpdate`,
`cachedApps` and `favoriteAppIds`. Its `warnings` field records the
`console.warn`/`console.error` lines the view assembly issues. Each method is
proved against a function of the old state:

- the cache ends either untouched or refreshed once (`After`);
- the view is the pure view function applied to the refreshed catalog
  (`Catalog`);
- the new warnings are the view's warning function.

The properties of the service are proved as lemmas about those functions.

## Model

| member | source | states |
|---|---|---|
| StoreProviderService.StoreProvider.GetApps | apps/rubicon-workspace/src/app/services/openfin/store-provider.service.ts:275-306 | Without settings, or while the entry is no older than `cacheDurationInMinutes ?? 1` minutes, the cache stays as it was. Otherwise the time is stamped and the list is replaced by the validated concatenation of every URL's list, or by `[]` when any fetch throws. The result is the new cache. |
| StoreProviderService.StoreProvider.ValidateEntries | apps/rubicon-workspace/src/app/services/openfin/store-provider.service.ts:308-392 | The loop returns exactly the entries `Validated` accepts, in input order. It also returns the ids that `RejectedIds` lists for the one batched warning. |
| StoreProviderService.StoreProvider.GetAppsByTag | apps/rubicon-workspace/src/app/services/openfin/store-provider.service.ts:426-447 | Undefined tags give `[]` without calling `getApps`. Otherwise the result is the catalog `getApps` gives, filtered by shared tag. |
| StoreProviderService.StoreProvider.GetFavoriteApps | apps/rubicon-workspace/src/app/services/openfin/store-provider.service.ts:81-84 | Calls `getApps`, which refreshes only when the cache has expired, and returns the catalog apps whose id is a favourite. |
| StoreProviderService.StoreProvider.GetNavigationItem | apps/rubicon-workspace/src/app/services/openfin/store-provider.service.ts:86-113 | The item equals `NavItemOf` on the catalog `getApps` gives. `getApps` is called only when tags are given; it refreshes only when the cache has expired. |
| StoreProviderService.StoreProvider.GetNavigationItems | apps/rubicon-workspace/src/app/services/openfin/store-provider.service.ts:115-141 | One warning when over the limit. Then one item per non-null entry among the first `limit`, in order. `getApps` is called iff one of those entries has tags; it refreshes only when the cache has expired. |
| StoreProviderService.StoreProvider.GetNavigation | apps/rubicon-workspace/src/app/services/openfin/store-provider.service.ts:156-191 | No navigation gives no sections and no warning. Otherwise: one warning when over three sections, then the first three sections, each with its item warnings in order. `getApps` is called iff some built item has tags; it refreshes only when the cache has expired. |
| StoreProviderService.StoreProvider.GetLandingPageRow | apps/rubicon-workspace/src/app/services/openfin/store-provider.service.ts:394-424 | As `GetNavigationItems`, each item keeping its configured description and image. The warning is the row-item one. |
| StoreProviderService.StoreProvider.GetLandingPage | apps/rubicon-workspace/src/app/services/openfin/store-provider.service.ts:193-273 | The page equals `LandingPageOf` on the catalog `getApps` gives under this call's clock reading. The warnings are those of `LandingPageWarnings` (top, middle, bottom, in issue order). `getApps` is called iff some configured part has tags; it refreshes only when the cache has expired. |
| StoreProviderService.StoreProvider.LandingPageRowPart | apps/rubicon-workspace/src/app/services/openfin/store-provider.service.ts:215-226 | A configured top or bottom row is built with its limit. A missing one is absent and gives its missing-row error. |
| StoreProviderService.StoreProvider.MiddleRowPart | apps/rubicon-workspace/src/app/services/openfin/store-provider.service.ts:228-255 | A configured middle row holds the first six tag-filtered apps with buttons. It warns when more matched. A missing one gives the missing-row error. |
| StoreProviderService.StoreProvider.GetFooter | apps/rubicon-workspace/src/app/services/openfin/store-provider.service.ts:151-154 | The configured footer is returned unchanged. |
| StoreProviderService.StoreProvider.constructor | apps/rubicon-workspace/src/app/services/openfin/store-provider.service.ts:36-39 | The service starts with timestamp 0, an empty cached catalog, no favourite ids and no warnings. |
| StoreCatalog.ValidationStep | apps/rubicon-workspace/src/app/services/openfin/store-provider.service.ts:347-382 | One loop step appends the entry to the accepted list or its id to the rejected ids, according to its verdict. |
| StoreCatalog.Classify | apps/rubicon-workspace/src/app/services/openfin/store-provider.service.ts:347-382 | An entry is dropped iff it has no manifest type, unsupported iff its type is outside a non-empty `manifestTypes`, accepted when supported and not `external`, and rejected only when `external` with launching denied or with the `appasset` tag and download denied. |
| StoreCatalog.ValidatedIsOrderedSubsequence | apps/rubicon-workspace/src/app/services/openfin/store-provider.service.ts:342-391 | The validated list is an order-preserving subsequence of the input. Every entry in it has a supported manifest type. |
| StoreCatalog.PermissionRule | apps/rubicon-workspace/src/app/services/openfin/store-provider.service.ts:353-373 | Both directions. A supported entry is kept iff it is not `external`, or launching is not denied and it is not an `appasset`-tagged entry whose download is denied. A supported entry is dropped iff it is rejected for permissions, and then its id is listed among the rejected ids (ids are not unique, so a listed id does not by itself mean every entry with it was dropped). |
| StoreCatalog.UntypedAndUnsupportedAreSkipped | apps/rubicon-workspace/src/app/services/openfin/store-provider.service.ts:348-358 | An entry without a manifest type, or with one outside a non-empty `manifestTypes`, is in neither output. |
| StoreCatalog.FailedQueriesRejectNothing | apps/rubicon-workspace/src/app/services/openfin/store-provider.service.ts:312-340 | When both permission queries throw, no entry is rejected and every supported entry is kept. Only an explicit `false` denies. |
| StoreCatalog.ValidatedConcat | apps/rubicon-workspace/src/app/services/openfin/store-provider.service.ts:347-382 | Validating merged lists equals merging the validated lists. |
| StoreCatalog.GatherAllOrNothing | apps/rubicon-workspace/src/app/services/openfin/store-provider.service.ts:283-298 | Fetching fails iff some URL fails. Otherwise it gives every URL's list, in URL order. |
| StoreCatalog.Refreshed | apps/rubicon-workspace/src/app/services/openfin/store-provider.service.ts:283-299 | Every entry a refresh stores has a manifest type in the supported list. |
| StoreCatalog.NextCache | apps/rubicon-workspace/src/app/services/openfin/store-provider.service.ts:275-306 | Without settings or before expiry the cache is unchanged; on expiry the timestamp becomes `now` and every stored entry has a supported manifest type. |
| StoreCatalog.CacheServesWithoutFetching | apps/rubicon-workspace/src/app/services/openfin/store-provider.service.ts:276-305 | Without settings, or within the duration, the cache is unchanged whatever the URLs or the permission queries would answer. |
| StoreCatalog.RefreshReplacesAllOrNothing | apps/rubicon-workspace/src/app/services/openfin/store-provider.service.ts:279-299 | An expired refresh stamps `now`. It stores `[]` if any URL fails, else the validated concatenation of all lists. |
| StoreCatalog.NextCacheIdempotent | apps/rubicon-workspace/src/app/services/openfin/store-provider.service.ts:275-306 | Under the same clock and inputs, a second `getApps` changes nothing more. |
| StoreCatalog.LastUpdateNonDecreasing | apps/rubicon-workspace/src/app/services/openfin/store-provider.service.ts:277-280 | With a non-negative duration the cache timestamp never decreases. |
| StoreCatalog.AfterAfter | apps/rubicon-workspace/src/app/services/openfin/store-provider.service.ts:82 | Under one clock reading, several `getApps` calls within one assembly give the same cache as one call. |
| StoreCatalog.AnyTagIncludedIff | apps/rubicon-workspace/src/app/services/openfin/store-provider.service.ts:437-442 | The inner loop returns true iff some wanted tag is among the app's tags. |
| StoreCatalog.AppsByTag | apps/rubicon-workspace/src/app/services/openfin/store-provider.service.ts:426-447 | Undefined tags give `[]`; otherwise the result is no longer than the catalog and holds only catalog apps that have tags. |
| StoreCatalog.AppsByTagSpec | apps/rubicon-workspace/src/app/services/openfin/store-provider.service.ts:426-447 | An app is selected iff the tags are defined, its own tags are defined and the two share a tag (OR across tags). Catalog order is kept. |
| StoreCatalog.FavoritesSpec | apps/rubicon-workspace/src/app/services/openfin/store-provider.service.ts:81-84 | Favourites are exactly the catalog apps whose id is a favourite, in catalog order. |
| StoreCatalog.Favorites | apps/rubicon-workspace/src/app/services/openfin/store-provider.service.ts:81-84 | The result is no longer than the catalog and holds only catalog apps whose id is a favourite. |
| StoreCatalog.FavoriteToggle | apps/rubicon-workspace/src/app/services/openfin/store-provider.service.ts:81-84 | Adding an app's id brings it into the favourites. Removing every occurrence takes it out. |
| StorefrontViews.GetIdShape | apps/rubicon-workspace/src/app/services/openfin/store-provider.service.ts:143-149 | The slug is the title with spaces turned into `-` and lower-cased, then `-`, then the lower-cased join of the tags with `-`. With no tags it ends at that `-`. |
| StorefrontViews.GetId | apps/rubicon-workspace/src/app/services/openfin/store-provider.service.ts:143-149 | The slug is one longer than the title plus the joined tags, and holds no ASCII upper-case letter. |
| StorefrontViews.GetIdHasNoSpaces | apps/rubicon-workspace/src/app/services/openfin/store-provider.service.ts:143-149 | The slug is space-free iff no tag holds a space. Title spaces are always replaced; tag spaces never are. |
| StorefrontViews.GetIdCollides | apps/rubicon-workspace/src/app/services/openfin/store-provider.service.ts:143-149 | Different titles can give the same id: "My Apps" and "my-apps" both give "my-apps-". |
| StorefrontViews.AddButtonsSpec | apps/rubicon-workspace/src/app/services/openfin/store-provider.service.ts:449-481 | Decorating keeps length, order and every app (stripping the buttons gives the input back). The primary button is `Launch`/`launch-app`. There is one `favorite-toggle` secondary, titled `Remove Favorite` iff the app is a favourite and `Add Favorite` otherwise. |
| StorefrontViews.CalculateButtons | apps/rubicon-workspace/src/app/services/openfin/store-provider.service.ts:456-481 | The decorated app keeps the app; its primary button launches it; its one secondary button toggles the favourite and reads `Remove Favorite` iff the app is a favourite. |
| StorefrontViews.AddButtons | apps/rubicon-workspace/src/app/services/openfin/store-provider.service.ts:449-454 | One decorated app per input app, in order, each keeping its app. |
| StorefrontViews.NavItemSpec | apps/rubicon-workspace/src/app/services/openfin/store-provider.service.ts:86-113 | The id is the configured one or the slug. With `@favorites` as the first tag the apps are the favourites; otherwise they are the apps sharing a tag. No tags gives no apps. |
| StorefrontViews.NavigationItemsWithinLimit | apps/rubicon-workspace/src/app/services/openfin/store-provider.service.ts:115-141 | At most `limit` items, built from the non-null entries of the first `limit`. Exactly one warning iff over the limit. Exactly `limit` items when those entries are all non-null. |
| StorefrontViews.LandingPageRowWithinLimit | apps/rubicon-workspace/src/app/services/openfin/store-provider.service.ts:394-424 | A row holds one entry per non-null item among the first `limit`, in order, each with that item's description, image and navigation item; so at most `limit`, exactly `limit` when those items are all non-null; one warning iff over the limit. |
| StorefrontViews.NavigationWithinLimits | apps/rubicon-workspace/src/app/services/openfin/store-provider.service.ts:156-191 | At most three sections of at most five items each. The section warning comes first, iff more than three sections are configured. |
| StorefrontViews.SectionsWarningsKinds | apps/rubicon-workspace/src/app/services/openfin/store-provider.service.ts:174-188 | The per-section warnings are all item-limit warnings. |
| StorefrontViews.LandingPageSpec | apps/rubicon-workspace/src/app/services/openfin/store-provider.service.ts:193-273 | Each row is absent iff its missing-row error is reported, and the rest is still built. The hero is present iff configured. The top and bottom rows keep to 4 and 3 items. The middle row holds exactly `min(6, n)` apps for `n` tag-matched apps, the first ones, with their buttons; the over-six warning, carrying `n`, is issued iff `n > 6`. |
| StorefrontViews.NavItemsIgnoreCatalog | apps/rubicon-workspace/src/app/services/openfin/store-provider.service.ts:426-447 | Items without tags do not depend on the catalog. |
| StorefrontViews.ItemsStep | apps/rubicon-workspace/src/app/services/openfin/store-provider.service.ts:128-138 | One more configured item appends its item and extends the catalog-reading condition. |
| StorefrontViews.SectionsStep | apps/rubicon-workspace/src/app/services/openfin/store-provider.service.ts:174-188 | One more section appends its section and its item warnings. |
| AppLaunch.LaunchDispatch | apps/rubicon-workspace/src/app/services/openfin/store-provider.service.ts:489-552 | Nothing launches iff the manifest is missing or empty. Otherwise the chosen call gets the app's manifest, each known type selects its own strategy, and any other type starts from the manifest. External launches use the app id as uuid. Only `inline-appasset` swallows failures. |
| AppLaunch.LaunchStrategyOf | apps/rubicon-workspace/src/app/services/openfin/store-provider.service.ts:489-552 | Nothing is launched iff the manifest is missing or empty; otherwise the chosen call receives the app's manifest. |
| AppLaunch.ValidatedNeverLaunchesDeniedExternal | apps/rubicon-workspace/src/app/services/openfin/store-provider.service.ts:361-364 | When launching external processes is denied, no validated entry is launched with `launchExternalProcess` directly. |
| AppLaunch.InlineAppAssetSkipsPermissionCheck | apps/rubicon-workspace/src/app/services/openfin/store-provider.service.ts:525-541 | A supported `inline-appasset` entry is validated whatever the permission answers, although its launch starts an external process. |
| Sequences.Filter | apps/rubicon-workspace/src/app/services/openfin/store-provider.service.ts:83 | The result is no longer than the input and holds only input elements that pass. |
| Sequences.FilterMembership | apps/rubicon-workspace/src/app/services/openfin/store-provider.service.ts:433-443 | An element is in the filter iff it is in the input and passes. |
| Sequences.FilterIsSubsequence | apps/rubicon-workspace/src/app/services/openfin/store-provider.service.ts:433-443 | The filter keeps input order. |
| Sequences.FilterConcat | apps/rubicon-workspace/src/app/services/openfin/store-provider.service.ts:291 | Filtering distributes over concatenation. |
| Sequences.FilterAllOrNone | apps/rubicon-workspace/src/app/services/openfin/store-provider.service.ts:83 | When everything passes the filter is the identity. When nothing passes it is empty. |
| Sequences.PresentMembership | apps/rubicon-workspace/src/app/services/openfin/store-provider.service.ts:128-129 | A value is built iff it occurs as a non-null entry. |
| Sequences.PresentAllSome | apps/rubicon-workspace/src/app/services/openfin/store-provider.service.ts:407-408 | With no null entries nothing is skipped. |
| Sequences.PresentStep | apps/rubicon-workspace/src/app/services/openfin/store-provider.service.ts:128-129 | One loop step over the items appends the entry's value iff it is non-null. |
| Sequences.SliceEnd | apps/rubicon-workspace/src/app/services/openfin/store-provider.service.ts:128 | `slice(0, limit)` stops at `min(limit, length)` for a non-negative limit. A negative limit counts from the end. |
| Sequences.Truncate | apps/rubicon-workspace/src/app/services/openfin/store-provider.service.ts:245 | The slice is a prefix of the list. For a non-negative limit it holds exactly `min(limit, length)` elements, so a list longer than `limit` gives exactly `limit`; a negative limit drops that many from the end. A list that fits comes back whole. |
| Logging.FanOutReachesEveryAppender | apps/rubicon-workspace/src/app/services/logger/log.service.ts:58-67 | A passing entry reaches each appender exactly once, in configured order. An appender that throws does not stop the ones after it. |
| Logging.PassesSpec | apps/rubicon-workspace/src/app/services/logger/log.service.ts:71-73 | `Off` blocks every level, `Trace` passes every level but `Off`, and `Error` passes only errors. An entry written at `Off` would pass every threshold but `Off`; the public entry points never write at `Off`. |
| Logging.PassesMonotone | apps/rubicon-workspace/src/app/services/logger/log.service.ts:71-73 | A higher threshold passes everything a lower one does, `Off` included as the lowest. |
| Logging.Passes | apps/rubicon-workspace/src/app/services/logger/log.service.ts:71-73 | Nothing passes `Off`; a passing level is at most the threshold; errors pass every other threshold. |
| Logging.LogConfig.constructor | apps/rubicon-workspace/src/app/services/logger/log-config.model.ts:7-12 | The configuration holds the given level and appender array. |
| Logging.LogService.constructor | apps/rubicon-workspace/src/app/services/logger/log.service.ts:13-16 | The service keeps a fresh copy of the configuration with the same level and the same (shared) appender array. |
| Logging.LogService.WriteLog | apps/rubicon-workspace/src/app/services/logger/log.service.ts:42-68 | A blocked level changes nothing. A passing entry with its level, message and parameters is delivered to every appender in order. |
| Logging.LogService.Trace | apps/rubicon-workspace/src/app/services/logger/log.service.ts:20-22 | Writes at `Trace`. |
| Logging.LogService.Debug | apps/rubicon-workspace/src/app/services/logger/log.service.ts:24-26 | Writes at `Debug`. |
| Logging.LogService.Info | apps/rubicon-workspace/src/app/services/logger/log.service.ts:28-30 | Writes at `Info`. |
| Logging.LogService.Warn | apps/rubicon-workspace/src/app/services/logger/log.service.ts:32-34 | Writes at `Warn`. |
| Logging.LogService.Error | apps/rubicon-workspace/src/app/services/logger/log.service.ts:36-38 | Writes at `Error`. |
| Logging.LogService.SetLevel | apps/rubicon-workspace/src/app/services/logger/log.service.ts:76-79 | Only the service's own threshold changes; the appenders stay. |
| Logging.ConfigCopyIsolatesLevel | apps/rubicon-workspace/src/app/services/logger/log.service.ts:13-16 | For every configuration and levels: after construction, reassigning the caller's config level leaves the service at the level it was built with (its `info` call is filtered by that level), `SetLevel` changes the service's level for later calls and not the caller's, and the appender array stays shared. |

## Behaviour worth knowing

- A refresh in which any URL fails stores an empty catalog (store-provider.service.ts
  line 298), and the timestamp stamped before fetching stays, so the empty catalog
  is served until the next expiry (`RefreshReplacesAllOrNothing`).
- A permission query that throws leaves the answer `undefined`, and only `=== false`
  rejects, so a failed query lets entries through (`FailedQueriesRejectNothing`).
- The permission checks apply only to `external` entries (line 361). An
  `inline-appasset` entry is accepted whatever the answers, although launching it
  downloads an asset and starts an external process (`InlineAppAssetSkipsPermissionCheck`).
- Derived ids are not unique (`GetIdCollides`).

## Left out

- Loading the configuration: `getStoreConfig` and `getStoreAppsProvider` fetch a
  JSON file, throw on a non-ok response and return the parsed document;
  `loadConfigs` stores both; `getStoreConfigs` returns the two stored settings.
  These are network I/O and plain field access, so the settings are inputs to
  every method instead.
- The platform calls `launchApp` makes (snapshot, view, window, process,
  download, start) and their results are OpenFin SDK calls. `AppLaunch` models
  which call is chosen and with which arguments. The download progress
  percentage is not modelled.
- `Date.now`, `fetch` and the permission queries are inputs (`Env`), read once
  for a whole top-level call. The source reads `Date.now()` afresh in every
  `getApps` call (line 278), and one `getLandingPage` may call `getApps` up to
  nine times (hero, four top items, middle row, three bottom items). With a
  duration of 0 minutes, or when the expiry falls between two of those calls,
  the source refetches in the middle of one assembly: parts of one page or
  navigation can then come from different catalogs, and a later failing fetch
  empties only the later parts. The model does not capture this; `AfterAfter`
  and the one-catalog contracts of `GetLandingPage`, `GetNavigation`,
  `GetNavigationItems` and `GetLandingPageRow` hold under one clock reading.
- Asynchrony: each `await` is treated as completing in order, with no
  interleaving between calls.
- Console output of `getApps` and `validateEntries` (request lines, errors, the
  unsupported-type warning and the batched rejection warning) is not recorded.
  `ValidateEntries` returns the rejected ids instead. `getFooter`'s and
  `getNavigation`'s and `getLandingPage`'s `console.log` lines, the service
  constructor's info log, and `launchApp`'s console lines (missing manifest,
  launch requested, download progress, download error, launch finished) are not
  modelled.
- A document that parses to something other than an array of entries is not
  modelled. Fetch outcomes are either a list of entries or a failure.
- `cacheDurationInMinutes` is an integer number of minutes here; fractional
  durations are not modelled.
- `StorefrontViews.Lower`: lower-cases ASCII letters only, because Unicode case
  mapping is not available. JavaScript's `toLowerCase` maps every letter.
- The log entry's timestamp (`new Date()`) and the appenders' own output are not
  modelled. An appender is reduced to whether its `log` call throws, and
  `deliveries` records each call. The `console.error` for a throwing appender
  is represented by the delivery's `threw` flag. `ConsoleAppender` is not part
  of this model.
- Log parameters (`any[]`) are modelled as strings.
- `favoriteAppIds` is read but never changed by the service. No method of the
  class toggles it.
