/**
 * StoreProviderService: the cache fields, the favourite ids and the methods that
 * build the storefront views, each proved against the functions of
 * StoreCatalog and StorefrontViews. Every method that needs the catalog calls
 * `GetApps`, which may refresh the cache; with one `Env` per call, the cache
 * ends either untouched or refreshed once (`After`), and the views are those of
 * the refreshed catalog (`Catalog`).
 */
module StoreProviderService {
  import opened Wrappers
  import opened Models
  import opened Sequences
  import opened StoreCatalog
  import opened StorefrontViews

  class StoreProvider {
    var lastCacheUpdate: int
    var cachedApps: seq<App>
    /** Read by the filters and the buttons; toggled by code outside this service. */
    var favoriteAppIds: seq<string>
    /** The `console.warn` and `console.error` lines of the view assembly, in order. */
    var warnings: seq<Notice>

    constructor()
      ensures lastCacheUpdate == 0 && cachedApps == [] && favoriteAppIds == [] && warnings == []
    {
      lastCacheUpdate := 0;
      cachedApps := [];
      favoriteAppIds := [];
      warnings := [];
    }

    function CacheState(): Cache
      reads this
    {
      Cache(lastCacheUpdate, cachedApps)
    }

    /** `getApps`: serve the cache, or stamp the time and rebuild it from every URL, all or nothing. */
    method GetApps(settings: Option<AppProviderSettings>, env: Env) returns (apps: seq<App>)
      modifies this`lastCacheUpdate, this`cachedApps
      ensures CacheState() == NextCache(old(CacheState()), settings, env)
      ensures apps == cachedApps
    {
      if settings.Some? {
        var s := settings.value;
        var cacheDurationInMinutes := s.cacheDurationInMinutes.GetOr(DefaultCacheDurationInMinutes);
        var now := env.now;
        if now - lastCacheUpdate > cacheDurationInMinutes * 60 * 1000 {
          lastCacheUpdate := now;
          var collected: seq<App> := [];
          var failed := false;
          var urls := s.appSourceUrls.GetOr([]);
          var i := 0;
          while i < |urls|
            invariant 0 <= i <= |urls|
            invariant !failed && Gather(urls[..i], env.fetch) == Some(collected)
          {
            match env.fetch(urls[i]) {
              case FetchFailed =>
                failed := true;
                break;
              case Fetched(more) =>
                assert urls[..i + 1][..i] == urls[..i];
                collected := collected + more;
                i := i + 1;
            }
          }
          if failed {
            assert env.fetch(urls[i]).FetchFailed?;
            GatherAllOrNothing(urls, env.fetch);
            cachedApps := [];
          } else {
            assert urls[..i] == urls;
            var rejectedIds;
            cachedApps, rejectedIds := ValidateEntries(s, collected, env.permissions);
          }
        }
      }
      apps := cachedApps;
    }

    /**
     * `validateEntries`: the accepted entries in input order, and the ids the one
     * batched permission warning lists.
     */
    method ValidateEntries(s: AppProviderSettings, apps: seq<App>, p: Permissions)
      returns (validated: seq<App>, rejectedIds: seq<string>)
      ensures validated == Validated(s, apps, p)
      ensures rejectedIds == RejectedIds(s, apps, p)
    {
      var canLaunchExternalProcess := p.launchExternalProcess;
      var canDownloadAppAssets := p.downloadAsset;
      var supportedManifestTypes := s.manifestTypes;
      validated, rejectedIds := [], [];
      for i := 0 to |apps|
        invariant validated == Validated(s, apps[..i], p)
        invariant rejectedIds == RejectedIds(s, apps[..i], p)
      {
        var element := apps[i];
        ValidationStep(s, apps, p, i);
        if element.manifestType.Some? && element.manifestType.value != "" {
          var manifestType := element.manifestType.value;
          var validApp := true;
          if supportedManifestTypes.Some? && |supportedManifestTypes.value| > 0 {
            validApp := manifestType in supportedManifestTypes.value;
          }
          if validApp {
            if manifestType != ExternalManifestType {
              validated := validated + [element];
            } else if canLaunchExternalProcess == Some(false) {
              rejectedIds := rejectedIds + [element.appId];
            } else if element.tags.Some? && AppAssetTag in element.tags.value && canDownloadAppAssets == Some(false) {
              rejectedIds := rejectedIds + [element.appId];
            } else {
              validated := validated + [element];
            }
          }
        }
      }
      assert apps[..|apps|] == apps;
    }

    /** `getAppsByTag`: undefined tags give `[]` without touching the cache. */
    method GetAppsByTag(settings: Option<AppProviderSettings>, tags: Option<seq<string>>, env: Env) returns (apps: seq<App>)
      modifies this`lastCacheUpdate, this`cachedApps
      ensures CacheState() == After(old(CacheState()), ReadsCatalog(tags), settings, env)
      ensures apps == AppsByTag(Catalog(old(CacheState()), settings, env), tags)
    {
      if tags.Some? {
        var all := GetApps(settings, env);
        apps := Filter(TaggedWithAnyOf(tags.value), all);
      } else {
        apps := [];
      }
    }

    /** `getFavoriteApps` */
    method GetFavoriteApps(settings: Option<AppProviderSettings>, env: Env) returns (apps: seq<App>)
      modifies this`lastCacheUpdate, this`cachedApps
      ensures CacheState() == NextCache(old(CacheState()), settings, env)
      ensures apps == Favorites(Catalog(old(CacheState()), settings, env), favoriteAppIds)
    {
      var all := GetApps(settings, env);
      apps := Filter(IsFavoriteIn(favoriteAppIds), all);
    }

    /** `getNavigationItem` */
    method GetNavigationItem(settings: Option<AppProviderSettings>, id: Option<string>, title: string,
                             tags: Option<seq<string>>, env: Env) returns (item: NavigationItem)
      modifies this`lastCacheUpdate, this`cachedApps
      ensures CacheState() == After(old(CacheState()), ReadsCatalog(tags), settings, env)
      ensures item == NavItemOf(Catalog(old(CacheState()), settings, env), favoriteAppIds, id, title, tags)
    {
      var itemId := id.GetOr(GetId(title, tags));
      var apps;
      if tags.Some? && |tags.value| > 0 && tags.value[0] == FavoritesSentinel {
        apps := GetFavoriteApps(settings, env);
      } else {
        apps := GetAppsByTag(settings, tags, env);
      }
      item := NavigationItem(itemId, title, AppGrid, apps);
    }

    /** `getNavigationItems`: warn once when over the limit, then build the non-null items of the first `limit`. */
    method GetNavigationItems(settings: Option<AppProviderSettings>, items: seq<Option<NavItemConfig>>, limit: int,
                              env: Env) returns (navigationItems: seq<NavigationItem>)
      modifies this`lastCacheUpdate, this`cachedApps, this`warnings
      ensures CacheState() == After(old(CacheState()), AnyReadsCatalog(ItemsToBuild(items, limit)), settings, env)
      ensures navigationItems == NavigationItemsOf(Catalog(old(CacheState()), settings, env), favoriteAppIds, items, limit)
      ensures warnings == old(warnings) + NavigationItemsWarnings(items, limit)
    {
      ghost var c0 := CacheState();
      ghost var catalog := Catalog(c0, settings, env);
      navigationItems := [];
      if |items| > limit {
        warnings := warnings + [TooManyNavigationItems(|items|, limit)];
      }
      var slice := items[..SliceEnd(|items|, limit)];
      ghost var w1 := warnings;
      for i := 0 to |slice|
        invariant warnings == w1
        invariant CacheState() == After(c0, AnyReadsCatalog(Present(slice[..i])), settings, env)
        invariant navigationItems == NavItemsOf(catalog, favoriteAppIds, Present(slice[..i]))
      {
        PresentStep(slice, i);
        if slice[i].None? {
          assert Present(slice[..i + 1]) == Present(slice[..i]);
        } else {
          var config := slice[i].value;
          ItemsStep(catalog, favoriteAppIds, Present(slice[..i]), config);
          AfterAfter(c0, AnyReadsCatalog(Present(slice[..i])), ReadsCatalog(config.tags), settings, env);
          var navigationItem := GetNavigationItem(settings, config.id, config.title, config.tags, env);
          navigationItems := navigationItems + [navigationItem];
        }
      }
      assert slice[..|slice|] == slice;
    }

    /** `getLandingPageRow`: as `GetNavigationItems`, each item carrying its configured description and image. */
    method GetLandingPageRow(settings: Option<AppProviderSettings>, rowItems: seq<Option<NavItemConfig>>, limit: int,
                             env: Env) returns (rowEntries: seq<DetailedNavigationItem>)
      modifies this`lastCacheUpdate, this`cachedApps, this`warnings
      ensures CacheState() == After(old(CacheState()), AnyReadsCatalog(ItemsToBuild(rowItems, limit)), settings, env)
      ensures rowEntries == LandingPageRowOf(Catalog(old(CacheState()), settings, env), favoriteAppIds, rowItems, limit)
      ensures warnings == old(warnings) + LandingPageRowWarnings(rowItems, limit)
    {
      ghost var c0 := CacheState();
      ghost var catalog := Catalog(c0, settings, env);
      rowEntries := [];
      if |rowItems| > limit {
        warnings := warnings + [TooManyRowItems(|rowItems|, limit)];
      }
      var slice := rowItems[..SliceEnd(|rowItems|, limit)];
      ghost var w1 := warnings;
      for i := 0 to |slice|
        invariant warnings == w1
        invariant CacheState() == After(c0, AnyReadsCatalog(Present(slice[..i])), settings, env)
        invariant rowEntries == DetailedItemsOf(catalog, favoriteAppIds, Present(slice[..i]))
      {
        PresentStep(slice, i);
        if slice[i].None? {
          assert Present(slice[..i + 1]) == Present(slice[..i]);
        } else {
          var config := slice[i].value;
          ItemsStep(catalog, favoriteAppIds, Present(slice[..i]), config);
          AfterAfter(c0, AnyReadsCatalog(Present(slice[..i])), ReadsCatalog(config.tags), settings, env);
          var navigationItem := GetNavigationItem(settings, config.id, config.title, config.tags, env);
          rowEntries := rowEntries + [DetailedNavigationItem(config.description, config.image, navigationItem)];
        }
      }
      assert slice[..|slice|] == slice;
    }

    /** `getNavigation`: no sections without configuration; otherwise warn once when over three, then build three. */
    method GetNavigation(settings: Option<AppProviderSettings>, storeSettings: StorefrontProviderSettings, env: Env)
      returns (sections: seq<NavigationSection>)
      modifies this`lastCacheUpdate, this`cachedApps, this`warnings
      ensures CacheState() == After(old(CacheState()), NavigationReadsCatalog(storeSettings.navigation), settings, env)
      ensures sections == NavigationOf(Catalog(old(CacheState()), settings, env), favoriteAppIds, storeSettings.navigation)
      ensures warnings == old(warnings) + NavigationWarnings(storeSettings.navigation)
    {
      ghost var c0 := CacheState();
      ghost var catalog := Catalog(c0, settings, env);
      sections := [];
      if storeSettings.navigation.None? {
        return;
      }
      var navigation := storeSettings.navigation.value;
      if |navigation| > NavigationSectionLimit {
        warnings := warnings + [TooManyNavigationSections(|navigation|)];
      }
      ghost var w0 := warnings;
      var slice := navigation[..SliceEnd(|navigation|, NavigationSectionLimit)];
      for i := 0 to |slice|
        invariant CacheState() == After(c0, AnySectionReadsCatalog(slice[..i]), settings, env)
        invariant sections == SectionsOf(catalog, favoriteAppIds, slice[..i])
        invariant warnings == w0 + SectionsWarnings(slice[..i])
      {
        var config := slice[i];
        AfterAfter(c0, AnySectionReadsCatalog(slice[..i]), SectionReadsCatalog(config), settings, env);
        SectionsStep(catalog, favoriteAppIds, slice, i);
        var sectionItems := GetNavigationItems(settings, config.items, NavigationSectionItemLimit, env);
        var section := NavigationSection(config.id.GetOr(GetId(config.title, None)), config.title, sectionItems);
        sections := sections + [section];
      }
      assert slice[..|slice|] == slice;
    }

    /** `getLandingPage`: each configured part in turn; a missing row is reported and left out. */
    method GetLandingPage(settings: Option<AppProviderSettings>, storeSettings: StorefrontProviderSettings, env: Env)
      returns (page: LandingPage)
      modifies this`lastCacheUpdate, this`cachedApps, this`warnings
      ensures CacheState() == After(old(CacheState()), LandingPageReadsCatalog(storeSettings.landingPage), settings, env)
      ensures page == LandingPageOf(Catalog(old(CacheState()), settings, env), favoriteAppIds, storeSettings.landingPage)
      ensures warnings == old(warnings)
        + LandingPageWarnings(Catalog(old(CacheState()), settings, env), storeSettings.landingPage)
    {
      ghost var c0 := CacheState();
      ghost var catalog := Catalog(c0, settings, env);
      var config := storeSettings.landingPage;
      ghost var w0 := warnings;

      var hero: Option<Hero> := None;
      ghost var q := config.hero.Some? && ReadsCatalog(config.hero.value.cta.tags);
      if config.hero.Some? {
        var h := config.hero.value;
        var cta := GetNavigationItem(settings, h.cta.id, h.cta.title, h.cta.tags, env);
        hero := Some(Hero(h.title, h.image, h.description, cta));
      }

      ghost var qTop := RowReadsCatalog(config.topRow, DetailedNavigationTopRowLimit);
      AfterAfter(c0, q, qTop, settings, env);
      var topRow := LandingPageRowPart(settings, config.topRow, DetailedNavigationTopRowLimit, MissingTopRow, env);
      q := q || qTop;

      ghost var qMiddle := config.middleRow.Some? && ReadsCatalog(config.middleRow.value.tags);
      AfterAfter(c0, q, qMiddle, settings, env);
      var middleRow := MiddleRowPart(settings, config.middleRow, env);
      q := q || qMiddle;

      ghost var qBottom := RowReadsCatalog(config.bottomRow, DetailedNavigationBottomRowLimit);
      AfterAfter(c0, q, qBottom, settings, env);
      var bottomRow := LandingPageRowPart(settings, config.bottomRow, DetailedNavigationBottomRowLimit, MissingBottomRow, env);

      ConcatAssociative(w0, RowWarnings(config.topRow, DetailedNavigationTopRowLimit, MissingTopRow),
                        MiddleRowWarnings(catalog, config.middleRow),
                        RowWarnings(config.bottomRow, DetailedNavigationBottomRowLimit, MissingBottomRow));
      page := LandingPage(hero, topRow, middleRow, bottomRow);
    }

    /** The top or bottom row of `getLandingPage`: built when configured, otherwise reported as missing. */
    method LandingPageRowPart(settings: Option<AppProviderSettings>, row: Option<RowConfig>, limit: int, missing: Notice,
                              env: Env) returns (built: Option<Row>)
      modifies this`lastCacheUpdate, this`cachedApps, this`warnings
      ensures CacheState() == After(old(CacheState()), RowReadsCatalog(row, limit), settings, env)
      ensures built == if row.Some? then Some(RowOf(Catalog(old(CacheState()), settings, env), favoriteAppIds, row.value, limit)) else None
      ensures warnings == old(warnings) + RowWarnings(row, limit, missing)
    {
      if row.Some? {
        var items := GetLandingPageRow(settings, row.value.items, limit, env);
        built := Some(Row(row.value.title, items));
      } else {
        built := None;
        warnings := warnings + [missing];
      }
    }

    /** The middle row of `getLandingPage`: the first six tag-filtered apps with buttons, warning when more matched. */
    method MiddleRowPart(settings: Option<AppProviderSettings>, middleRow: Option<MiddleRowConfig>, env: Env)
      returns (built: Option<MiddleRow>)
      modifies this`lastCacheUpdate, this`cachedApps, this`warnings
      ensures CacheState() == After(old(CacheState()), middleRow.Some? && ReadsCatalog(middleRow.value.tags), settings, env)
      ensures built == if middleRow.Some? then Some(MiddleRowOf(Catalog(old(CacheState()), settings, env), favoriteAppIds, middleRow.value)) else None
      ensures warnings == old(warnings) + MiddleRowWarnings(Catalog(old(CacheState()), settings, env), middleRow)
    {
      if middleRow.Some? {
        var middle := middleRow.value;
        var middleRowApps := GetAppsByTag(settings, middle.tags, env);
        if |middleRowApps| > DetailedNavigationMiddleRowLimit {
          warnings := warnings + [TooManyMiddleRowApps(|middleRowApps|)];
        }
        var decorated := AddButtons(middleRowApps[..SliceEnd(|middleRowApps|, DetailedNavigationMiddleRowLimit)], favoriteAppIds);
        built := Some(MiddleRow(middle.title, decorated));
      } else {
        built := None;
        warnings := warnings + [MissingMiddleRow];
      }
    }

    /** `getFooter`: the configured footer, passed through without validation. */
    function GetFooter(storeSettings: StorefrontProviderSettings): (footer: Footer)
      ensures footer == storeSettings.footer
    {
      storeSettings.footer
    }
  }
}
