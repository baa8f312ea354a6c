/**
 * The storefront views built from a catalog: section ids derived as slugs,
 * button decoration, navigation items and sections, and the landing page, each
 * list cut to its fixed limit. These functions take the catalog and the
 * favourite ids as values; the service's methods compute the same views while
 * refreshing the cache along the way.
 */
module StorefrontViews {
  import opened Wrappers
  import opened Models
  import opened Sequences
  import opened StoreCatalog

  const NavigationSectionItemLimit := 5
  const NavigationSectionLimit := 3
  const DetailedNavigationTopRowLimit := 4
  const DetailedNavigationMiddleRowLimit := 6
  const DetailedNavigationBottomRowLimit := 3

  /** A first tag equal to this selects the favourites instead of a tag filter. */
  const FavoritesSentinel := "@favorites"

  // ---------------------------------------------------------------------------
  // Section ids
  // ---------------------------------------------------------------------------

  function ReplaceSpaces(s: string): (r: string)
    ensures |r| == |s|
    ensures forall i :: 0 <= i < |s| ==> r[i] == if s[i] == ' ' then '-' else s[i]
  {
    seq(|s|, i requires 0 <= i < |s| => if s[i] == ' ' then '-' else s[i])
  }

  /** Lower-casing restricted to ASCII letters. */
  function LowerChar(c: char): char {
    if 'A' <= c <= 'Z' then (c as int + 32) as char else c
  }

  function Lower(s: string): (r: string)
    ensures |r| == |s|
    ensures forall i :: 0 <= i < |s| ==> r[i] == LowerChar(s[i])
  {
    seq(|s|, i requires 0 <= i < |s| => LowerChar(s[i]))
  }

  /** `Array.prototype.join(sep)`. */
  function Join(parts: seq<string>, sep: string): string
    decreases |parts|
  {
    if parts == [] then ""
    else if |parts| == 1 then parts[0]
    else parts[0] + sep + Join(parts[1..], sep)
  }

  lemma {:induction false} JoinContains(parts: seq<string>, sep: string, c: char)
    requires c !in sep
    ensures c in Join(parts, sep) <==> exists p :: p in parts && c in p
    decreases |parts|
  {
    if |parts| > 1 {
      JoinContains(parts[1..], sep, c);
      assert parts == [parts[0]] + parts[1..];
    }
  }

  /** No ASCII upper-case letter occurs in `s`. */
  predicate NoUpperCase(s: string) {
    forall i :: 0 <= i < |s| ==> !('A' <= s[i] <= 'Z')
  }

  /** `getId(title, tags = [])`: `title` with spaces turned into `-`, then `-`, then the tags joined by `-`, lower-cased. */
  function GetId(title: string, tags: Option<seq<string>>): (id: string)
    ensures |id| == |title| + 1 + |Join(tags.GetOr([]), "-")|
    ensures NoUpperCase(id)
  {
    Lower(ReplaceSpaces(title) + "-" + Join(tags.GetOr([]), "-"))
  }

  /**
   * The slug starts with the title, spaces turned into `-` and letters lower-cased,
   * followed by `-`; with no tags that `-` ends it.
   */
  lemma GetIdShape(title: string, tags: Option<seq<string>>)
    ensures |GetId(title, tags)| == |title| + 1 + |Join(tags.GetOr([]), "-")|
    ensures forall i :: 0 <= i < |title| ==>
      GetId(title, tags)[i] == if title[i] == ' ' then '-' else LowerChar(title[i])
    ensures GetId(title, tags)[|title|] == '-'
    ensures GetId(title, tags)[..|title|] == Lower(ReplaceSpaces(title))
    ensures GetId(title, tags)[|title| + 1..] == Lower(Join(tags.GetOr([]), "-"))
    ensures tags.GetOr([]) == [] ==> GetId(title, tags) == Lower(ReplaceSpaces(title)) + "-"
  {
    var joined := Join(tags.GetOr([]), "-");
    var raw := ReplaceSpaces(title) + "-" + joined;
    var id := GetId(title, tags);
    assert id[|title|] == LowerChar(raw[|title|]);
    assert id[..|title|] == Lower(ReplaceSpaces(title)) by {
      forall i | 0 <= i < |title| ensures id[..|title|][i] == Lower(ReplaceSpaces(title))[i] {
        assert raw[i] == ReplaceSpaces(title)[i];
      }
    }
    assert id[|title| + 1..] == Lower(joined) by {
      forall j | 0 <= j < |joined| ensures id[|title| + 1..][j] == Lower(joined)[j] {
        assert raw[|title| + 1 + j] == joined[j];
      }
    }
  }

  /** The slug holds no space exactly when no tag holds one: spaces in the title are always replaced, those inside tags are not. */
  lemma GetIdHasNoSpaces(title: string, tags: Option<seq<string>>)
    ensures ' ' !in GetId(title, tags) <==> forall t :: t in tags.GetOr([]) ==> ' ' !in t
  {
    var joined := Join(tags.GetOr([]), "-");
    var raw := ReplaceSpaces(title) + "-" + joined;
    var id := GetId(title, tags);
    JoinContains(tags.GetOr([]), "-", ' ');
    assert ' ' in id <==> ' ' in raw by {
      if ' ' in id {
        var i :| 0 <= i < |id| && id[i] == ' ';
        assert raw[i] == ' ';
      }
      if ' ' in raw {
        var i :| 0 <= i < |raw| && raw[i] == ' ';
        assert id[i] == ' ';
      }
    }
    assert ' ' in raw <==> ' ' in joined by {
      if ' ' in raw {
        var i :| 0 <= i < |raw| && raw[i] == ' ';
        assert i > |title|;
        assert joined[i - |title| - 1] == ' ';
      }
      if ' ' in joined {
        var j :| 0 <= j < |joined| && joined[j] == ' ';
        assert raw[|title| + 1 + j] == ' ';
      }
    }
  }

  /** Derived ids are not unique: titles differing only in case or in spaces versus dashes collide. */
  lemma GetIdCollides()
    ensures GetId("My Apps", None) == GetId("my-apps", None) == "my-apps-"
  {
    assert ReplaceSpaces("My Apps") == "My-Apps";
    assert ReplaceSpaces("my-apps") == "my-apps";
    assert Lower("My-Apps-") == "my-apps-";
    assert Lower("my-apps-") == "my-apps-";
  }

  // ---------------------------------------------------------------------------
  // Buttons
  // ---------------------------------------------------------------------------

  datatype Button = Button(title: string, actionId: string, customData: App)

  /** An app spread together with its primary and secondary buttons. */
  datatype DecoratedApp = DecoratedApp(app: App, primaryButton: Button, secondaryButtons: seq<Button>)

  const LaunchTitle := "Launch"
  const LaunchActionId := "launch-app"
  const FavoriteToggleActionId := "favorite-toggle"
  const AddFavoriteTitle := "Add Favorite"
  const RemoveFavoriteTitle := "Remove Favorite"

  /** `calculateButtons`: launch as the primary button, one favourite toggle as the secondary. */
  function CalculateButtons(app: App, favoriteAppIds: seq<string>): (d: DecoratedApp)
    ensures d.app == app
    ensures d.primaryButton.actionId == LaunchActionId && d.primaryButton.customData == app
    ensures |d.secondaryButtons| == 1 && d.secondaryButtons[0].actionId == FavoriteToggleActionId
    ensures d.secondaryButtons[0].title == RemoveFavoriteTitle <==> app.appId in favoriteAppIds
  {
    DecoratedApp(
      app,
      Button(LaunchTitle, LaunchActionId, app),
      [Button(if app.appId in favoriteAppIds then RemoveFavoriteTitle else AddFavoriteTitle, FavoriteToggleActionId, app)])
  }

  /** `addButtons`: every app decorated, in order. */
  function AddButtons(apps: seq<App>, favoriteAppIds: seq<string>): (decorated: seq<DecoratedApp>)
    ensures |decorated| == |apps|
    ensures forall i :: 0 <= i < |apps| ==> decorated[i].app == apps[i]
  {
    seq(|apps|, i requires 0 <= i < |apps| => CalculateButtons(apps[i], favoriteAppIds))
  }

  function StripButtons(decorated: seq<DecoratedApp>): seq<App> {
    seq(|decorated|, i requires 0 <= i < |decorated| => decorated[i].app)
  }

  /**
   * Decoration keeps length, order and every app field (stripping the buttons gives
   * the input back), adds `Launch`/`launch-app` as the primary button and exactly one
   * `favorite-toggle` secondary button titled `Remove Favorite` iff the app is a favourite.
   */
  lemma AddButtonsSpec(apps: seq<App>, favoriteAppIds: seq<string>)
    ensures |AddButtons(apps, favoriteAppIds)| == |apps|
    ensures StripButtons(AddButtons(apps, favoriteAppIds)) == apps
    ensures forall i :: 0 <= i < |apps| ==>
      var d := AddButtons(apps, favoriteAppIds)[i];
      && d.primaryButton == Button("Launch", "launch-app", apps[i])
      && |d.secondaryButtons| == 1
      && d.secondaryButtons[0].actionId == "favorite-toggle"
      && d.secondaryButtons[0].customData == apps[i]
      && (d.secondaryButtons[0].title == "Remove Favorite" <==> apps[i].appId in favoriteAppIds)
      && (d.secondaryButtons[0].title == "Add Favorite" <==> apps[i].appId !in favoriteAppIds)
  {
  }

  // ---------------------------------------------------------------------------
  // Navigation items and sections
  // ---------------------------------------------------------------------------

  datatype Template = AppGrid

  datatype NavigationItem = NavigationItem(id: string, title: string, templateId: Template, apps: seq<App>)

  /** The sentinel is checked by position: only a first tag `@favorites` counts. */
  predicate UsesFavorites(tags: Option<seq<string>>) {
    tags.Some? && |tags.value| > 0 && tags.value[0] == FavoritesSentinel
  }

  /** `getNavigationItem` on a catalog. */
  function NavItemOf(catalog: seq<App>, favoriteAppIds: seq<string>, id: Option<string>, title: string,
                     tags: Option<seq<string>>): NavigationItem
  {
    NavigationItem(
      id.GetOr(GetId(title, tags)),
      title,
      AppGrid,
      if UsesFavorites(tags) then Favorites(catalog, favoriteAppIds) else AppsByTag(catalog, tags))
  }

  /** Whether building an item for these tags reads the catalog (calls `getApps`). */
  predicate ReadsCatalog(tags: Option<seq<string>>) {
    tags.Some?
  }

  /**
   * A navigation item's apps: the favourites (whatever their own tags) when the
   * first tag is `@favorites`, otherwise the apps sharing one of the tags; its id is
   * the configured one, or the slug of title and tags.
   */
  lemma NavItemSpec(catalog: seq<App>, favoriteAppIds: seq<string>, id: Option<string>, title: string,
                    tags: Option<seq<string>>, a: App)
    ensures NavItemOf(catalog, favoriteAppIds, id, title, tags).id == if id.Some? then id.value else GetId(title, tags)
    ensures UsesFavorites(tags) ==>
      (a in NavItemOf(catalog, favoriteAppIds, id, title, tags).apps <==> a in catalog && a.appId in favoriteAppIds)
    ensures !UsesFavorites(tags) ==>
      (a in NavItemOf(catalog, favoriteAppIds, id, title, tags).apps <==>
        a in catalog && tags.Some? && a.tags.Some? && exists t :: t in tags.value && t in a.tags.value)
    ensures !ReadsCatalog(tags) ==> NavItemOf(catalog, favoriteAppIds, id, title, tags).apps == []
  {
    FavoritesSpec(catalog, favoriteAppIds, a);
    AppsByTagSpec(catalog, tags, a);
  }

  function NavItemsOf(catalog: seq<App>, favoriteAppIds: seq<string>, configs: seq<NavItemConfig>): (r: seq<NavigationItem>)
    ensures |r| == |configs|
  {
    seq(|configs|, i requires 0 <= i < |configs| =>
      NavItemOf(catalog, favoriteAppIds, configs[i].id, configs[i].title, configs[i].tags))
  }

  /** `getNavigationItems(items, limit)` on a catalog: the non-null items among the first `limit`. */
  function NavigationItemsOf(catalog: seq<App>, favoriteAppIds: seq<string>, items: seq<Option<NavItemConfig>>,
                             limit: int): seq<NavigationItem>
  {
    NavItemsOf(catalog, favoriteAppIds, Present(Truncate(items, limit)))
  }

  /** Some configured item has tags, so building the list reads the catalog. */
  predicate AnyReadsCatalog(configs: seq<NavItemConfig>) {
    exists i :: 0 <= i < |configs| && ReadsCatalog(configs[i].tags)
  }

  function ItemsToBuild(items: seq<Option<NavItemConfig>>, limit: int): seq<NavItemConfig> {
    Present(Truncate(items, limit))
  }

  /** The warnings the service records. */
  datatype Notice =
    | TooManyNavigationItems(count: nat, limit: int)
    | TooManyNavigationSections(count: nat)
    | TooManyRowItems(count: nat, limit: int)
    | TooManyMiddleRowApps(count: nat)
    | MissingTopRow
    | MissingMiddleRow
    | MissingBottomRow

  function NavigationItemsWarnings(items: seq<Option<NavItemConfig>>, limit: int): seq<Notice> {
    if |items| > limit then [TooManyNavigationItems(|items|, limit)] else []
  }

  /**
   * Truncation: at most `limit` items, built in order from the non-null entries of
   * the first `limit`; exactly one warning iff there were more than `limit`; exactly
   * `limit` items when the list is longer and its first `limit` entries are non-null.
   */
  lemma NavigationItemsWithinLimit(catalog: seq<App>, favoriteAppIds: seq<string>,
                                   items: seq<Option<NavItemConfig>>, limit: nat)
    ensures |NavigationItemsOf(catalog, favoriteAppIds, items, limit)| <= limit
    ensures |NavigationItemsWarnings(items, limit)| == if |items| > limit then 1 else 0
    ensures forall c :: c in ItemsToBuild(items, limit) <==> Some(c) in items[..if |items| < limit then |items| else limit]
    ensures |items| >= limit && (forall i :: 0 <= i < limit ==> items[i].Some?) ==>
      |NavigationItemsOf(catalog, favoriteAppIds, items, limit)| == limit
  {
    forall c ensures c in ItemsToBuild(items, limit) <==> Some(c) in items[..if |items| < limit then |items| else limit] {
      PresentMembership(Truncate(items, limit), c);
    }
    if |items| >= limit && (forall i :: 0 <= i < limit ==> items[i].Some?) {
      PresentAllSome(Truncate(items, limit));
    }
  }

  datatype NavigationSection = NavigationSection(id: string, title: string, items: seq<NavigationItem>)

  function SectionOf(catalog: seq<App>, favoriteAppIds: seq<string>, config: NavSectionConfig): NavigationSection {
    NavigationSection(
      config.id.GetOr(GetId(config.title, None)),
      config.title,
      NavigationItemsOf(catalog, favoriteAppIds, config.items, NavigationSectionItemLimit))
  }

  function SectionsOf(catalog: seq<App>, favoriteAppIds: seq<string>, configs: seq<NavSectionConfig>): (r: seq<NavigationSection>)
    ensures |r| == |configs|
  {
    seq(|configs|, i requires 0 <= i < |configs| => SectionOf(catalog, favoriteAppIds, configs[i]))
  }

  /** `getNavigation` on a catalog: no sections without configuration, else the first three sections. */
  function NavigationOf(catalog: seq<App>, favoriteAppIds: seq<string>, navigation: Option<seq<NavSectionConfig>>): seq<NavigationSection> {
    match navigation
    case None => []
    case Some(sections) => SectionsOf(catalog, favoriteAppIds, Truncate(sections, NavigationSectionLimit))
  }

  predicate SectionReadsCatalog(config: NavSectionConfig) {
    AnyReadsCatalog(ItemsToBuild(config.items, NavigationSectionItemLimit))
  }

  predicate AnySectionReadsCatalog(configs: seq<NavSectionConfig>)
    decreases |configs|
  {
    configs != [] && (AnySectionReadsCatalog(configs[..|configs| - 1]) || SectionReadsCatalog(configs[|configs| - 1]))
  }

  predicate NavigationReadsCatalog(navigation: Option<seq<NavSectionConfig>>) {
    navigation.Some? && AnySectionReadsCatalog(Truncate(navigation.value, NavigationSectionLimit))
  }

  /** The item-limit warnings of the given sections, in section order. */
  function SectionsWarnings(configs: seq<NavSectionConfig>): seq<Notice>
    decreases |configs|
  {
    if configs == [] then []
    else SectionsWarnings(configs[..|configs| - 1])
         + NavigationItemsWarnings(configs[|configs| - 1].items, NavigationSectionItemLimit)
  }

  function NavigationWarnings(navigation: Option<seq<NavSectionConfig>>): seq<Notice> {
    match navigation
    case None => []
    case Some(sections) =>
      (if |sections| > NavigationSectionLimit then [TooManyNavigationSections(|sections|)] else [])
      + SectionsWarnings(Truncate(sections, NavigationSectionLimit))
  }

  /**
   * At most three sections of at most five items each; the section warning is issued
   * once iff more than three sections are configured and comes first.
   */
  lemma NavigationWithinLimits(catalog: seq<App>, favoriteAppIds: seq<string>, navigation: Option<seq<NavSectionConfig>>)
    ensures |NavigationOf(catalog, favoriteAppIds, navigation)| <= NavigationSectionLimit
    ensures forall s :: s in NavigationOf(catalog, favoriteAppIds, navigation) ==> |s.items| <= NavigationSectionItemLimit
    ensures navigation.Some? && |navigation.value| > NavigationSectionLimit <==>
      |NavigationWarnings(navigation)| > 0 && NavigationWarnings(navigation)[0] == TooManyNavigationSections(|navigation.value|)
  {
    if navigation.Some? {
      var configs := Truncate(navigation.value, NavigationSectionLimit);
      forall s | s in NavigationOf(catalog, favoriteAppIds, navigation) ensures |s.items| <= NavigationSectionItemLimit {
        var i :| 0 <= i < |configs| && s == SectionOf(catalog, favoriteAppIds, configs[i]);
        NavigationItemsWithinLimit(catalog, favoriteAppIds, configs[i].items, NavigationSectionItemLimit);
      }
      if |navigation.value| <= NavigationSectionLimit && |NavigationWarnings(navigation)| > 0 {
        SectionsWarningsKinds(configs);
        assert NavigationWarnings(navigation) == SectionsWarnings(configs);
        assert NavigationWarnings(navigation)[0] in SectionsWarnings(configs);
      }
    }
  }

  lemma {:induction false} SectionsWarningsKinds(configs: seq<NavSectionConfig>)
    ensures forall w :: w in SectionsWarnings(configs) ==> w.TooManyNavigationItems?
    decreases |configs|
  {
    if configs != [] {
      SectionsWarningsKinds(configs[..|configs| - 1]);
    }
  }

  // ---------------------------------------------------------------------------
  // Landing page
  // ---------------------------------------------------------------------------

  /** A navigation item with the configured description and image. */
  datatype DetailedNavigationItem = DetailedNavigationItem(description: string, image: Image, item: NavigationItem)

  datatype Hero = Hero(title: string, image: Image, description: string, cta: NavigationItem)

  datatype Row = Row(title: string, items: seq<DetailedNavigationItem>)

  datatype MiddleRow = MiddleRow(title: string, apps: seq<DecoratedApp>)

  datatype LandingPage = LandingPage(hero: Option<Hero>, topRow: Option<Row>, middleRow: Option<MiddleRow>, bottomRow: Option<Row>)

  function DetailedItemOf(catalog: seq<App>, favoriteAppIds: seq<string>, config: NavItemConfig): DetailedNavigationItem {
    DetailedNavigationItem(config.description, config.image,
      NavItemOf(catalog, favoriteAppIds, config.id, config.title, config.tags))
  }

  function DetailedItemsOf(catalog: seq<App>, favoriteAppIds: seq<string>, configs: seq<NavItemConfig>): (r: seq<DetailedNavigationItem>)
    ensures |r| == |configs|
  {
    seq(|configs|, i requires 0 <= i < |configs| => DetailedItemOf(catalog, favoriteAppIds, configs[i]))
  }

  /** `getLandingPageRow(rowItems, limit)` on a catalog. */
  function LandingPageRowOf(catalog: seq<App>, favoriteAppIds: seq<string>, items: seq<Option<NavItemConfig>>,
                            limit: int): seq<DetailedNavigationItem>
  {
    DetailedItemsOf(catalog, favoriteAppIds, ItemsToBuild(items, limit))
  }

  function LandingPageRowWarnings(items: seq<Option<NavItemConfig>>, limit: int): seq<Notice> {
    if |items| > limit then [TooManyRowItems(|items|, limit)] else []
  }

  /**
   * A landing-page row: at most `limit` entries, one per non-null item among the
   * first `limit`, in order, each carrying that item's description and image and
   * the navigation item built for it; one warning iff over the limit.
   */
  lemma LandingPageRowWithinLimit(catalog: seq<App>, favoriteAppIds: seq<string>,
                                  items: seq<Option<NavItemConfig>>, limit: nat)
    ensures |LandingPageRowOf(catalog, favoriteAppIds, items, limit)| == |ItemsToBuild(items, limit)| <= limit
    ensures forall i :: 0 <= i < |ItemsToBuild(items, limit)| ==>
      var c := ItemsToBuild(items, limit)[i];
      LandingPageRowOf(catalog, favoriteAppIds, items, limit)[i]
        == DetailedNavigationItem(c.description, c.image, NavItemOf(catalog, favoriteAppIds, c.id, c.title, c.tags))
    ensures forall c :: c in ItemsToBuild(items, limit) <==> Some(c) in items[..if |items| < limit then |items| else limit]
    ensures |LandingPageRowWarnings(items, limit)| == if |items| > limit then 1 else 0
    ensures |items| >= limit && (forall i :: 0 <= i < limit ==> items[i].Some?) ==>
      |LandingPageRowOf(catalog, favoriteAppIds, items, limit)| == limit
  {
    NavigationItemsWithinLimit(catalog, favoriteAppIds, items, limit);
  }

  function HeroOf(catalog: seq<App>, favoriteAppIds: seq<string>, hero: HeroConfig): Hero {
    Hero(hero.title, hero.image, hero.description,
      NavItemOf(catalog, favoriteAppIds, hero.cta.id, hero.cta.title, hero.cta.tags))
  }

  function RowOf(catalog: seq<App>, favoriteAppIds: seq<string>, row: RowConfig, limit: int): Row {
    Row(row.title, LandingPageRowOf(catalog, favoriteAppIds, row.items, limit))
  }

  /** The middle row: the first six apps sharing one of its tags, decorated with buttons. */
  function MiddleRowOf(catalog: seq<App>, favoriteAppIds: seq<string>, middle: MiddleRowConfig): MiddleRow {
    MiddleRow(middle.title,
      AddButtons(Truncate(AppsByTag(catalog, middle.tags), DetailedNavigationMiddleRowLimit), favoriteAppIds))
  }

  /** `getLandingPage` on a catalog: each part present iff configured. */
  function LandingPageOf(catalog: seq<App>, favoriteAppIds: seq<string>, config: LandingPageConfig): LandingPage {
    LandingPage(
      if config.hero.Some? then Some(HeroOf(catalog, favoriteAppIds, config.hero.value)) else None,
      if config.topRow.Some? then Some(RowOf(catalog, favoriteAppIds, config.topRow.value, DetailedNavigationTopRowLimit)) else None,
      if config.middleRow.Some? then Some(MiddleRowOf(catalog, favoriteAppIds, config.middleRow.value)) else None,
      if config.bottomRow.Some? then Some(RowOf(catalog, favoriteAppIds, config.bottomRow.value, DetailedNavigationBottomRowLimit)) else None)
  }

  /** A top or bottom row: its limit warning when configured, the missing-row error otherwise. */
  function RowWarnings(row: Option<RowConfig>, limit: int, missing: Notice): seq<Notice> {
    match row
    case None => [missing]
    case Some(r) => LandingPageRowWarnings(r.items, limit)
  }

  /** The middle row: a warning when more apps match than it shows, the missing-row error when absent. */
  function MiddleRowWarnings(catalog: seq<App>, middleRow: Option<MiddleRowConfig>): seq<Notice> {
    match middleRow
    case None => [MissingMiddleRow]
    case Some(middle) =>
      var n := |AppsByTag(catalog, middle.tags)|;
      if n > DetailedNavigationMiddleRowLimit then [TooManyMiddleRowApps(n)] else []
  }

  /** The warnings and errors of one landing-page assembly, in the order they are issued. */
  function LandingPageWarnings(catalog: seq<App>, config: LandingPageConfig): seq<Notice> {
    RowWarnings(config.topRow, DetailedNavigationTopRowLimit, MissingTopRow)
    + MiddleRowWarnings(catalog, config.middleRow)
    + RowWarnings(config.bottomRow, DetailedNavigationBottomRowLimit, MissingBottomRow)
  }

  predicate RowReadsCatalog(row: Option<RowConfig>, limit: int) {
    row.Some? && AnyReadsCatalog(ItemsToBuild(row.value.items, limit))
  }

  predicate LandingPageReadsCatalog(config: LandingPageConfig) {
    || (config.hero.Some? && ReadsCatalog(config.hero.value.cta.tags))
    || RowReadsCatalog(config.topRow, DetailedNavigationTopRowLimit)
    || (config.middleRow.Some? && ReadsCatalog(config.middleRow.value.tags))
    || RowReadsCatalog(config.bottomRow, DetailedNavigationBottomRowLimit)
  }

  /**
   * A missing row is absent from the page and reported once, and the rest of the page
   * is still built; rows present keep to their limits (top 4, middle 6, bottom 3), and
   * the middle row's apps are the first tag-filtered apps with their buttons.
   */
  lemma LandingPageSpec(catalog: seq<App>, favoriteAppIds: seq<string>, config: LandingPageConfig)
    ensures var page := LandingPageOf(catalog, favoriteAppIds, config);
      && (page.topRow.None? <==> MissingTopRow in LandingPageWarnings(catalog, config))
      && (page.middleRow.None? <==> MissingMiddleRow in LandingPageWarnings(catalog, config))
      && (page.bottomRow.None? <==> MissingBottomRow in LandingPageWarnings(catalog, config))
      && (page.hero.Some? <==> config.hero.Some?)
      && (page.topRow.Some? ==> |page.topRow.value.items| <= 4)
      && (page.middleRow.Some? ==>
            && |page.middleRow.value.apps| <= 6
            && StripButtons(page.middleRow.value.apps) == AppsByTag(catalog, config.middleRow.value.tags)[..|page.middleRow.value.apps|])
      && (page.bottomRow.Some? ==> |page.bottomRow.value.items| <= 3)
    ensures config.middleRow.Some? ==>
      var matched := |AppsByTag(catalog, config.middleRow.value.tags)|;
      |LandingPageOf(catalog, favoriteAppIds, config).middleRow.value.apps| == if matched < 6 then matched else 6
    ensures forall w :: w in LandingPageWarnings(catalog, config) && w.TooManyMiddleRowApps? ==>
      config.middleRow.Some? && w.count == |AppsByTag(catalog, config.middleRow.value.tags)| && w.count > 6
    ensures config.middleRow.Some? && |AppsByTag(catalog, config.middleRow.value.tags)| > 6 ==>
      TooManyMiddleRowApps(|AppsByTag(catalog, config.middleRow.value.tags)|) in LandingPageWarnings(catalog, config)
  {
    var page := LandingPageOf(catalog, favoriteAppIds, config);
    if config.middleRow.Some? {
      AddButtonsSpec(Truncate(AppsByTag(catalog, config.middleRow.value.tags), DetailedNavigationMiddleRowLimit), favoriteAppIds);
    }
  }

  /** Without configured tags the views do not depend on the catalog at all. */
  lemma NavItemsIgnoreCatalog(c1: seq<App>, c2: seq<App>, favoriteAppIds: seq<string>, configs: seq<NavItemConfig>)
    requires !AnyReadsCatalog(configs)
    ensures NavItemsOf(c1, favoriteAppIds, configs) == NavItemsOf(c2, favoriteAppIds, configs)
    ensures DetailedItemsOf(c1, favoriteAppIds, configs) == DetailedItemsOf(c2, favoriteAppIds, configs)
  {
    assert forall i :: 0 <= i < |configs| ==> configs[i].tags.None?;
  }

  /** Appending one configured item to the items built so far. */
  lemma ItemsStep(catalog: seq<App>, favoriteAppIds: seq<string>, configs: seq<NavItemConfig>, c: NavItemConfig)
    ensures AnyReadsCatalog(configs + [c]) == (AnyReadsCatalog(configs) || ReadsCatalog(c.tags))
    ensures NavItemsOf(catalog, favoriteAppIds, configs + [c])
         == NavItemsOf(catalog, favoriteAppIds, configs) + [NavItemOf(catalog, favoriteAppIds, c.id, c.title, c.tags)]
    ensures DetailedItemsOf(catalog, favoriteAppIds, configs + [c])
         == DetailedItemsOf(catalog, favoriteAppIds, configs) + [DetailedItemOf(catalog, favoriteAppIds, c)]
  {
    var all := configs + [c];
    if AnyReadsCatalog(all) {
      var i :| 0 <= i < |all| && ReadsCatalog(all[i].tags);
      if i < |configs| {
        assert ReadsCatalog(configs[i].tags);
      }
    }
    if AnyReadsCatalog(configs) {
      var i :| 0 <= i < |configs| && ReadsCatalog(configs[i].tags);
      assert ReadsCatalog(all[i].tags);
    }
    if ReadsCatalog(c.tags) {
      assert ReadsCatalog(all[|configs|].tags);
    }
  }

  /** One more section, and one more step of the section loop. */
  lemma SectionsStep(catalog: seq<App>, favoriteAppIds: seq<string>, configs: seq<NavSectionConfig>, i: nat)
    requires i < |configs|
    ensures SectionsOf(catalog, favoriteAppIds, configs[..i + 1])
         == SectionsOf(catalog, favoriteAppIds, configs[..i]) + [SectionOf(catalog, favoriteAppIds, configs[i])]
    ensures SectionsWarnings(configs[..i + 1])
         == SectionsWarnings(configs[..i]) + NavigationItemsWarnings(configs[i].items, NavigationSectionItemLimit)
    ensures AnySectionReadsCatalog(configs[..i + 1]) == (AnySectionReadsCatalog(configs[..i]) || SectionReadsCatalog(configs[i]))
  {
    assert configs[..i + 1][..i] == configs[..i];
  }
}
