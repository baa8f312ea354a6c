/**
 * The shapes the storefront catalog works on: app entries as fetched from the
 * app-source URLs, the app-provider settings and the storefront-provider
 * settings. These are type declarations only; they hold no logic.
 */
module Models {
  import opened Wrappers

  type Url = string

  /** An image reference; opaque to the catalog. */
  datatype Image = Image(src: string)

  /**
   * One app entry of an app-listing document. `manifestType` and `tags` may be
   * missing from the JSON; `manifest` may be missing or empty, which is what the
   * launch dispatch checks. Display fields are carried but never inspected.
   */
  datatype App = App(
    appId: string,
    title: string,
    description: string,
    manifestType: Option<string>,
    manifest: Option<string>,
    tags: Option<seq<string>>)

  /** AppProviderSettings: the URLs to read apps from, the accepted manifest types, the cache lifetime. */
  datatype AppProviderSettings = AppProviderSettings(
    appSourceUrls: Option<seq<Url>>,
    manifestTypes: Option<seq<string>>,
    cacheDurationInMinutes: Option<int>)

  /** StorefrontDetailedNavigationItemWithTags: a configured navigation item or landing-page row item. */
  datatype NavItemConfig = NavItemConfig(
    id: Option<string>,
    title: string,
    description: string,
    image: Image,
    tags: Option<seq<string>>)

  datatype HeroConfig = HeroConfig(title: string, description: string, cta: NavItemConfig, image: Image)

  /** The top and bottom rows list navigation items; an entry may be `null` in the JSON. */
  datatype RowConfig = RowConfig(title: string, items: seq<Option<NavItemConfig>>)

  /** The middle row is defined by tags only. */
  datatype MiddleRowConfig = MiddleRowConfig(title: string, tags: Option<seq<string>>)

  datatype LandingPageConfig = LandingPageConfig(
    hero: Option<HeroConfig>,
    topRow: Option<RowConfig>,
    middleRow: Option<MiddleRowConfig>,
    bottomRow: Option<RowConfig>)

  datatype NavSectionConfig = NavSectionConfig(id: Option<string>, title: string, items: seq<Option<NavItemConfig>>)

  /** The storefront footer; passed through unchanged. */
  datatype Footer = Footer(logo: Image, text: string, links: seq<string>)

  datatype StorefrontProviderSettings = StorefrontProviderSettings(
    id: string,
    title: string,
    icon: string,
    landingPage: LandingPageConfig,
    navigation: Option<seq<NavSectionConfig>>,
    footer: Footer)
}
