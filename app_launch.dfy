/**
 * `launchApp` as the choice of a launch strategy: the manifest-type dispatch is
 * modelled, the platform calls each strategy makes are not.
 */
module AppLaunch {
  import opened Wrappers
  import opened Models
  import opened Sequences
  import opened StoreCatalog

  const SnapshotManifestType := "snapshot"
  const ViewManifestType := "view"
  const WindowManifestType := "window"
  const InlineAppAssetManifestType := "inline-appasset"

  const KnownManifestTypes: set<string> :=
    {SnapshotManifestType, ViewManifestType, ExternalManifestType, WindowManifestType, InlineAppAssetManifestType}

  /** Which platform call `launchApp` makes, with the arguments it passes. */
  datatype LaunchStrategy =
    | NoManifest                                           // error logged, nothing launched
    | ApplySnapshot(snapshot: string)                      // platform.applySnapshot
    | CreateView(manifestUrl: string)                      // platform.createView
    | LaunchExternalProcess(path: string, uuid: string)    // fin.System.launchExternalProcess
    | CreateWindowFromManifestAt(manifestUrl: string)      // fetch the window options, platform.createWindow
    | DownloadAssetThenLaunch(appAsset: string, appId: string) // fin.System.downloadAsset, then launchExternalProcess
    | StartFromManifest(manifestUrl: string)               // fin.Application.startFromManifest

  /** An absent or empty manifest fails `if (!app.manifest)`. */
  predicate HasManifest(app: App) {
    app.manifest.Some? && app.manifest.value != ""
  }

  function LaunchStrategyOf(app: App): (strategy: LaunchStrategy)
    ensures strategy == NoManifest <==> !HasManifest(app)
    ensures HasManifest(app) ==> ManifestArgument(strategy) == app.manifest
  {
    if !HasManifest(app) then NoManifest
    else
      var m := app.manifest.value;
      match app.manifestType
      case Some(t) =>
        if t == SnapshotManifestType then ApplySnapshot(m)
        else if t == ViewManifestType then CreateView(m)
        else if t == ExternalManifestType then LaunchExternalProcess(m, app.appId)
        else if t == WindowManifestType then CreateWindowFromManifestAt(m)
        else if t == InlineAppAssetManifestType then DownloadAssetThenLaunch(m, app.appId)
        else StartFromManifest(m)
      case None => StartFromManifest(m)
  }

  /** The manifest reference the chosen call receives. */
  function ManifestArgument(s: LaunchStrategy): Option<string> {
    match s
    case NoManifest => None
    case ApplySnapshot(m) => Some(m)
    case CreateView(m) => Some(m)
    case LaunchExternalProcess(m, _) => Some(m)
    case CreateWindowFromManifestAt(m) => Some(m)
    case DownloadAssetThenLaunch(m, _) => Some(m)
    case StartFromManifest(m) => Some(m)
  }

  /** The manifest type a strategy is chosen for; `None` for the fallback and the missing manifest. */
  function DispatchedType(s: LaunchStrategy): Option<string> {
    match s
    case ApplySnapshot(_) => Some(SnapshotManifestType)
    case CreateView(_) => Some(ViewManifestType)
    case LaunchExternalProcess(_, _) => Some(ExternalManifestType)
    case CreateWindowFromManifestAt(_) => Some(WindowManifestType)
    case DownloadAssetThenLaunch(_, _) => Some(InlineAppAssetManifestType)
    case _ => None
  }

  /** The one strategy whose failures are caught and logged instead of reaching the caller. */
  predicate SwallowsFailures(s: LaunchStrategy) {
    s.DownloadAssetThenLaunch?
  }

  /** Strategies that start an operating-system process. */
  predicate StartsExternalProcess(s: LaunchStrategy) {
    s.LaunchExternalProcess? || s.DownloadAssetThenLaunch?
  }

  /**
   * The dispatch: nothing is launched iff the manifest is missing; otherwise the
   * chosen call receives the app's own manifest, a known manifest type selects its
   * own strategy (and the strategy gives that type back), and any other or missing
   * type falls through to starting from the manifest.
   */
  lemma LaunchDispatch(app: App)
    ensures LaunchStrategyOf(app) == NoManifest <==> !HasManifest(app)
    ensures HasManifest(app) ==> ManifestArgument(LaunchStrategyOf(app)) == app.manifest
    ensures HasManifest(app) && app.manifestType.Some? && app.manifestType.value in KnownManifestTypes ==>
      DispatchedType(LaunchStrategyOf(app)) == app.manifestType
    ensures HasManifest(app) && DispatchedType(LaunchStrategyOf(app)).None? ==> LaunchStrategyOf(app).StartFromManifest?
    ensures LaunchStrategyOf(app).LaunchExternalProcess? ==> LaunchStrategyOf(app).uuid == app.appId
    ensures SwallowsFailures(LaunchStrategyOf(app)) <==> HasManifest(app) && app.manifestType == Some(InlineAppAssetManifestType)
  {
  }

  /**
   * Validation and launch agree on `external` entries: when the launch permission
   * is denied, no validated entry is launched with `launchExternalProcess` directly.
   */
  lemma ValidatedNeverLaunchesDeniedExternal(s: AppProviderSettings, apps: seq<App>, p: Permissions, a: App)
    requires Denied(p.launchExternalProcess)
    requires a in Validated(s, apps, p)
    ensures !LaunchStrategyOf(a).LaunchExternalProcess?
  {
    FilterMembership(AcceptedBy(s, p), apps, a);
  }

  /**
   * The permission check looks only at `external` entries, so a supported
   * `inline-appasset` entry is validated whatever the two answers, although its
   * launch downloads an asset and starts an external process.
   */
  lemma InlineAppAssetSkipsPermissionCheck(s: AppProviderSettings, apps: seq<App>, p: Permissions, a: App)
    requires a in apps && a.manifestType == Some(InlineAppAssetManifestType) && SupportedManifestType(s, a)
    requires HasManifest(a)
    ensures a in Validated(s, apps, p)
    ensures StartsExternalProcess(LaunchStrategyOf(a))
  {
    FilterMembership(AcceptedBy(s, p), apps, a);
  }
}
