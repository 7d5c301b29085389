/**
 * `RemoteScreen`: the SwiftUI root that shows the loading animation, the
 * embedded browser or the host app's own content, and what the routing
 * decisions make it show.
 */
module Remote {
  import opened Wrappers
  import opened Store
  import opened Routing

  datatype View = LoadingAnimation | Browser(url: string) | Content

  /** The choice in `RemoteScreen.body`. */
  function Body(checksComplete: bool, screen: Screen, webViewURL: Option<string>): (v: View)
    ensures v == LoadingAnimation <==> !checksComplete
    ensures v.Browser? <==> checksComplete && screen == WebView && webViewURL.Some?
    ensures v.Browser? ==> v.url == webViewURL.value
    ensures v == Content <==> checksComplete && (screen != WebView || webViewURL.None?)
  {
    if !checksComplete then LoadingAnimation
    else if screen == WebView && webViewURL.Some? then Browser(webViewURL.value)
    else Content
  }

  /** What the screen shows for a routing snapshot. */
  function Shown(w: World): View
  {
    Body(BoolOf(w.prefs, Key.ChecksComplete), w.screen, w.webViewURL)
  }

  /** Once `showGame` has run, the host app's content is on screen. */
  lemma ShowGameShowsContent(w: World)
    ensures Shown(ShowGame(w)) == Content
  {
  }

  /** Once a redirect URL is accepted, the browser shows exactly that URL. */
  lemma OpenWebViewShowsBrowser(w: World, url: string)
    ensures Shown(OpenWebView(w, url)) == Browser(url)
  {
  }

  /** `processLink` with force-game set never shows the browser. */
  lemma ForcedProcessLinkShowsContent(w: World, sig: Signals)
    requires BoolOf(w.prefs, Key.ForceGame)
    ensures Shown(ProcessLink(w, sig)) == Content
  {
  }

  /**
   * A launch that runs the checks in force-game mode (before the cutoff, or on an iPad) ends
   * in the host app's content once the permission chain goes on, whether
   * the notification prompt had been answered before or is answered now.
   */
  lemma ForcedLaunchShowsContent(w: World, now: int, cutoff: int, deviceModel: string, padIdiom: bool,
                                 sdkUid: string, sig: Signals)
    requires !GameAlreadyDecided(w.prefs) && ForceGameMode(now, cutoff, deviceModel, padIdiom)
    ensures var launched := TrackingAnswered(Launch(w, now, cutoff, deviceModel, padIdiom, sdkUid));
      && Shown(AfterNotifications(launched, sig)) == Content
      && Shown(NotificationsAnswered(launched, sig)) == Content
  {
    var launched := TrackingAnswered(Launch(w, now, cutoff, deviceModel, padIdiom, sdkUid));
    assert BoolOf(launched.prefs, Key.ForceGame);
    var answered := launched.(prefs := launched.prefs[Key.PushPermissionAsked := BoolValue(true)]);
    assert BoolOf(answered.prefs, Key.ForceGame);
  }
}
