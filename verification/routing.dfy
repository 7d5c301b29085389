/**
 * The launch routing decision of AdkLib (AppParameters.swift and
 * AppDelegate.swift), as functions from one snapshot of the routing
 * state to the next. The classes in app_parameters.dfy and
 * app_delegate.dfy are proved to follow these functions.
 *
 * Everything the app learns from outside is an input: the push token the
 * SDK reports at each timer tick, whether attribution data has arrived
 * at each tick, and the single reply of the redirect endpoint. Work that
 * the app dispatches to the main queue runs to completion in place.
 */
module Routing {
  import opened Wrappers
  import opened Store

  datatype Screen = Loading | WebView | Game

  /** `AppState`: bootstrap progress flags, kept in memory only. */
  datatype AppState = AppState(
    isWebPartOpened: bool,
    isGamePartOpened: bool,
    wasIDFARequested: bool,
    isDataReceived: bool,
    isReceivedErrorData: bool,
    initialPath: string,
    secondaryPath: string,
    conversionDataString: Option<string>,
    idfaPermissionResponded: bool,
    isTrackingResponded: bool,
    isErrorOccurred: bool,
    isDataFetched: bool,
    primaryRoute: string)

  predicate Pristine(s: AppState)
  {
    && !s.isWebPartOpened && !s.isGamePartOpened && !s.wasIDFARequested
    && !s.isDataReceived && !s.isReceivedErrorData
    && s.initialPath == "" && s.secondaryPath == "" && s.conversionDataString.None?
    && !s.idfaPermissionResponded && !s.isTrackingResponded && !s.isErrorOccurred && !s.isDataFetched
    && s.primaryRoute == ""
  }

  /** `AppState.default`. */
  function DefaultState(): (s: AppState)
    ensures Pristine(s)
  {
    AppState(false, false, false, false, false, "", "", None, false, false, false, false, "")
  }

  /** The state AppParameters owns, together with the shared preference store. */
  datatype World = World(
    prefs: Prefs,
    state: AppState,
    screen: Screen,
    webViewURL: Option<string>,
    waitAttempts: int,
    tokenTimerActive: bool,
    shouldShowGame: bool)

  /** Ticks of the token-wait timer before giving up (`maxWaitAttempts`). */
  const MaxWaitAttempts := 10
  /** Ticks of the data-wait timer in `createInitialLink` before giving up. */
  const MaxDataAttempts := 10

  /** The keys that `transitionToGame` writes. */
  function GameKeys(): set<Key>
  {
    {Key.WebViewShown, Key.TargetUrl, Key.AppStatus, Key.ChecksComplete}
  }

  /** Set a flag to true unless it already reads true (the `webKey` / `gameKey` idiom). */
  function MarkOnce(m: Prefs, k: Key): (r: Prefs)
    ensures BoolOf(r, k)
    ensures r == m || r == m[k := BoolValue(true)]
  {
    if BoolOf(m, k) then m else m[k := BoolValue(true)]
  }

  /** `loadValues`: a saved non-empty target URL wins, then the force-game flag. */
  function LoadValues(w: World): (r: World)
    ensures NonEmptyString(w.prefs, Key.TargetUrl).Some? ==>
      r.screen == WebView && r.webViewURL == NonEmptyString(w.prefs, Key.TargetUrl)
    ensures NonEmptyString(w.prefs, Key.TargetUrl).None? && BoolOf(w.prefs, Key.ForceGame) ==>
      r.screen == Game && r.webViewURL == w.webViewURL
    ensures NonEmptyString(w.prefs, Key.TargetUrl).None? && !BoolOf(w.prefs, Key.ForceGame) ==> r == w
    ensures r == w.(screen := r.screen, webViewURL := r.webViewURL)
  {
    match NonEmptyString(w.prefs, Key.TargetUrl)
    case Some(url) => w.(webViewURL := Some(url), screen := WebView)
    case None => if BoolOf(w.prefs, Key.ForceGame) then w.(screen := Game) else w
  }

  /** `transitionToGame`. */
  function TransitionToGame(w: World): (r: World)
    ensures r.screen == Game
    ensures BoolOf(r.prefs, Key.ChecksComplete) && !BoolOf(r.prefs, Key.WebViewShown)
    ensures StringOf(r.prefs, Key.TargetUrl) == Some("") && IntegerOf(r.prefs, Key.AppStatus) == 2
    ensures forall k :: k in w.prefs && k !in GameKeys() ==> k in r.prefs && r.prefs[k] == w.prefs[k]
    ensures r == w.(screen := Game, prefs := r.prefs)
  {
    w.(screen := Game,
       prefs := w.prefs[Key.WebViewShown := BoolValue(false)]
                       [Key.TargetUrl := StringValue("")]
                       [Key.AppStatus := IntValue(2)]
                       [Key.ChecksComplete := BoolValue(true)])
  }

  /** `transitionToWebView(url:)`. */
  function TransitionToWebView(w: World, url: string): (r: World)
    ensures r.screen == WebView && r.webViewURL == Some(url) && BoolOf(r.prefs, Key.ChecksComplete)
    ensures r.prefs == w.prefs[Key.ChecksComplete := BoolValue(true)]
    ensures r == w.(screen := WebView, webViewURL := Some(url), prefs := r.prefs)
  {
    w.(webViewURL := Some(url), screen := WebView, prefs := w.prefs[Key.ChecksComplete := BoolValue(true)])
  }

  /** `showGame`: the game decision is persisted so later launches skip the checks. */
  function ShowGame(w: World): (r: World)
    ensures r.screen == Game && r.shouldShowGame && r.state.isGamePartOpened
    ensures BoolOf(r.prefs, Key.ForceGame) && BoolOf(r.prefs, Key.ApiFailed) && BoolOf(r.prefs, Key.ChecksComplete)
    ensures IntegerOf(r.prefs, Key.AppStatus) == 2 && StringOf(r.prefs, Key.TargetUrl) == Some("")
    ensures !BoolOf(r.prefs, Key.WebViewShown) && BoolOf(r.prefs, Key.GameKey)
    ensures r.webViewURL == w.webViewURL && r.waitAttempts == w.waitAttempts && r.tokenTimerActive == w.tokenTimerActive
  {
    var prefs := w.prefs[Key.ForceGame := BoolValue(true)]
                        [Key.ChecksComplete := BoolValue(true)]
                        [Key.AppStatus := IntValue(2)]
                        [Key.ApiFailed := BoolValue(true)];
    var marked := MarkOnce(prefs, Key.GameKey);
    assert BoolOf(marked, Key.ForceGame) && BoolOf(marked, Key.ApiFailed) by {
      assert marked[Key.ForceGame] == BoolValue(true) && marked[Key.ApiFailed] == BoolValue(true);
    }
    var shown := w.(state := w.state.(isGamePartOpened := true), prefs := marked, shouldShowGame := true);
    TransitionToGame(shown)
  }

  /** The branch of `checkRedirectURL` for a usable URL: remember it and open it. */
  function OpenWebView(w: World, url: string): (r: World)
    ensures r.screen == WebView && r.webViewURL == Some(url)
    ensures BoolOf(r.prefs, Key.LinkProcessed) && BoolOf(r.prefs, Key.WebViewShown) && BoolOf(r.prefs, Key.ChecksComplete)
    ensures StringOf(r.prefs, Key.TargetUrl) == Some(url) && IntegerOf(r.prefs, Key.AppStatus) == 1
    ensures r.state == w.state.(initialPath := url, secondaryPath := url, isWebPartOpened := true)
    ensures r.waitAttempts == w.waitAttempts && r.tokenTimerActive == w.tokenTimerActive && r.shouldShowGame == w.shouldShowGame
  {
    var prefs := w.prefs[Key.LinkProcessed := BoolValue(true)]
                        [Key.TargetUrl := StringValue(url)]
                        [Key.WebViewShown := BoolValue(true)]
                        [Key.AppStatus := IntValue(1)]
                        [Key.ChecksComplete := BoolValue(true)];
    var state := w.state.(initialPath := url, secondaryPath := url, isWebPartOpened := true);
    var marked := MarkOnce(prefs, Key.WebKey);
    TransitionToWebView(w.(prefs := marked, state := state), url)
  }

  /** The body of a reply the endpoint sent, as far as the app can read it. */
  datatype Payload =
    | EmptyObject                             // `{}`
    | Decoded(url: string, saveFirst: bool)   // decodes as `ServerResponse`
    | Unreadable                              // anything else

  /** What `checkRedirectURL` gets back. */
  datatype Reply =
    | InvalidTrackingUrl                      // `URL(string:)` refused the tracking URL
    | TransportError                          // the data task reported an error
    | NotHttp                                 // the response is not an HTTP response
    | Http(status: int, body: Option<Payload>)

  datatype Route = ToWebView(url: string) | ToGame

  /** Minimum length of a usable redirect URL, exclusive: `url.count > 3`. */
  const MinUrlLength := 3

  /** The reply classification of `checkRedirectURL`: every failure routes to the game. */
  function Classify(reply: Reply): (r: Route)
    ensures r.ToWebView? <==>
      && reply.Http? && 200 <= reply.status <= 299
      && reply.body.Some? && reply.body.value.Decoded? && |reply.body.value.url| > MinUrlLength
    ensures r.ToWebView? ==> r.url == reply.body.value.url
  {
    match reply
    case Http(status, Some(Decoded(url, _))) =>
      if 200 <= status <= 299 && |url| > MinUrlLength then ToWebView(url) else ToGame
    case _ => ToGame
  }

  /** `checkRedirectURL` with the endpoint's reply. */
  function CheckRedirectURL(w: World, reply: Reply): (r: World)
    ensures BoolOf(w.prefs, Key.LinkProcessed) ==> r == w.(tokenTimerActive := false)
    ensures !BoolOf(w.prefs, Key.LinkProcessed) && Classify(reply).ToWebView? ==>
      r == OpenWebView(w.(tokenTimerActive := false), Classify(reply).url)
    ensures !BoolOf(w.prefs, Key.LinkProcessed) && Classify(reply).ToGame? ==>
      r.screen == Game && BoolOf(r.prefs, Key.ForceGame) && BoolOf(r.prefs, Key.ApiFailed)
    ensures r.waitAttempts == w.waitAttempts
    ensures reply != InvalidTrackingUrl ==> !r.tokenTimerActive
    ensures !w.tokenTimerActive ==> !r.tokenTimerActive
  {
    if BoolOf(w.prefs, Key.LinkProcessed) then w.(tokenTimerActive := false)
    else if reply == InvalidTrackingUrl then ShowGame(w)
    else
      var settled := w.(tokenTimerActive := false);
      match Classify(reply)
      case ToWebView(url) => OpenWebView(settled, url)
      case ToGame => ShowGame(settled)
  }

  /** A usable push token: present and non-empty. */
  predicate UsableToken(t: Option<string>)
  {
    t.Some? && t.value != ""
  }

  /** The token the SDK reports at timer tick i (none when the input runs out). */
  function TokenAt(ticks: seq<Option<string>>, i: int): Option<string>
  {
    if 0 <= i < |ticks| then ticks[i] else None
  }

  /** One firing of `checkTokenStatus`. */
  function TokenTick(w: World, token: Option<string>, reply: Reply): (r: World)
    ensures r.waitAttempts == w.waitAttempts + 1
    ensures !UsableToken(token) && w.waitAttempts + 1 < MaxWaitAttempts ==> r == w.(waitAttempts := w.waitAttempts + 1)
    ensures UsableToken(token) || w.waitAttempts + 1 >= MaxWaitAttempts ==> !r.tokenTimerActive
    ensures r.tokenTimerActive <==> w.tokenTimerActive && !UsableToken(token) && w.waitAttempts + 1 < MaxWaitAttempts
  {
    var counted := w.(waitAttempts := w.waitAttempts + 1);
    if UsableToken(token) then
      CheckRedirectURL(counted.(prefs := counted.prefs[Key.CachedToken := StringValue(token.value)], tokenTimerActive := false), reply)
    else if counted.waitAttempts >= MaxWaitAttempts then
      CheckRedirectURL(counted.(tokenTimerActive := false), reply)
    else counted
  }

  /** The token-wait timer firing until it is cleared. */
  function TokenWait(w: World, ticks: seq<Option<string>>, reply: Reply): (r: World)
    requires w.tokenTimerActive && 0 <= w.waitAttempts < MaxWaitAttempts
    ensures !r.tokenTimerActive
    decreases MaxWaitAttempts - w.waitAttempts
  {
    var next := TokenTick(w, TokenAt(ticks, w.waitAttempts), reply);
    if next.tokenTimerActive then TokenWait(next, ticks, reply) else next
  }

  /** The attempt count at which the token wait stops, started at attempt `a`. */
  function WaitTicks(a: int, ticks: seq<Option<string>>): int
    requires 0 <= a < MaxWaitAttempts
    decreases MaxWaitAttempts - a
  {
    if UsableToken(TokenAt(ticks, a)) || a + 1 >= MaxWaitAttempts then a + 1 else WaitTicks(a + 1, ticks)
  }

  /** The timer counts exactly the ticks `WaitTicks` counts. */
  lemma {:induction false} TokenWaitCount(w: World, ticks: seq<Option<string>>, reply: Reply)
    requires w.tokenTimerActive && 0 <= w.waitAttempts < MaxWaitAttempts
    ensures TokenWait(w, ticks, reply).waitAttempts == WaitTicks(w.waitAttempts, ticks)
    decreases MaxWaitAttempts - w.waitAttempts
  {
    var next := TokenTick(w, TokenAt(ticks, w.waitAttempts), reply);
    if next.tokenTimerActive {
      TokenWaitCount(next, ticks, reply);
    }
  }

  lemma {:induction false} WaitTicksStopsAtFirstToken(a: int, ticks: seq<Option<string>>)
    requires 0 <= a < MaxWaitAttempts
    ensures var n := WaitTicks(a, ticks);
      && a < n <= MaxWaitAttempts
      && (forall i :: a <= i < n - 1 ==> !UsableToken(TokenAt(ticks, i)))
      && (n < MaxWaitAttempts ==> UsableToken(TokenAt(ticks, n - 1)))
    decreases MaxWaitAttempts - a
  {
    if !UsableToken(TokenAt(ticks, a)) && a + 1 < MaxWaitAttempts {
      WaitTicksStopsAtFirstToken(a + 1, ticks);
    }
  }

  /**
   * The token wait stops at the first tick that reports a token, or after
   * the tenth tick, and hands over to `checkRedirectURL` exactly then.
   */
  lemma TokenWaitStopsAtFirstToken(w: World, ticks: seq<Option<string>>, reply: Reply)
    requires w.tokenTimerActive && 0 <= w.waitAttempts < MaxWaitAttempts
    ensures var r := TokenWait(w, ticks, reply);
      && w.waitAttempts < r.waitAttempts <= MaxWaitAttempts
      && (forall i :: w.waitAttempts <= i < r.waitAttempts - 1 ==> !UsableToken(TokenAt(ticks, i)))
      && (r.waitAttempts < MaxWaitAttempts ==> UsableToken(TokenAt(ticks, r.waitAttempts - 1)))
  {
    TokenWaitCount(w, ticks, reply);
    WaitTicksStopsAtFirstToken(w.waitAttempts, ticks);
  }

  /** The inputs of one routing run. */
  datatype Signals = Signals(
    dataTicks: seq<bool>,               // attribution data seen at data-wait tick i
    tokenNow: Option<string>,           // push token when `processLink` starts
    tokenTicks: seq<Option<string>>,    // push token seen at token-wait tick i
    reply: Reply)                       // the redirect endpoint's reply

  /** `processLink`. */
  function ProcessLink(w: World, sig: Signals): (r: World)
    ensures BoolOf(w.prefs, Key.ForceGame) ==>
      r.screen == Game && BoolOf(r.prefs, Key.ChecksComplete) && NonEmptyString(r.prefs, Key.TargetUrl).None?
    ensures !BoolOf(w.prefs, Key.ForceGame) && NonEmptyString(w.prefs, Key.TargetUrl).Some? ==>
      r.screen == WebView && r.webViewURL == NonEmptyString(w.prefs, Key.TargetUrl) && BoolOf(r.prefs, Key.ChecksComplete)
  {
    if BoolOf(w.prefs, Key.ForceGame) then
      TransitionToGame(w.(prefs := w.prefs[Key.ChecksComplete := BoolValue(true)]))
    else match NonEmptyString(w.prefs, Key.TargetUrl)
      case Some(url) => TransitionToWebView(w.(prefs := w.prefs[Key.ChecksComplete := BoolValue(true)]), url)
      case None =>
        if UsableToken(sig.tokenNow) then
          CheckRedirectURL(w.(prefs := w.prefs[Key.CachedToken := StringValue(sig.tokenNow.value)]), sig.reply)
        else
          TokenWait(w.(waitAttempts := 0, tokenTimerActive := true), sig.tokenTicks, sig.reply)
  }

  /**
   * Without force-game or a saved URL, `processLink` ends in the endpoint's
   * verdict: a usable URL opens the web view, anything else the game.
   */
  lemma ProcessLinkFollowsReply(w: World, sig: Signals)
    requires !BoolOf(w.prefs, Key.ForceGame) && NonEmptyString(w.prefs, Key.TargetUrl).None?
    requires !BoolOf(w.prefs, Key.LinkProcessed)
    ensures var r := ProcessLink(w, sig);
      && (Classify(sig.reply).ToWebView? ==> r.screen == WebView && r.webViewURL == Some(Classify(sig.reply).url))
      && (Classify(sig.reply).ToGame? ==> r.screen == Game && BoolOf(r.prefs, Key.ForceGame))
      && (!w.tokenTimerActive ==> !r.tokenTimerActive)
  {
    if UsableToken(sig.tokenNow) {
      var cached := w.(prefs := w.prefs[Key.CachedToken := StringValue(sig.tokenNow.value)]);
      assert BoolOf(cached.prefs, Key.LinkProcessed) == BoolOf(w.prefs, Key.LinkProcessed);
      assert ProcessLink(w, sig) == CheckRedirectURL(cached, sig.reply);
    } else {
      var start := w.(waitAttempts := 0, tokenTimerActive := true);
      assert ProcessLink(w, sig) == TokenWait(start, sig.tokenTicks, sig.reply);
      TokenWaitReachesRedirect(start, sig.tokenTicks, sig.reply);
    }
  }

  /** The token wait does not touch the link-processed flag before the redirect check runs, which then decides. */
  lemma {:induction false} TokenWaitReachesRedirect(w: World, ticks: seq<Option<string>>, reply: Reply)
    requires w.tokenTimerActive && 0 <= w.waitAttempts < MaxWaitAttempts
    requires !BoolOf(w.prefs, Key.LinkProcessed)
    ensures var r := TokenWait(w, ticks, reply);
      && (Classify(reply).ToWebView? ==> r.screen == WebView && r.webViewURL == Some(Classify(reply).url))
      && (Classify(reply).ToGame? ==> r.screen == Game && BoolOf(r.prefs, Key.ForceGame))
    decreases MaxWaitAttempts - w.waitAttempts
  {
    var next := TokenTick(w, TokenAt(ticks, w.waitAttempts), reply);
    if next.tokenTimerActive {
      TokenWaitReachesRedirect(next, ticks, reply);
    }
  }

  /** `getConversionData`: the saved attribution payload, if any. */
  predicate HasConversionData(w: World)
  {
    w.state.conversionDataString.Some?
  }

  // ---------------------------------------------------------------------
  // AppDelegate

  /** `forceGameMode`: before the cutoff instant, or on an iPad. */
  predicate ForceGameMode(now: int, cutoff: int, deviceModel: string, padIdiom: bool)
  {
    now < cutoff || deviceModel == "iPad" || padIdiom
  }

  /** The launch gate: a stored game decision short-circuits everything. */
  predicate GameAlreadyDecided(m: Prefs)
  {
    BoolOf(m, Key.ForceGame) || BoolOf(m, Key.ApiFailed)
  }

  /** `didFinishLaunching`, up to starting the SDKs; `sdkUid` is the attribution SDK's device id. */
  function Launch(w: World, now: int, cutoff: int, deviceModel: string, padIdiom: bool, sdkUid: string): (r: World)
    ensures GameAlreadyDecided(w.prefs) ==>
      r.screen == Game && BoolOf(r.prefs, Key.ChecksComplete) && IntegerOf(r.prefs, Key.AppStatus) == 2
    ensures GameAlreadyDecided(w.prefs) ==>
      forall k :: k in w.prefs && k !in GameKeys() ==> k in r.prefs && r.prefs[k] == w.prefs[k]
    ensures !GameAlreadyDecided(w.prefs) ==> r.screen == w.screen && StringOf(r.prefs, Key.PushIdentifier) == Some(sdkUid)
    ensures !GameAlreadyDecided(w.prefs) && ForceGameMode(now, cutoff, deviceModel, padIdiom) ==>
      && BoolOf(r.prefs, Key.ForceGame) && !BoolOf(r.prefs, Key.WebViewShown)
      && StringOf(r.prefs, Key.TargetUrl) == Some("") && IntegerOf(r.prefs, Key.AppStatus) == 2
    ensures !GameAlreadyDecided(w.prefs) && !ForceGameMode(now, cutoff, deviceModel, padIdiom) ==>
      forall k :: k in w.prefs && k !in {Key.PushIdentifier, Key.PushPermissionAsked} ==> k in r.prefs && r.prefs[k] == w.prefs[k]
    ensures r.state == w.state
  {
    if GameAlreadyDecided(w.prefs) then
      TransitionToGame(w.(prefs := w.prefs[Key.ChecksComplete := BoolValue(true)][Key.AppStatus := IntValue(2)]))
    else
      var forced :=
        if ForceGameMode(now, cutoff, deviceModel, padIdiom) then
          w.prefs[Key.ForceGame := BoolValue(true)]
                 [Key.WebViewShown := BoolValue(false)]
                 [Key.TargetUrl := StringValue("")]
                 [Key.AppStatus := IntValue(2)]
        else w.prefs;
      // setupOneSignal: remember the push identifier, make sure the asked flag exists
      var withId := forced[Key.PushIdentifier := StringValue(sdkUid)];
      var prefs := if BoolOf(withId, Key.PushPermissionAsked) then withId else withId[Key.PushPermissionAsked := BoolValue(false)];
      w.(prefs := prefs)
  }

  /** `waitForAppsFlyer`. */
  function WaitForAppsFlyer(w: World, sig: Signals): (r: World)
    ensures BoolOf(w.prefs, Key.ForceGame) ==> r.screen == Game && BoolOf(r.prefs, Key.ChecksComplete)
    ensures !BoolOf(w.prefs, Key.ForceGame) && NonEmptyString(w.prefs, Key.TargetUrl).Some? ==>
      r == TransitionToWebView(w.(prefs := w.prefs[Key.ChecksComplete := BoolValue(false)]), NonEmptyString(w.prefs, Key.TargetUrl).value)
    ensures !BoolOf(w.prefs, Key.ForceGame) && NonEmptyString(w.prefs, Key.TargetUrl).None? && HasConversionData(w) ==>
      r == ProcessLink(w.(prefs := w.prefs[Key.ChecksComplete := BoolValue(false)], state := w.state.(isDataReceived := true)), sig)
    ensures !BoolOf(w.prefs, Key.ForceGame) && NonEmptyString(w.prefs, Key.TargetUrl).None? && !HasConversionData(w) ==>
      r == ProcessLink(w.(prefs := w.prefs[Key.ChecksComplete := BoolValue(false)]), sig)
  {
    if BoolOf(w.prefs, Key.ForceGame) then
      TransitionToGame(w.(prefs := w.prefs[Key.ChecksComplete := BoolValue(true)]))
    else
      var pending := w.(prefs := w.prefs[Key.ChecksComplete := BoolValue(false)]);
      assert NonEmptyString(pending.prefs, Key.TargetUrl) == NonEmptyString(w.prefs, Key.TargetUrl);
      match NonEmptyString(pending.prefs, Key.TargetUrl)
      case Some(url) => TransitionToWebView(pending, url)
      case None =>
        if HasConversionData(pending) then ProcessLink(pending.(state := pending.state.(isDataReceived := true)), sig)
        else ProcessLink(pending, sig)  // createInitialLink: polling changes no state, then processLink
  }

  /** What follows the notification prompt (or its earlier answer). */
  function AfterNotifications(w: World, sig: Signals): (r: World)
    ensures BoolOf(w.prefs, Key.ForceGame) ==> r.screen == Game && BoolOf(r.prefs, Key.ChecksComplete)
    ensures !BoolOf(w.prefs, Key.ForceGame) ==> r == WaitForAppsFlyer(w, sig)
  {
    if BoolOf(w.prefs, Key.ForceGame) then
      TransitionToGame(w.(prefs := w.prefs[Key.ChecksComplete := BoolValue(true)]))
    else WaitForAppsFlyer(w, sig)
  }

  /** The tracking-permission answer: record it and move on to the notification step. */
  function TrackingAnswered(w: World): (r: World)
    ensures r == w.(state := w.state.(isTrackingResponded := true, idfaPermissionResponded := true))
  {
    w.(state := w.state.(isTrackingResponded := true, idfaPermissionResponded := true))
  }

  /** The notification prompt's answer: remember that it was asked, then continue. */
  function NotificationsAnswered(w: World, sig: Signals): (r: World)
  {
    AfterNotifications(w.(prefs := w.prefs[Key.PushPermissionAsked := BoolValue(true)]), sig)
  }

  /**
   * `onConversionDataSuccess`: `json` is the payload serialised (None when
   * serialisation fails); the data-received flag is set and `processLink`
   * runs either way.
   */
  function ConversionSucceeded(w: World, json: Option<string>, sig: Signals): (r: World)
  {
    var saved :=
      if json.Some? then w.(state := w.state.(conversionDataString := json),
                            prefs := w.prefs[Key.ConversionData := StringValue(json.value)])
      else w;
    ProcessLink(saved.(state := saved.state.(isDataReceived := true)), sig)
  }

  /** `onConversionDataFail`: two flags, nothing else. */
  function ConversionFailed(w: World): (r: World)
    ensures r.state.isErrorOccurred && r.state.isDataFetched
    ensures r.state == w.state.(isErrorOccurred := true, isDataFetched := true)
    ensures r.prefs == w.prefs && r.screen == w.screen && r.webViewURL == w.webViewURL
    ensures r.waitAttempts == w.waitAttempts && r.tokenTimerActive == w.tokenTimerActive && r.shouldShowGame == w.shouldShowGame
  {
    w.(state := w.state.(isErrorOccurred := true, isDataFetched := true))
  }

  // ---------------------------------------------------------------------
  // Consequences across steps

  /** After `showGame` a later `loadValues` cannot pick the web view. */
  lemma ShowGameThenLoadValues(w: World)
    ensures LoadValues(ShowGame(w)).screen == Game
  {
  }

  /** A game decision survives a relaunch: the launch gate goes straight to the game. */
  lemma ShowGameIsFinal(w: World, now: int, cutoff: int, deviceModel: string, padIdiom: bool, sdkUid: string)
    ensures GameAlreadyDecided(ShowGame(w).prefs)
    ensures var r := Launch(ShowGame(w), now, cutoff, deviceModel, padIdiom, sdkUid);
      r.screen == Game && BoolOf(r.prefs, Key.ChecksComplete)
  {
  }

  /** A web decision survives a relaunch: `loadValues` reopens the remembered URL. */
  lemma OpenWebViewThenLoadValues(w: World, url: string)
    requires url != ""
    ensures var r := LoadValues(OpenWebView(w, url));
      r.screen == WebView && r.webViewURL == Some(url)
  {
  }

  /** Once a link is processed, further redirect checks only stop the timer. */
  lemma LinkProcessedIsFinal(w: World, url: string, reply: Reply)
    ensures CheckRedirectURL(OpenWebView(w, url), reply) == OpenWebView(w, url).(tokenTimerActive := false)
  {
  }

  // ---------------------------------------------------------------------
  // The tracking URL

  const AppleAppId := "6752373910"

  /** The names of the fixed query items, in order. */
  const FixedQueryNames: seq<string> :=
    ["fcmtoken", "osextid", "bundle_id", "apple_id", "lng", "firsttime", "iuid", "device_model", "os_ver", "fip4", "afid"]

  /** The push token sent: the live one, else the cached one, else empty. */
  function FcmToken(live: Option<string>, cached: Option<string>): (t: string)
    ensures UsableToken(live) ==> t == live.value
    ensures !UsableToken(live) && cached.Some? ==> t == cached.value
    ensures !UsableToken(live) && cached.None? ==> t == ""
  {
    var fromSdk := if live.Some? then live.value else "";
    if fromSdk != "" then fromSdk else if cached.Some? then cached.value else ""
  }

  /**
   * `createTrackingURL`'s query items. The attribution payload goes in as
   * `afattr` (percent-encoded JSON) when that encoding succeeded, else as
   * `afattr_bs64` (base64) when available.
   */
  function QueryItems(fcmToken: string, storedDeviceId: Option<string>, freshUuid: string,
                      bundleId: Option<string>, languageCode: Option<string>, firstTime: string,
                      deviceModel: string, osVersion: string, externalIp: string, sdkUid: string,
                      afattr: Option<string>, afattrB64: Option<string>): (items: seq<(string, string)>)
    ensures |items| == if afattr.Some? || afattrB64.Some? then 12 else 11
    ensures forall i :: 0 <= i < 11 ==> items[i].0 == FixedQueryNames[i]
    ensures items[0].1 == fcmToken && items[3].1 == AppleAppId
    ensures items[1].1 == items[6].1 == (if storedDeviceId.Some? then storedDeviceId.value else freshUuid)
    ensures items[4].1 == (if languageCode.Some? then languageCode.value else "en")
    ensures afattr.Some? ==> items[11] == ("afattr", afattr.value)
    ensures afattr.None? && afattrB64.Some? ==> items[11] == ("afattr_bs64", afattrB64.value)
  {
    var deviceId := if storedDeviceId.Some? then storedDeviceId.value else freshUuid;
    var fixed := [
      ("fcmtoken", fcmToken),
      ("osextid", deviceId),
      ("bundle_id", if bundleId.Some? then bundleId.value else ""),
      ("apple_id", AppleAppId),
      ("lng", if languageCode.Some? then languageCode.value else "en"),
      ("firsttime", firstTime),
      ("iuid", deviceId),
      ("device_model", deviceModel),
      ("os_ver", osVersion),
      ("fip4", externalIp),
      ("afid", sdkUid)];
    if afattr.Some? then fixed + [("afattr", afattr.value)]
    else if afattrB64.Some? then fixed + [("afattr_bs64", afattrB64.value)]
    else fixed
  }
}
