/**
 * `AppParameters`: the routing object of AdkLib, updated in place. Each
 * method is proved to move its snapshot exactly as the matching function
 * of module Routing says.
 */
module Parameters {
  import opened Wrappers
  import opened Store
  import opened Routing

  /** Whether attribution data has arrived by data-wait attempt i (0-based). */
  predicate DataAt(ticks: seq<bool>, i: int)
  {
    0 <= i < |ticks| && ticks[i]
  }

  /**
   * The polling of `createInitialLink`: the timer fires at once and then
   * every second, and stops when the data is there or after ten attempts.
   * The result is the number of attempts made.
   */
  method PollForData(alreadyReceived: bool, dataTicks: seq<bool>) returns (attempts: nat)
    ensures alreadyReceived ==> attempts == 0
    ensures !alreadyReceived ==> 1 <= attempts <= MaxDataAttempts
    ensures !alreadyReceived ==> forall i :: 0 <= i < attempts - 1 ==> !DataAt(dataTicks, i)
    ensures !alreadyReceived && attempts < MaxDataAttempts ==> DataAt(dataTicks, attempts - 1)
  {
    if alreadyReceived {
      return 0;
    }
    attempts := 1;
    while attempts < MaxDataAttempts && !DataAt(dataTicks, attempts - 1)
      invariant 1 <= attempts <= MaxDataAttempts
      invariant forall i :: 0 <= i < attempts - 1 ==> !DataAt(dataTicks, i)
      decreases MaxDataAttempts - attempts
    {
      attempts := attempts + 1;
    }
  }

  class AppParameters {
    var state: AppState
    var shouldShowGame: bool
    var currentScreen: Screen
    var webViewURL: Option<string>
    var waitAttempts: int
    /** Whether the token-wait timer is scheduled. */
    var tokenTimerActive: bool
    const defaults: Defaults

    /** The routing state as one value. */
    function Snapshot(): World
      reads this, defaults
    {
      World(defaults.entries, state, currentScreen, webViewURL, waitAttempts, tokenTimerActive, shouldShowGame)
    }

    /** The shared instance over the given store: default state, then `loadValues`. */
    constructor(defaults: Defaults)
      ensures this.defaults == defaults
      ensures Snapshot() == Routing.LoadValues(World(defaults.entries, DefaultState(), Loading, None, 0, false, false))
    {
      this.defaults := defaults;
      state := DefaultState();
      shouldShowGame := false;
      currentScreen := Loading;
      webViewURL := None;
      waitAttempts := 0;
      tokenTimerActive := false;
      new;
      LoadValues();
    }

    method LoadValues()
      modifies this
      ensures Snapshot() == Routing.LoadValues(old(Snapshot()))
    {
      var saved := NonEmptyString(defaults.entries, Key.TargetUrl);
      if saved.Some? {
        webViewURL := saved;
        currentScreen := WebView;
      } else if BoolOf(defaults.entries, Key.ForceGame) {
        currentScreen := Game;
      }
    }

    method SaveConversionData(json: Option<string>)
      modifies this, defaults
      ensures json.None? ==> Snapshot() == old(Snapshot())
      ensures json.Some? ==> state == old(state).(conversionDataString := json)
      ensures json.Some? ==> defaults.entries == old(defaults.entries)[Key.ConversionData := StringValue(json.value)]
      ensures currentScreen == old(currentScreen) && webViewURL == old(webViewURL) && shouldShowGame == old(shouldShowGame)
      ensures waitAttempts == old(waitAttempts) && tokenTimerActive == old(tokenTimerActive)
    {
      if json.Some? {
        state := state.(conversionDataString := json);
        defaults.Set(Key.ConversionData, StringValue(json.value));
      }
    }

    method TransitionToWebView(url: string)
      modifies this, defaults
      ensures Snapshot() == Routing.TransitionToWebView(old(Snapshot()), url)
    {
      webViewURL := Some(url);
      currentScreen := WebView;
      defaults.Set(Key.ChecksComplete, BoolValue(true));
    }

    method TransitionToGame()
      modifies this, defaults
      ensures Snapshot() == Routing.TransitionToGame(old(Snapshot()))
    {
      currentScreen := Game;
      defaults.Set(Key.WebViewShown, BoolValue(false));
      defaults.Set(Key.TargetUrl, StringValue(""));
      defaults.Set(Key.AppStatus, IntValue(2));
      defaults.Set(Key.ChecksComplete, BoolValue(true));
    }

    method ShowGame()
      modifies this, defaults
      ensures Snapshot() == Routing.ShowGame(old(Snapshot()))
    {
      ghost var w := Snapshot();
      state := state.(isGamePartOpened := true);
      defaults.Set(Key.ForceGame, BoolValue(true));
      defaults.Set(Key.ChecksComplete, BoolValue(true));
      defaults.Set(Key.AppStatus, IntValue(2));
      defaults.Set(Key.ApiFailed, BoolValue(true));
      ghost var prefs := defaults.entries;
      if !BoolOf(defaults.entries, Key.GameKey) {
        defaults.Set(Key.GameKey, BoolValue(true));
      }
      assert defaults.entries == MarkOnce(prefs, Key.GameKey);
      shouldShowGame := true;
      assert Snapshot() == w.(state := w.state.(isGamePartOpened := true), prefs := MarkOnce(prefs, Key.GameKey), shouldShowGame := true);
      TransitionToGame();
    }

    method OpenWebView(url: string)
      modifies this, defaults
      ensures Snapshot() == Routing.OpenWebView(old(Snapshot()), url)
    {
      defaults.Set(Key.LinkProcessed, BoolValue(true));
      defaults.Set(Key.TargetUrl, StringValue(url));
      defaults.Set(Key.WebViewShown, BoolValue(true));
      defaults.Set(Key.AppStatus, IntValue(1));
      defaults.Set(Key.ChecksComplete, BoolValue(true));
      state := state.(initialPath := url, secondaryPath := url, isWebPartOpened := true);
      if !BoolOf(defaults.entries, Key.WebKey) {
        defaults.Set(Key.WebKey, BoolValue(true));
      }
      TransitionToWebView(url);
    }

    /** `checkRedirectURL`, taking the reply through the same guards in the same order. */
    method CheckRedirectURL(reply: Reply)
      modifies this, defaults
      ensures Snapshot() == Routing.CheckRedirectURL(old(Snapshot()), reply)
    {
      if BoolOf(defaults.entries, Key.LinkProcessed) {
        tokenTimerActive := false;
        return;
      }
      if reply == InvalidTrackingUrl {
        ShowGame();
        return;
      }
      tokenTimerActive := false;
      match reply {
        case TransportError => ShowGame();
        case NotHttp => ShowGame();
        case Http(status, body) =>
          if !(200 <= status <= 299) || body.None? {
            ShowGame();
          } else if body.value.EmptyObject? {
            ShowGame();
          } else if body.value.Unreadable? {
            ShowGame();
          } else if |body.value.url| > MinUrlLength {
            OpenWebView(body.value.url);
          } else {
            ShowGame();
          }
      }
    }

    /** One firing of the token-wait timer; `token` is what the push SDK reports now. */
    method CheckTokenStatus(token: Option<string>, reply: Reply)
      modifies this, defaults
      ensures Snapshot() == TokenTick(old(Snapshot()), token, reply)
    {
      waitAttempts := waitAttempts + 1;
      if UsableToken(token) {
        defaults.Set(Key.CachedToken, StringValue(token.value));
        tokenTimerActive := false;
        CheckRedirectURL(reply);
        return;
      }
      if waitAttempts >= MaxWaitAttempts {
        tokenTimerActive := false;
        CheckRedirectURL(reply);
      }
    }

    /** The run loop firing the token-wait timer until it is cleared. */
    method RunTokenTimer(ticks: seq<Option<string>>, reply: Reply)
      requires tokenTimerActive && 0 <= waitAttempts < MaxWaitAttempts
      modifies this, defaults
      ensures Snapshot() == TokenWait(old(Snapshot()), ticks, reply)
    {
      while tokenTimerActive
        invariant 0 <= waitAttempts <= MaxWaitAttempts
        invariant tokenTimerActive ==> waitAttempts < MaxWaitAttempts
        invariant tokenTimerActive ==> TokenWait(Snapshot(), ticks, reply) == TokenWait(old(Snapshot()), ticks, reply)
        invariant !tokenTimerActive ==> Snapshot() == TokenWait(old(Snapshot()), ticks, reply)
        decreases MaxWaitAttempts - waitAttempts
      {
        CheckTokenStatus(TokenAt(ticks, waitAttempts), reply);
      }
    }

    method ProcessLink(sig: Signals)
      modifies this, defaults
      ensures Snapshot() == Routing.ProcessLink(old(Snapshot()), sig)
    {
      if BoolOf(defaults.entries, Key.ForceGame) {
        defaults.Set(Key.ChecksComplete, BoolValue(true));
        TransitionToGame();
        return;
      }
      var saved := NonEmptyString(defaults.entries, Key.TargetUrl);
      if saved.Some? {
        defaults.Set(Key.ChecksComplete, BoolValue(true));
        TransitionToWebView(saved.value);
        return;
      }
      if UsableToken(sig.tokenNow) {
        defaults.Set(Key.CachedToken, StringValue(sig.tokenNow.value));
        CheckRedirectURL(sig.reply);
        return;
      }
      waitAttempts := 0;
      tokenTimerActive := true;
      RunTokenTimer(sig.tokenTicks, sig.reply);
    }

    /**
     * `createInitialLink` (and `initializeRouting`, which only calls it); returns the data-wait attempts.
     * Whether the data was there, arrived while polling, or never came, polling
     * changes no state and `processLink` follows.
     */
    method CreateInitialLink(sig: Signals) returns (attempts: nat)
      modifies this, defaults
      ensures Snapshot() == Routing.ProcessLink(old(Snapshot()), sig)
      ensures old(state.isDataReceived) ==> attempts == 0
      ensures !old(state.isDataReceived) ==> 1 <= attempts <= MaxDataAttempts
    {
      attempts := PollForData(state.isDataReceived, sig.dataTicks);
      ProcessLink(sig);
    }
  }
}
