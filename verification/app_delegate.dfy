/**
 * AdkLib's `AppDelegate`: the launch gate, push setup, the permission
 * chain and the attribution callbacks. The SDK calls themselves (start,
 * login, the permission dialogs) are events: each answer is a method here.
 */
module Delegate {
  import opened Wrappers
  import opened Store
  import opened Routing
  import opened Parameters

  class AppDelegate {
    /** The cached `appStatus` (1 web, 2 game, 0 undecided). */
    var appStatus: int
    const params: AppParameters

    constructor(params: AppParameters)
      ensures this.params == params
      ensures appStatus == IntegerOf(params.defaults.entries, Key.AppStatus)
    {
      this.params := params;
      appStatus := IntegerOf(params.defaults.entries, Key.AppStatus);
    }

    /**
     * `didFinishLaunching`: returns whether the checks were skipped because
     * a game decision was already stored. `now` and `cutoff` are instants.
     */
    method DidFinishLaunching(now: int, cutoff: int, deviceModel: string, padIdiom: bool, sdkUid: string)
      returns (skipped: bool)
      modifies this, params, params.defaults
      ensures params.Snapshot() == Launch(old(params.Snapshot()), now, cutoff, deviceModel, padIdiom, sdkUid)
      ensures skipped <==> GameAlreadyDecided(old(params.defaults.entries))
      ensures skipped || ForceGameMode(now, cutoff, deviceModel, padIdiom) ==> appStatus == 2
      ensures !skipped && !ForceGameMode(now, cutoff, deviceModel, padIdiom) ==> appStatus == old(appStatus)
    {
      var defaults := params.defaults;
      if BoolOf(defaults.entries, Key.ForceGame) || BoolOf(defaults.entries, Key.ApiFailed) {
        defaults.Set(Key.ChecksComplete, BoolValue(true));
        defaults.Set(Key.AppStatus, IntValue(2));
        appStatus := 2;
        params.TransitionToGame();
        return true;
      }
      if ForceGameMode(now, cutoff, deviceModel, padIdiom) {
        defaults.Set(Key.ForceGame, BoolValue(true));
        defaults.Set(Key.WebViewShown, BoolValue(false));
        defaults.Set(Key.TargetUrl, StringValue(""));
        defaults.Set(Key.AppStatus, IntValue(2));
        appStatus := 2;
      }
      SetupPush(sdkUid);
      return false;
    }

    /** The store writes of `setupOneSignal`. */
    method SetupPush(sdkUid: string)
      modifies params.defaults
      ensures var m := old(params.defaults.entries)[Key.PushIdentifier := StringValue(sdkUid)];
        params.defaults.entries == if BoolOf(m, Key.PushPermissionAsked) then m else m[Key.PushPermissionAsked := BoolValue(false)]
    {
      params.defaults.Set(Key.PushIdentifier, StringValue(sdkUid));
      if !BoolOf(params.defaults.entries, Key.PushPermissionAsked) {
        params.defaults.Set(Key.PushPermissionAsked, BoolValue(false));
      }
    }

    /** The answer to the push prompt `setupOneSignal` schedules five seconds after launch. */
    method DelayedPushPromptAnswered()
      modifies params.defaults
      ensures BoolOf(params.defaults.entries, Key.PushPermissionAsked)
      ensures old(BoolOf(params.defaults.entries, Key.PushPermissionAsked)) ==> params.defaults.entries == old(params.defaults.entries)
      ensures params.defaults.entries == old(params.defaults.entries)[Key.PushPermissionAsked := params.defaults.entries[Key.PushPermissionAsked]]
    {
      if !BoolOf(params.defaults.entries, Key.PushPermissionAsked) {
        params.defaults.Set(Key.PushPermissionAsked, BoolValue(true));
      }
    }

    /**
     * The tracking-permission answer (or the status found already
     * determined): record it, then `tryingAskNotifications`. Returns
     * whether the notification prompt is now on screen.
     */
    method TrackingAnswered(sig: Signals) returns (prompted: bool)
      modifies params, params.defaults
      ensures prompted <==> !BoolOf(old(params.defaults.entries), Key.PushPermissionAsked)
      ensures prompted ==> params.Snapshot() == Routing.TrackingAnswered(old(params.Snapshot()))
      ensures !prompted ==> params.Snapshot() == AfterNotifications(Routing.TrackingAnswered(old(params.Snapshot())), sig)
    {
      params.state := params.state.(isTrackingResponded := true, idfaPermissionResponded := true);
      prompted := TryingAskNotifications(sig);
    }

    /** `tryingAskNotifications`: returns whether it had to show the prompt. */
    method TryingAskNotifications(sig: Signals) returns (prompted: bool)
      modifies params, params.defaults
      ensures prompted <==> !BoolOf(old(params.defaults.entries), Key.PushPermissionAsked)
      ensures prompted ==> params.Snapshot() == old(params.Snapshot())
      ensures !prompted ==> params.Snapshot() == AfterNotifications(old(params.Snapshot()), sig)
    {
      if BoolOf(params.defaults.entries, Key.PushPermissionAsked) {
        ContinueAfterNotifications(sig);
        return false;
      }
      return true;
    }

    /** The notification prompt's answer, granted or not. */
    method NotificationsAnswered(sig: Signals)
      modifies params, params.defaults
      ensures params.Snapshot() == Routing.NotificationsAnswered(old(params.Snapshot()), sig)
    {
      params.defaults.Set(Key.PushPermissionAsked, BoolValue(true));
      ContinueAfterNotifications(sig);
    }

    method ContinueAfterNotifications(sig: Signals)
      modifies params, params.defaults
      ensures params.Snapshot() == AfterNotifications(old(params.Snapshot()), sig)
    {
      if BoolOf(params.defaults.entries, Key.ForceGame) {
        params.defaults.Set(Key.ChecksComplete, BoolValue(true));
        params.TransitionToGame();
        return;
      }
      WaitForAppsFlyer(sig);
    }

    method WaitForAppsFlyer(sig: Signals)
      modifies params, params.defaults
      ensures params.Snapshot() == Routing.WaitForAppsFlyer(old(params.Snapshot()), sig)
    {
      if BoolOf(params.defaults.entries, Key.ForceGame) {
        params.defaults.Set(Key.ChecksComplete, BoolValue(true));
        params.TransitionToGame();
        return;
      }
      params.defaults.Set(Key.ChecksComplete, BoolValue(false));
      var saved := NonEmptyString(params.defaults.entries, Key.TargetUrl);
      if saved.Some? {
        params.TransitionToWebView(saved.value);
        return;
      }
      if params.state.conversionDataString.Some? {
        params.state := params.state.(isDataReceived := true);
        params.ProcessLink(sig);
      } else {
        var _ := params.CreateInitialLink(sig);
      }
    }

    /**
     * `onConversionDataSuccess`: `isDictionary` says whether the payload has
     * string keys, `json` is its serialisation (None when that fails).
     */
    method OnConversionDataSuccess(isDictionary: bool, json: Option<string>, sig: Signals)
      modifies params, params.defaults
      ensures !isDictionary ==> params.Snapshot() == old(params.Snapshot())
      ensures isDictionary ==> params.Snapshot() == ConversionSucceeded(old(params.Snapshot()), json, sig)
    {
      if !isDictionary {
        return;
      }
      params.SaveConversionData(json);
      params.state := params.state.(isDataReceived := true);
      params.ProcessLink(sig);
    }

    method OnConversionDataFail()
      modifies params
      ensures params.Snapshot() == ConversionFailed(old(params.Snapshot()))
    {
      params.state := params.state.(isErrorOccurred := true, isDataFetched := true);
    }
  }
}
