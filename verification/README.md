# PantheonGoals and AdkLib in Dafny

PantheonGoals is an iOS savings-goal tracker. A user creates *artifacts*
(goals with a target amount, an image and an optional deadline). They add
and remove *contributions*, and *achievements* unlock along the way. Everything
is kept in the `UserDefaults` preference store. AdkLib is the launch library
bundled with the app. At launch it decides, once and for all, whether the app shows its
own content (the "game") or an embedded web view. The decision rests on a
cutoff date, the device type, push and tracking permissions, attribution data
and one reply from a redirect endpoint.

The model follows the source file by file:

| Dafny file | models |
|---|---|
| `models.dfy` | the artifact, contribution and achievement records, progress, the achievement catalog |
| `store.dfy` | the preference store: typed keys, values, `bool`/`integer`/`string`/`data` reads, the `Defaults` object |
| `ledger.dfy` | the ledger rules as functions: add/delete a contribution, replace/remove an artifact, the unlock rules |
| `storage.dfy` | `PantheonGoalsStorageManager`, a class over the store |
| `artifact_details.dfy` | the artifact details screen: a class holding the artifact, whose methods update it and the store |
| `add_artifact.dfy` | the add-artifact screen: form validation, creation, first-step and collector unlocks |
| `routing.dfy` | AdkLib's routing decision as functions on a `World` snapshot (preferences, `AppState`, screen, URL, token-wait timer) |
| `app_parameters.dfy` | `AppParameters`, a class whose methods are proved to follow `routing.dfy` |
| `app_delegate.dfy` | AdkLib's `AppDelegate`: launch gate, push setup, permission chain, attribution callbacks |
| `remote_screen.dfy` | what `RemoteScreen` shows for a routing state, and what each decision makes it show |
| `onboarding.dfy` | the onboarding pager's page counter and button title |
| `hex_color.dfy` | `UIColor(hex:)`: trimming, uppercasing, `#` removal, the hexadecimal scanner, byte extraction |

Modelling conventions:
- Amounts are `real`. Dates are `int` days (`Day`), and launch instants are `int`.
- JSON blobs in the store are typed values that decode to what was encoded, or are undecodable.
- What the app asks of the system becomes an input of the operation that asks:
  - the parsed number or date;
  - the fresh UUID and the current day;
  - the push token at each timer tick;
  - whether attribution data has arrived at each tick;
  - the redirect endpoint's reply.
- Work dispatched to the main queue runs at once, in program order.

## Model

| member | source | states |
|---|---|---|
| Models.NewArtifact | PantheonGoals/Models/PantheonGoalsModels.swift:14-27 | a new artifact keeps its id, name, target, image and deadline, has amount 0, no contributions, is not completed, and its amount equals its contributions' sum |
| Models.NewContribution | PantheonGoals/Models/PantheonGoalsModels.swift:42-49 | a contribution carries its id, amount, comment and the current day |
| Models.Progress | PantheonGoals/Models/PantheonGoalsModels.swift:29-32 | progress is 0 for a non-positive target, never above 1, current/target below the target, and exactly 1 iff the target is reached |
| Models.ProgressMatchesCompletion | PantheonGoals/Models/PantheonGoalsModels.swift:29-32 | with a positive target and completion kept in step, progress is 1 iff the artifact is completed |
| Models.AllAchievements | PantheonGoals/Models/PantheonGoalsModels.swift:60-86 | the catalog holds five achievements with ids first_step, collector, completed_artifact, on_time, strength_of_athena, all distinct and all locked |
| Store.BoolOf | PantheonGoals/Services/PantheonGoalsStorageManager.swift:22-29 | a missing key reads false; a stored boolean reads as itself |
| Store.NonEmptyString | AdkLib/Sources/AdkLib/AppParameters.swift:63-64 | a saved string is used only when present and non-empty |
| Ledger.FirstIndex | PantheonGoals/Controllers/PantheonGoalsArtifactDetailsVC.swift:363 | the index found is the first position holding the id; none is found only when no position holds it |
| Ledger.FirstMatchUnique | PantheonGoals/Controllers/PantheonGoalsArtifactDetailsVC.swift:363 | the first match of an id is unique |
| Ledger.AcceptedAmount | PantheonGoals/Controllers/PantheonGoalsArtifactDetailsVC.swift:305-314 | the "Add" alert accepts an amount iff it parses and is positive |
| Ledger.WithContribution | PantheonGoals/Controllers/PantheonGoalsArtifactDetailsVC.swift:325-329 | adding appends the contribution, raises the amount by it, sets completion to amount >= target, and keeps amount = sum of contributions |
| Ledger.SumWithout | PantheonGoals/Controllers/PantheonGoalsArtifactDetailsVC.swift:340-342 | dropping contribution i lowers the sum by exactly its amount |
| Ledger.WithoutContribution | PantheonGoals/Controllers/PantheonGoalsArtifactDetailsVC.swift:339-343 | deleting removes contribution i, lowers the amount by it, re-evaluates completion, and keeps amount = sum of contributions |
| Ledger.AddThenDeleteLastRestores | PantheonGoals/Controllers/PantheonGoalsArtifactDetailsVC.swift:325-343 | deleting the contribution just added restores the artifact exactly |
| Ledger.ReplaceFirst | PantheonGoals/Controllers/PantheonGoalsArtifactDetailsVC.swift:361-368 | saving replaces the first stored artifact with the same id and nothing else; with no such id nothing is saved |
| Ledger.RemoveAll | PantheonGoals/Controllers/PantheonGoalsArtifactDetailsVC.swift:355 | after removal no entry has the id, and every survivor was in the list |
| Ledger.RemoveAllAppend | PantheonGoals/Controllers/PantheonGoalsArtifactDetailsVC.swift:355 | removal works piecewise over concatenation, so survivors keep their order |
| Ledger.RemoveAllKeepsOthers | PantheonGoals/Controllers/PantheonGoalsArtifactDetailsVC.swift:355 | a list without the id is left unchanged |
| Ledger.RemoveAllCount | PantheonGoals/Controllers/PantheonGoalsArtifactDetailsVC.swift:355 | exactly the entries carrying the id are dropped |
| Ledger.UnlockFirst | PantheonGoals/Controllers/PantheonGoalsArtifactDetailsVC.swift:374-376 | only the first entry with the id becomes unlocked; every other entry is unchanged |
| Ledger.UnlockInPlace | PantheonGoals/Controllers/PantheonGoalsArtifactDetailsVC.swift:374-376 | the imperative lookup-then-update step (firstIndex, then setting isUnlocked at that index of the list value) gives exactly UnlockFirst, keeping length and ids |
| Ledger.CheckedAchievements | PantheonGoals/Controllers/PantheonGoalsArtifactDetailsVC.swift:370-395 | the check keeps ids and order, never relocks, changes only isUnlocked, and only on completed_artifact, on_time or strength_of_athena |
| Ledger.CheckUnlocksCompleted | PantheonGoals/Controllers/PantheonGoalsArtifactDetailsVC.swift:373-376 | completed_artifact is always unlocked by the check |
| Ledger.CheckOnTime | PantheonGoals/Controllers/PantheonGoalsArtifactDetailsVC.swift:378-384 | on_time ends unlocked iff it was, or the deadline is today |
| Ledger.CheckStrength | PantheonGoals/Controllers/PantheonGoalsArtifactDetailsVC.swift:386-392 | strength_of_athena ends unlocked iff it was, or every other entry is unlocked after the first two rules |
| Ledger.CheckStrengthOnCatalog | PantheonGoals/Controllers/PantheonGoalsArtifactDetailsVC.swift:386-392 | on the catalog layout, strength_of_athena unlocks iff first_step and collector are unlocked and on_time is unlocked or due today |
| Ledger.CreationUnlocks | PantheonGoals/Controllers/PantheonGoalsAddArtifactVC.swift:251-267 | the creation unlocks keep ids and order, never relock, and change only isUnlocked |
| Ledger.CreationUnlocksFirstStep | PantheonGoals/Controllers/PantheonGoalsAddArtifactVC.swift:251-258 | first_step ends unlocked iff it was, or the list now holds exactly one artifact |
| Ledger.CreationUnlocksCollector | PantheonGoals/Controllers/PantheonGoalsAddArtifactVC.swift:260-267 | collector ends unlocked iff it was, or the list now holds exactly three artifacts |
| Ledger.CreationUnlocksOthersUnchanged | PantheonGoals/Controllers/PantheonGoalsAddArtifactVC.swift:251-267 | no entry other than the one the count names changes |
| Storage.LockedCatalog | PantheonGoals/Services/PantheonGoalsStorageManager.swift:104-107 | the fallback list is the catalog with every entry locked |
| Storage.LockAll | PantheonGoals/Services/PantheonGoalsStorageManager.swift:105-107 | the loop locks every entry and changes nothing else |
| Storage.StoredArtifacts | PantheonGoals/Services/PantheonGoalsStorageManager.swift:85-91 | the stored list decodes to what was saved; missing or undecodable data gives the empty list |
| Storage.StoredAchievements | PantheonGoals/Services/PantheonGoalsStorageManager.swift:100-111 | the stored list decodes to what was saved; otherwise the locked catalog |
| Storage.SetupDefaults | PantheonGoals/Services/PantheonGoalsStorageManager.swift:114-132 | on first run it writes the six defaults, the locked catalog and the configured flag; once configured it writes nothing |
| Storage.SetupDefaultsIdempotent | PantheonGoals/Services/PantheonGoalsStorageManager.swift:114-132 | setting defaults up twice is the same as once |
| Storage.StorageManager.Setting | PantheonGoals/Services/PantheonGoalsStorageManager.swift:22-57 | a setting reads its stored flag, false when never set |
| Storage.StorageManager.SetSetting | PantheonGoals/Services/PantheonGoalsStorageManager.swift:22-57 | writing a setting stores exactly that flag, which then reads back |
| Storage.StorageManager.UserName | PantheonGoals/Services/PantheonGoalsStorageManager.swift:60-63 | the stored name, or "User" |
| Storage.StorageManager.SetUserName | PantheonGoals/Services/PantheonGoalsStorageManager.swift:64-66 | the name written reads back |
| Storage.StorageManager.UserAvatar | PantheonGoals/Services/PantheonGoalsStorageManager.swift:69-72 | the stored avatar, or "avatarOne" |
| Storage.StorageManager.SetUserAvatar | PantheonGoals/Services/PantheonGoalsStorageManager.swift:73-75 | the avatar written reads back |
| Storage.StorageManager.SaveArtifacts | PantheonGoals/Services/PantheonGoalsStorageManager.swift:79-83 | only the artifacts key changes, and loading then gives the saved list |
| Storage.StorageManager.LoadArtifacts | PantheonGoals/Services/PantheonGoalsStorageManager.swift:85-91 | the saved list, or the empty list when missing or undecodable |
| Storage.StorageManager.SaveAchievements | PantheonGoals/Services/PantheonGoalsStorageManager.swift:94-98 | only the achievements key changes, and loading then gives the saved list |
| Storage.StorageManager.LoadAchievements | PantheonGoals/Services/PantheonGoalsStorageManager.swift:100-111 | the saved list, or the five catalog entries, all locked |
| Storage.StorageManager.SetupDefaultValues | PantheonGoals/Services/PantheonGoalsStorageManager.swift:114-132 | the store becomes SetupDefaults of what it was |
| Storage.StorageManager.ResetAchievements | PantheonGoals/Services/PantheonGoalsStorageManager.swift:135-141 | the stored achievements become the locked catalog; nothing else changes |
| ArtifactDetails.ArtifactSaved | PantheonGoals/Controllers/PantheonGoalsArtifactDetailsVC.swift:361-368 | only the artifacts key changes; the store is untouched when the id is not stored, else the first entry with it is replaced |
| ArtifactDetails.ArtifactDeleted | PantheonGoals/Controllers/PantheonGoalsArtifactDetailsVC.swift:353-359 | only the artifacts key changes; no stored artifact keeps the id, and the list shrinks by exactly the entries that had it |
| ArtifactDetails.AchievementsChecked | PantheonGoals/Controllers/PantheonGoalsArtifactDetailsVC.swift:370-395 | loading the achievements back gives CheckedAchievements of the stored ones, so the Ledger.Check* lemmas hold of the store; only the achievements key changes; no achievement is relocked |
| ArtifactDetails.DetailsScreen.AddTapped | PantheonGoals/Controllers/PantheonGoalsArtifactDetailsVC.swift:305-314 | a rejected amount changes nothing; an accepted one adds the contribution |
| ArtifactDetails.DetailsScreen.AddContribution | PantheonGoals/Controllers/PantheonGoalsArtifactDetailsVC.swift:325-337 | the artifact gains the contribution as WithContribution says; the achievement check runs iff it is now completed, then the artifact is saved |
| ArtifactDetails.DetailsScreen.DeleteContribution | PantheonGoals/Controllers/PantheonGoalsArtifactDetailsVC.swift:339-351 | the artifact loses contribution i as WithoutContribution says, then is saved |
| ArtifactDetails.DetailsScreen.DeleteArtifact | PantheonGoals/Controllers/PantheonGoalsArtifactDetailsVC.swift:353-359 | the store becomes ArtifactDeleted of what it was |
| ArtifactDetails.DetailsScreen.SaveArtifact | PantheonGoals/Controllers/PantheonGoalsArtifactDetailsVC.swift:361-368 | the store becomes ArtifactSaved of what it was |
| ArtifactDetails.DetailsScreen.CheckAchievements | PantheonGoals/Controllers/PantheonGoalsArtifactDetailsVC.swift:370-395 | the store becomes AchievementsChecked for the artifact's deadline and today |
| AddArtifact.DeadlineOf | PantheonGoals/Controllers/PantheonGoalsAddArtifactVC.swift:233-240 | "No Deadline", a missing label or an unparsable date gives no deadline; otherwise the parsed date |
| AddArtifact.Created | PantheonGoals/Controllers/PantheonGoalsAddArtifactVC.swift:242-267 | the new artifact is appended; first_step unlocks at count 1, collector at count 3; only the two list keys change |
| AddArtifact.AddArtifactScreen.SelectImage | PantheonGoals/Controllers/PantheonGoalsAddArtifactVC.swift:341-345 | tapping image i selects that image's name |
| AddArtifact.AddArtifactScreen.SaveTapped | PantheonGoals/Controllers/PantheonGoalsAddArtifactVC.swift:222-271 | it saves iff name and amount text are non-empty, the amount is positive and an image is selected; a rejected form leaves the store unchanged |
| AddArtifact.CreatedArtifactConsistent | PantheonGoals/Controllers/PantheonGoalsAddArtifactVC.swift:242-245 | the artifact an accepted form creates has a positive target, zero amount and is not completed |
| Routing.DefaultState | AdkLib/Sources/AdkLib/AppParameters.swift:27-43 | every flag of the default state is false and every path is empty |
| Routing.LoadValues | AdkLib/Sources/AdkLib/AppParameters.swift:62-70 | a saved non-empty URL opens the web view, else force-game opens the game, else nothing changes |
| Routing.TransitionToGame | AdkLib/Sources/AdkLib/AppParameters.swift:417-426 | screen game, checks complete, web view not shown, target URL cleared, status 2; no other key changes |
| Routing.TransitionToWebView | AdkLib/Sources/AdkLib/AppParameters.swift:408-415 | screen web view with that URL, checks complete; nothing else changes |
| Routing.MarkOnce | AdkLib/Sources/AdkLib/AppParameters.swift:313-317 | the flag reads true afterwards; the store is unchanged when it already did, otherwise only that flag is written |
| Routing.ShowGame | AdkLib/Sources/AdkLib/AppParameters.swift:300-327 | the game is shown and persisted: force-game, api-failed, checks complete, status 2, game key set, target URL cleared |
| Routing.OpenWebView | AdkLib/Sources/AdkLib/AppParameters.swift:257-279 | the URL is remembered and opened: link processed, target URL, web view shown, status 1, both paths set |
| Routing.Classify | AdkLib/Sources/AdkLib/AppParameters.swift:219-295 | the web view is chosen iff the reply is 2xx with a decodable body whose URL is longer than 3; every failure gives the game |
| Routing.CheckRedirectURL | AdkLib/Sources/AdkLib/AppParameters.swift:190-298 | once a link is processed it only stops the timer; otherwise it follows Classify; the timer is stopped unless the tracking URL was invalid |
| Routing.TokenTick | AdkLib/Sources/AdkLib/AppParameters.swift:169-188 | a tick counts one attempt; the timer keeps running iff no usable token came and fewer than 10 attempts were made, and then nothing else changes |
| Routing.TokenWait | AdkLib/Sources/AdkLib/AppParameters.swift:164-188 | the token wait always ends with the timer stopped |
| Routing.TokenWaitCount | AdkLib/Sources/AdkLib/AppParameters.swift:169-188 | the timer fires exactly as many times as the tick count of the token inputs says |
| Routing.WaitTicksStopsAtFirstToken | AdkLib/Sources/AdkLib/AppParameters.swift:169-188 | the count stops at the first tick with a usable token, never later than the tenth |
| Routing.TokenWaitStopsAtFirstToken | AdkLib/Sources/AdkLib/AppParameters.swift:169-188 | the wait ends at the first tick reporting a token, or after exactly 10 ticks |
| Routing.TokenWaitReachesRedirect | AdkLib/Sources/AdkLib/AppParameters.swift:169-188 | the token wait ends in the endpoint's verdict |
| Routing.ProcessLink | AdkLib/Sources/AdkLib/AppParameters.swift:140-167 | force-game wins and opens the game, then a saved URL opens the web view |
| Routing.ProcessLinkFollowsReply | AdkLib/Sources/AdkLib/AppParameters.swift:140-167 | with neither, the endpoint decides: a usable URL opens it, anything else opens the game and sets force-game |
| Routing.Launch | AdkLib/Sources/AdkLib/AppDelegate.swift:18-56 | a stored game decision goes straight to the game; force-game mode persists game mode; otherwise only the push keys change |
| Routing.WaitForAppsFlyer | AdkLib/Sources/AdkLib/AppDelegate.swift:208-238 | force-game opens the game; else checks restart, then a saved URL, existing attribution data, or routing from scratch, in that order |
| Routing.AfterNotifications | AdkLib/Sources/AdkLib/AppDelegate.swift:172-181 | force-game opens the game, otherwise the app waits for attribution |
| Routing.TrackingAnswered | AdkLib/Sources/AdkLib/AppDelegate.swift:124-127 | the tracking answer sets exactly the two responded flags |
| Routing.ConversionFailed | AdkLib/Sources/AdkLib/AppDelegate.swift:255-262 | an attribution failure sets the error and fetched flags and nothing else |
| Routing.ShowGameThenLoadValues | AdkLib/Sources/AdkLib/AppParameters.swift:300-327 | after showGame, loadValues can only pick the game |
| Routing.ShowGameIsFinal | AdkLib/Sources/AdkLib/AppDelegate.swift:22-30 | after showGame the next launch skips the checks and shows the game |
| Routing.OpenWebViewThenLoadValues | AdkLib/Sources/AdkLib/AppParameters.swift:62-70 | after a URL is accepted, loadValues reopens that URL |
| Routing.LinkProcessedIsFinal | AdkLib/Sources/AdkLib/AppParameters.swift:191-196 | after a URL is accepted, further redirect checks change nothing but the timer |
| Routing.FcmToken | AdkLib/Sources/AdkLib/AppParameters.swift:340-343 | the live token if non-empty, else the cached one, else empty |
| Routing.QueryItems | AdkLib/Sources/AdkLib/AppParameters.swift:358-376 | eleven fixed items in order, the same device id twice, "en" when no language; afattr wins over afattr_bs64 |
| Parameters.PollForData | AdkLib/Sources/AdkLib/AppParameters.swift:106-138 | no polling when data is there; otherwise polling stops at the first attempt that sees data, or after 10 attempts |
| Parameters.AppParameters.constructor | AdkLib/Sources/AdkLib/AppParameters.swift:58-60 | the shared instance is the default state after loadValues |
| Parameters.AppParameters.LoadValues | AdkLib/Sources/AdkLib/AppParameters.swift:62-70 | the snapshot moves as Routing.LoadValues |
| Parameters.AppParameters.SaveConversionData | AdkLib/Sources/AdkLib/AppParameters.swift:80-88 | a serialised payload is kept in state and in the store; a failed one changes nothing |
| Parameters.AppParameters.TransitionToWebView | AdkLib/Sources/AdkLib/AppParameters.swift:408-415 | the snapshot moves as Routing.TransitionToWebView |
| Parameters.AppParameters.TransitionToGame | AdkLib/Sources/AdkLib/AppParameters.swift:417-426 | the snapshot moves as Routing.TransitionToGame |
| Parameters.AppParameters.ShowGame | AdkLib/Sources/AdkLib/AppParameters.swift:300-327 | the snapshot moves as Routing.ShowGame |
| Parameters.AppParameters.OpenWebView | AdkLib/Sources/AdkLib/AppParameters.swift:257-279 | the snapshot moves as Routing.OpenWebView |
| Parameters.AppParameters.CheckRedirectURL | AdkLib/Sources/AdkLib/AppParameters.swift:190-298 | the source's guards, in order, move the snapshot as Routing.CheckRedirectURL |
| Parameters.AppParameters.CheckTokenStatus | AdkLib/Sources/AdkLib/AppParameters.swift:169-188 | the snapshot moves as Routing.TokenTick |
| Parameters.AppParameters.RunTokenTimer | AdkLib/Sources/AdkLib/AppParameters.swift:164-188 | firing the timer until it stops moves the snapshot as Routing.TokenWait |
| Parameters.AppParameters.ProcessLink | AdkLib/Sources/AdkLib/AppParameters.swift:140-167 | the snapshot moves as Routing.ProcessLink |
| Parameters.AppParameters.CreateInitialLink | AdkLib/Sources/AdkLib/AppParameters.swift:101-138 | it polls 0 times when data is there, else 1 to 10 times, and whatever the polling saw the snapshot then moves as Routing.ProcessLink |
| Delegate.AppDelegate.constructor | AdkLib/Sources/AdkLib/AppDelegate.swift:12 | the cached status is the stored app status |
| Delegate.AppDelegate.DidFinishLaunching | AdkLib/Sources/AdkLib/AppDelegate.swift:18-56 | the checks are skipped iff force-game or api-failed is stored; the cached status becomes 2 when skipped or in force-game mode |
| Delegate.AppDelegate.SetupPush | AdkLib/Sources/AdkLib/AppDelegate.swift:70-85 | the push identifier is stored and the asked flag is created false if not already true |
| Delegate.AppDelegate.DelayedPushPromptAnswered | AdkLib/Sources/AdkLib/AppDelegate.swift:87-95 | after the delayed prompt the asked flag is true and nothing else changes |
| Delegate.AppDelegate.TrackingAnswered | AdkLib/Sources/AdkLib/AppDelegate.swift:109-154 | the tracking answer is recorded; the notification prompt shows iff it was never answered, else routing continues |
| Delegate.AppDelegate.TryingAskNotifications | AdkLib/Sources/AdkLib/AppDelegate.swift:168-206 | the prompt shows iff it was never answered, otherwise routing continues at once |
| Delegate.AppDelegate.NotificationsAnswered | AdkLib/Sources/AdkLib/AppDelegate.swift:187-203 | the answer marks the prompt asked, then routing continues |
| Delegate.AppDelegate.ContinueAfterNotifications | AdkLib/Sources/AdkLib/AppDelegate.swift:172-181 | the snapshot moves as Routing.AfterNotifications |
| Delegate.AppDelegate.WaitForAppsFlyer | AdkLib/Sources/AdkLib/AppDelegate.swift:208-238 | the snapshot moves as Routing.WaitForAppsFlyer |
| Delegate.AppDelegate.OnConversionDataSuccess | AdkLib/Sources/AdkLib/AppDelegate.swift:241-253 | a payload that is not a string-keyed dictionary is ignored; otherwise it is saved, marked received, and processLink runs |
| Delegate.AppDelegate.OnConversionDataFail | AdkLib/Sources/AdkLib/AppDelegate.swift:255-262 | the snapshot moves as Routing.ConversionFailed |
| Remote.Body | AdkLib/Sources/AdkLib/RemoteScreen.swift:46-72 | the loading animation exactly while checks are incomplete; then the browser iff the screen is web view with a URL; the host content otherwise |
| Remote.ShowGameShowsContent | AdkLib/Sources/AdkLib/RemoteScreen.swift:68-69 | after showGame the host app's content is shown |
| Remote.OpenWebViewShowsBrowser | AdkLib/Sources/AdkLib/RemoteScreen.swift:50-56 | after a URL is accepted the browser shows exactly that URL |
| Remote.ForcedProcessLinkShowsContent | AdkLib/Sources/AdkLib/AppParameters.swift:141-146 | processLink under force-game never shows the browser |
| Remote.ForcedLaunchShowsContent | AdkLib/Sources/AdkLib/AppDelegate.swift:38-49 | a launch in force-game mode ends in the host content whichever way the notification step goes |
| Onboarding.ButtonTitle | PantheonGoals/Controllers/PantheonGoalsOnboardingVC.swift:119-122 | "Get Started" iff on the last page, else "Next" |
| Onboarding.NextStep | PantheonGoals/Controllers/PantheonGoalsOnboardingVC.swift:130-141 | "Next" advances one page below the last page, and dismisses on the last page without moving |
| Onboarding.TapsWalkPages | PantheonGoals/Controllers/PantheonGoalsOnboardingVC.swift:130-141 | from page p, n taps reach page p + n, and the last page shows "Get Started" |
| Onboarding.TruncatedPage | PantheonGoals/Controllers/PantheonGoalsOnboardingVC.swift:163-166 | for a non-negative offset the page is the number of whole page widths in it |
| Onboarding.OnboardingPager.constructor | PantheonGoals/Controllers/PantheonGoalsOnboardingVC.swift:7-18 | three pages, starting at page 0 with title "Next" |
| Onboarding.OnboardingPager.NextTapped | PantheonGoals/Controllers/PantheonGoalsOnboardingVC.swift:130-141 | the counter moves as NextStep and stays within the pages |
| Onboarding.OnboardingPager.ScrollEnded | PantheonGoals/Controllers/PantheonGoalsOnboardingVC.swift:163-166 | the counter becomes the truncated offset/width and, with paging keeping the resting offset inside the pager (line 42), stays on a page, so "Next" may follow a swipe |
| Onboarding.ScrollInsideKeepsPageInRange | PantheonGoals/Controllers/PantheonGoalsOnboardingVC.swift:163-166 | an offset inside the pager gives a page inside the range |
| HexColor.TrimLeading | PantheonGoals/Extensions/PantheonGoalsUIExtensions.swift:27 | drops exactly the leading whitespace |
| HexColor.TrimTrailing | PantheonGoals/Extensions/PantheonGoalsUIExtensions.swift:27 | drops exactly the trailing whitespace |
| HexColor.UpperCased | PantheonGoals/Extensions/PantheonGoalsUIExtensions.swift:27 | same length, each letter uppercased |
| HexColor.StripHash | PantheonGoals/Extensions/PantheonGoalsUIExtensions.swift:28-30 | exactly one leading '#' is removed when present |
| HexColor.HexPrefix | PantheonGoals/Extensions/PantheonGoalsUIExtensions.swift:33 | the longest prefix of hex digits |
| HexColor.Saturate | PantheonGoals/Extensions/PantheonGoalsUIExtensions.swift:32-33 | values beyond 2^64-1 become 2^64-1 |
| HexColor.ScanHex | PantheonGoals/Extensions/PantheonGoalsUIExtensions.swift:33 | nothing scans iff no hex digit follows the skipped whitespace and prefix; a result fits in 64 bits |
| HexColor.Scanned | PantheonGoals/Extensions/PantheonGoalsUIExtensions.swift:32-33 | the value stays 0 when nothing scans |
| HexColor.ScanHexInt64 | PantheonGoals/Extensions/PantheonGoalsUIExtensions.swift:33 | the scanner loop finds a value iff ScanHex does, and produces Scanned |
| HexColor.ChannelsSplitLowBits | PantheonGoals/Extensions/PantheonGoalsUIExtensions.swift:35-37 | each channel is one byte, and the three together are the low 24 bits |
| HexColor.ColorOfValue | PantheonGoals/Extensions/PantheonGoalsUIExtensions.swift:35-39 | components in [0, 1], channel/255 each, alpha 1 |
| HexColor.ColorOf | PantheonGoals/Extensions/PantheonGoalsUIExtensions.swift:26-40 | alpha is 1, and black when nothing scans |
| HexColor.InitColor | PantheonGoals/Extensions/PantheonGoalsUIExtensions.swift:26-40 | the initialiser's steps give ColorOf |
| HexColor.HexRoundTrip | PantheonGoals/Extensions/PantheonGoalsUIExtensions.swift:26-40 | "#RRGGBB" parses back to exactly those three bytes over 255, opaque |

## Left out

- User interface: layout, navigation, alerts, table and collection views, haptics and sound, profile and settings screens, the main list screen and the launch screen.
- The JSON encoder and decoder are not modelled byte by byte. A stored list decodes to what was saved, and other data is undecodable. Failed encoding of non-finite amounts is not modelled: saving always succeeds.
- Floating point: amounts and colour components are reals.
- Calendar and `DateFormatter`: "same day as the deadline" is equality of `Day`s, and parsing a deadline label is an input.
- `UserDefaults` type coercion is covered for booleans and integers stored as each other. It is not covered for strings such as "YES" read as booleans.
- The SDK calls are events and inputs, not code, and they are not part of this model:
  - push and attribution start and login;
  - the permission dialogs;
  - `logEvent("GameView")`;
  - the `getExternalIP` request and the semaphore timeouts around URL building.
- Routing.QueryItems: the `firsttime` value, IP address, model and OS version are inputs. Percent-encoding and base64 are not modelled. Neither is the assembled URL string.
- Concurrency: every main-queue dispatch and `updateState` runs at once, in program order. Interleavings are not modelled:
  - an attribution callback arriving during the data-wait poll can run `processLink` twice;
  - a second token timer replacing a running one.
- Parameters.AppParameters.ProcessLink: the token timer is a flag. A timer still scheduled from an earlier `processLink` is not tracked separately.
- Remote.Body: the web view's navigation bar, orientation changes and browser behaviour are not modelled.
- `currentCompletion` in `AppParameters` is never assigned in the source. Its calls are omitted.
- Routing.Classify: `url.count` counts grapheme clusters. The model counts characters.
- HexColor.UpperCased: only ASCII letters are uppercased, and Unicode case mapping is not modelled. Whitespace is the fixed set of Unicode space and newline code points.
- HexColor.ColorOfValue: the masks and shifts are written as division and remainder by powers of two, which agree on unsigned values.
- Onboarding.OnboardingPager.ScrollEnded: a zero page width (a division by zero in the source) is excluded, and so is an integer conversion that overflows.
- Onboarding.OnboardingPager.ScrollEnded: the resting offset is assumed to lie inside the pager (0 <= offset < pages x width), which paging (PantheonGoals/Controllers/PantheonGoalsOnboardingVC.swift:42) guarantees; the scroll physics that ensure it are not modelled.
