# Startup consent screen — a Dafny model

The startup module shows a consent screen before the React Native app starts.
This project models its three core pieces:

* **Android `StartupActivity`.** It reads the persisted `userAgree` flag from the `"text"` SharedPreferences file.
  - When the flag is exactly `"true"` or `"false"`, it hands off to the configured React Native activity. It copies the launch intent's categories, action and data into the new intent.
  - Otherwise it builds a WebView. The WebView carries the `NativeBridge` JavaScript interface and loads the configured URL, the inline HTML or a fixed fallback document, in that order of precedence.
  - The bridge offers `initReactNative` plus a small key/value store. `initReactNative` invokes the application's hook by reflection and then hands off.
* **iOS `StartupViewController`.** It registers four script message handlers and injects a JavaScript shim into the bundled page, just before every `</head>`. The result is that calls on `window.NativeBridge` arrive as script messages. A dispatcher decides what each message does.
* **iOS `AppDelegate` template.** At launch it reads the same flag from `UserDefaults.standard`.
  - For `"true"` or `"false"` it runs the matching SDK set-up and starts React Native, with the module `"main"` or `"limited"`.
  - For anything else it shows the startup screen.
  - It then returns the superclass's answer.

## Files

| file | contents |
|---|---|
| `wrappers.dfy` | `Option` |
| `java_text.dfy` | `String.trim` and the blank test used by the Java code |
| `swift_text.dfy` | `contains` and `replacingOccurrences(of:with:)`, with `Split`/`Join` as their reference view, and the lemmas that undo a replacement |
| `android_startup.dfy` | The preference store, the startup decision, content selection, the WebView as a call log with its back history, intents and the hand-off, the reflective `initReactNative`, and the `StartupActivity` class |
| `ios_defaults.dfy` | `UserDefaults`, a class over a string map |
| `ios_app_delegate.dfy` | The launch branches as an event log, and the `AppDelegate` class |
| `ios_startup.dfy` | Script injection, message routing, the shim and the bundled page's buttons, and the `StartupViewController` class |
| `startup_agreement.dfy` | The two platforms agree on when the consent screen is skipped |

**Modelling choices**

* Platform objects are plain state:
  - The SharedPreferences file and the standard defaults are string maps.
  - A WebView is the sequence of calls made on it.
  - An Intent is a record.
* What the app delegate does is an event log, so properties like "exactly one branch runs" and "the superclass is called last" become statements about a sequence.
* Reflection is an input:
  - Which class names `Class.forName` resolves is a set.
  - Which of those `startActivity` accepts is a second set: the activities the application declares. Any other class makes it throw `ActivityNotFoundException`.
  - How the application's `initReactNative` hook behaves is a datatype: missing, throws, or returns.
* Exceptions are an `Option<Error>` result.
* `URL(string:)` followed by `absoluteString` is a function parameter, `parseUrl`.
* The bundled HTML and the shim text are the constructor parameters `bundledPage` and `bridgeShim`. The page's three buttons are modelled by the bridge calls their handlers make (`ButtonCalls`).

## Model

Source paths are relative to the repository root.

| member | source | states |
|---|---|---|
| JavaText.Trim | modules/startup/android/src/main/java/com/rainbow/startup/StartupActivity.java:179 | `trim` gives the empty string exactly when every character is at most `' '`; otherwise its result starts and ends with a character above `' '` |
| JavaText.IsBlankIsTrimEmpty | modules/startup/android/src/main/java/com/rainbow/startup/StartupActivity.java:179 | the test `s != null && !s.trim().isEmpty()` fails exactly when `s` is null or every character is at most `' '` |
| AndroidStartup.PutThenLookup | modules/startup/android/src/main/java/com/rainbow/startup/StartupActivity.java:247-253 | after `localStorageSet(k, v)`, `localStorageGet(k)` returns `v`; every other key reads as before |
| AndroidStartup.RemoveThenLookup | modules/startup/android/src/main/java/com/rainbow/startup/StartupActivity.java:251-257 | after `localStorageRemove(k)`, `k` reads as `""`; every other key reads as before |
| AndroidStartup.ClearThenLookup | modules/startup/android/src/main/java/com/rainbow/startup/StartupActivity.java:251-261 | after `localStorageClear`, every key reads as `""` |
| AndroidStartup.DecisionIsExactMatch | modules/startup/android/src/main/java/com/rainbow/startup/StartupActivity.java:124-132 | `init` hands off if and only if the stored flag is exactly `"true"` or `"false"`; a missing flag reads as `""` and shows the WebView |
| AndroidStartup.SelectContent | modules/startup/android/src/main/java/com/rainbow/startup/StartupActivity.java:176-191 | a non-blank URL is loaded as such; otherwise an inline `text/html` / `UTF-8` document: the content when non-blank, else the fixed fallback document |
| AndroidStartup.SelectedContentNotBlank | modules/startup/android/src/main/java/com/rainbow/startup/StartupActivity.java:179-191 | whatever the inputs, the WebView is never asked to load a blank URL or a blank document |
| AndroidStartup.HistoryStep | modules/startup/android/src/main/java/com/rainbow/startup/StartupActivity.java:105-106 | a load pushes its page onto the back list, a back step drops the current page when there is an earlier one, and other calls leave the list alone |
| AndroidStartup.ContentCallsShape | modules/startup/android/src/main/java/com/rainbow/startup/StartupActivity.java:149-191 | the calls `setWebViewContent` makes add `NativeBridge` before the only load, and leave exactly the chosen content in the history |
| AndroidStartup.ContentWebViewShape | modules/startup/android/src/main/java/com/rainbow/startup/StartupActivity.java:148-193 | the freshly built view has the bridge installed before every load, holds exactly the selected page, and cannot go back |
| AndroidStartup.BuildContentView | modules/startup/android/src/main/java/com/rainbow/startup/StartupActivity.java:149-191 | the view built step by step is the specified one: bridge before loads, and the selected content as its only history entry |
| AndroidStartup.InterfaceBeforeLoadsAppend | modules/startup/android/src/main/java/com/rainbow/startup/StartupActivity.java:152-173 | once the bridge is on the view, any further call (a link load, a back step) keeps every load after the bridge |
| AndroidStartup.LoadPushesHistory | modules/startup/android/src/main/java/com/rainbow/startup/StartupActivity.java:152-172 | a link followed in the view is pushed on the history, so back navigation becomes possible |
| AndroidStartup.GoBackPopsHistory | modules/startup/android/src/main/java/com/rainbow/startup/StartupActivity.java:105-106 | going back when `canGoBack()` holds drops exactly the current page |
| AndroidStartup.PlanHandoffCases | modules/startup/android/src/main/java/com/rainbow/startup/StartupActivity.java:200-216 | a null or all-whitespace class name plans nothing. A non-blank name is handed to `Class.forName` untrimmed. It fails there exactly when it is not loadable, fails in `startActivity` exactly when it is loadable but not a declared activity, and is started otherwise. Exactly the two failures raise an exception |
| AndroidStartup.HandoffIntent | modules/startup/android/src/main/java/com/rainbow/startup/StartupActivity.java:203-211 | the hand-off intent targets the configured class and has the launch intent's categories, action and data |
| AndroidStartup.CopyLaunchIntent | modules/startup/android/src/main/java/com/rainbow/startup/StartupActivity.java:203-211 | the loop over the launch categories, then the action and data copies, build exactly `HandoffIntent` |
| AndroidStartup.ReactNativeInitOutcomes | modules/startup/android/src/main/java/com/rainbow/startup/StartupActivity.java:230-245 | the bridge hands off if and only if the hook returns and the class resolves to a declared activity. The success toast appears exactly when the hook returns. A missing application, or a missing or throwing hook, gives one failure toast only. An unresolvable or unstartable class is caught and reported after the success toast |
| AndroidStartup.HookReturnsReport | modules/startup/android/src/main/java/com/rainbow/startup/StartupActivity.java:235-243 | once the hook returns, the outcome is the success toast, followed by whatever `startMainActivity` started or threw (which the catch clause reports) |
| AndroidStartup.StartupActivity.Init | modules/startup/android/src/main/java/com/rainbow/startup/StartupActivity.java:123-133 | exactly one of two paths. Showing content: the specified WebView is built and shown, and nothing is started. Hand-off: no WebView is built, and the outcome is `startMainActivity`'s. A blank class name does nothing, and the screen stays empty. An unresolvable or unstartable one raises an escaping exception. Otherwise one intent is started and the screen finishes |
| AndroidStartup.StartupActivity.SetWebViewContent | modules/startup/android/src/main/java/com/rainbow/startup/StartupActivity.java:148-194 | the current view becomes the specified content view and is set as the content view |
| AndroidStartup.StartupActivity.StartMainActivity | modules/startup/android/src/main/java/com/rainbow/startup/StartupActivity.java:196-218 | the thrown error (`ClassNotFound` or `ActivityNotFound`) and the intents appended to those started are exactly those of the hand-off plan. A successful hand-off finishes the screen, and an earlier finish stays. It may run again after a hand-off, and the class invariant is kept |
| AndroidStartup.StartupActivity.InitReactNative | modules/startup/android/src/main/java/com/rainbow/startup/StartupActivity.java:230-245 | the toasts shown and the intent appended to `started` are exactly those of `ReactNativeInit`, and the screen finishes on a hand-off. Nothing escapes, because every error is caught. The page may call it again after an earlier hand-off while the view still exists, and then starts a second intent |
| AndroidStartup.StartupActivity.OnBackPressed | modules/startup/android/src/main/java/com/rainbow/startup/StartupActivity.java:104-111 | the WebView goes back when it has an earlier page; otherwise the platform's default runs once and the view is unchanged |
| AndroidStartup.StartupActivity.OnLinkNavigation | modules/startup/android/src/main/java/com/rainbow/startup/StartupActivity.java:154-158 | a followed link is loaded in the same view, and the bridge stays installed before every load |
| AndroidStartup.StartupActivity.OpenWeb | modules/startup/android/src/main/java/com/rainbow/startup/StartupActivity.java:225-228 | `openWeb` changes nothing (its body is commented out) |
| AndroidStartup.StartupActivity.LocalStorageSet | modules/startup/android/src/main/java/com/rainbow/startup/StartupActivity.java:247-249 | the store gains the key and value; a null value removes the key |
| AndroidStartup.StartupActivity.LocalStorageGet | modules/startup/android/src/main/java/com/rainbow/startup/StartupActivity.java:251-253 | returns the stored value, or `""` for a missing key |
| AndroidStartup.StartupActivity.LocalStorageRemove | modules/startup/android/src/main/java/com/rainbow/startup/StartupActivity.java:255-257 | the store loses exactly that key |
| AndroidStartup.StartupActivity.LocalStorageClear | modules/startup/android/src/main/java/com/rainbow/startup/StartupActivity.java:259-261 | the store becomes empty |
| SwiftText.JoinSplit | modules/startup/ios/StartupViewController.swift:145-147 | cutting a text at every occurrence of a separator and gluing it back with that separator gives the text back |
| SwiftText.ReplacingIsJoin | modules/startup/ios/StartupViewController.swift:147 | `replacingOccurrences` keeps the text between occurrences and changes only the occurrences themselves |
| SwiftText.ReplacingLength | modules/startup/ios/StartupViewController.swift:147 | each replaced occurrence changes the length by the difference between the replacement's length and the target's |
| SwiftText.ContainsIffOccurs | modules/startup/ios/StartupViewController.swift:145 | `contains` holds exactly when the left-to-right scan finds an occurrence |
| SwiftText.SplitHeadIsPrefix | modules/startup/ios/StartupViewController.swift:147 | the text before the first occurrence is a prefix of the text |
| SwiftText.SplitPiecesAvoidSeparator | modules/startup/ios/StartupViewController.swift:147 | the scan finds every occurrence: no piece between them contains the separator |
| SwiftText.ContainsOfSuffix | modules/startup/ios/StartupViewController.swift:145 | a text without `b` has no occurrence of any string that ends in `b` |
| SwiftText.ReplacingSkipsPrefix | modules/startup/ios/StartupViewController.swift:147 | a prefix in which no occurrence starts is copied unchanged |
| SwiftText.ReplacingAtMatch | modules/startup/ios/StartupViewController.swift:147 | an occurrence at the front is replaced, and the scan resumes after it |
| SwiftText.MatchWindow | modules/startup/ios/StartupViewController.swift:147 | whether an occurrence starts at a position depends only on the target-length window there |
| SwiftText.ReplacingJoin | modules/startup/ios/StartupViewController.swift:147 | when the only occurrences in a joined text are the joints, replacing the target changes exactly the joints |
| IosStartup.InjectBeforeEveryHeadClose | modules/startup/ios/StartupViewController.swift:141-147 | with a `</head>`, the page is its `</head>`-free pieces joined by `</head>`, and the result joins the same pieces with the script tag followed by `</head>` |
| IosStartup.HeadCloseOnlyAfterTag | modules/startup/ios/StartupViewController.swift:143 | no `</head>` starts inside a script tag whose script lacks one |
| IosStartup.WindowOfMatch | modules/startup/ios/StartupViewController.swift:147 | where `a + b` occurs at `k`, `b` occurs at `k + \|a\|` |
| IosStartup.HeadTagsClear | modules/startup/ios/StartupViewController.swift:143-147 | a piece without `</head>`, followed by an inserted tag, holds no earlier occurrence of a tag and `</head>` |
| IosStartup.RemovingScriptRestoresPage | modules/startup/ios/StartupViewController.swift:141-147 | replacing each inserted tag-and-`</head>` by `</head>` gives back the original page: the injection adds the script and nothing else |
| IosStartup.InjectWithoutHead | modules/startup/ios/StartupViewController.swift:148-151 | without a `</head>`, the result is the script tag, a newline, then the whole page |
| IosStartup.InjectLength | modules/startup/ios/StartupViewController.swift:141-151 | each `</head>` gains exactly one script tag; without one, the result is one tag and a newline longer |
| IosStartup.RouteCases | modules/startup/ios/StartupViewController.swift:156-182 | only the four registered names do anything. `localStorageSet` stores exactly when the body is a dictionary with string `key` and `value`, and stores that pair. `openWeb` acts exactly for a string that parses as a URL. `exitApp` and `initReactNative` always act |
| IosStartup.ShimMatchesHandlers | modules/startup/ios/StartupViewController.swift:51-54 | the shim's four functions and the four registered handlers match one to one, so every call is delivered; `localStorageSet` with two strings stores them as given (the shim is at lines 114-133) |
| IosStartup.InitButtonStoresConsentFirst | modules/startup/ios/StartupViewController.swift:105-108 | the "init RN" button first stores `userAgree = "true"` and only then asks for React Native |
| IosStartup.StartupViewController.ViewDidLoad | modules/startup/ios/StartupViewController.swift:51-136 | the four handlers are registered, and the page is loaded with the shim injected |
| IosStartup.StartupViewController.UserContentControllerDidReceive | modules/startup/ios/StartupViewController.swift:156-182 | does exactly what `Route` decides: it presents the exit alert or the web page, stores the pair, or starts React Native on the app delegate. Starting React Native appends its event and leaves the delegate's new delegate, bound factory and window. It keeps the saved launch options and the navigation controller. A malformed or unknown message changes nothing, and the app delegate is untouched by everything except `initReactNative` |
| IosStartup.StartupViewController.ExitApp | modules/startup/ios/StartupViewController.swift:187-195 | presents the exit confirmation |
| IosStartup.StartupViewController.OpenWeb | modules/startup/ios/StartupViewController.swift:197-203 | presents the parsed URL's page full screen |
| IosStartup.StartupViewController.InitReactNative | modules/startup/ios/StartupViewController.swift:205-209 | when the delegate is an `AppDelegate`, React Native starts with no launch options, under the module the current flag selects. The delegate's factory state is the one `initReactNativeFactory` leaves, and its saved launch options and navigation controller stay |
| IosStartup.StartupViewController.LocalStorageSet | modules/startup/ios/StartupViewController.swift:211-215 | the standard store gains the key and value |
| IosStartup.StartupViewController.PressInitReactNativeButton | modules/startup/ios/StartupViewController.swift:105-108 | pressing "init RN" stores consent, then starts the `"main"` module whatever the flag was before, and presents nothing. On the delegate, the factory state is the one `initReactNativeFactory` leaves, and the saved launch options and navigation controller stay |
| IosDefaults.UserDefaults.Set | modules/startup/ios/StartupViewController.swift:213 | `set(_:forKey:)` with a string: that key now reads as the value |
| IosAppDelegate.ModuleNameCases | plugins/src/startup/ios/templates/AppDelegate.swift:60-61 | `"main"` exactly for the flag `"true"`; `"limited"` otherwise, including `"false"` and a missing flag |
| IosAppDelegate.LaunchEventsShape | plugins/src/startup/ios/templates/AppDelegate.swift:26-36 | exactly one branch runs. `"true"` runs the consenting set-up and `"false"` the non-consenting one, each followed by React Native with the launch options. Anything else shows the startup screen and does not start React Native. The superclass is called once, last |
| IosAppDelegate.AppDelegate.ApplicationDidFinishLaunching | plugins/src/startup/ios/templates/AppDelegate.swift:14-37 | saves the options, appends the events of the branch the stored flag selects, and returns the superclass's answer for the same options. The consent-screen branch builds the startup window and navigation controller and leaves the React Native delegate, factory and binding as they were. The React Native branches leave a new delegate, a bound factory and a new window, and keep the navigation controller |
| IosAppDelegate.AppDelegate.InitStartupViewController | plugins/src/startup/ios/templates/AppDelegate.swift:39-47 | a key, visible window whose root is a bar-less navigation controller over the startup screen |
| IosAppDelegate.AppDelegate.InitReactNativeFactory | plugins/src/startup/ios/templates/AppDelegate.swift:49-68 | a new delegate with its dependency provider, a factory over it that is bound, and a new window; React Native starts there under the module the flag selects at that moment |
| IosAppDelegate.AppDelegate.InitReactNative | plugins/src/startup/ios/templates/AppDelegate.swift:71-75 | the factory is started with the launch options saved at launch, leaving the same delegate, bound factory and window as `initReactNativeFactory` |
| IosAppDelegate.AppDelegate.InitAgreeSdks | plugins/src/startup/ios/templates/AppDelegate.swift:99-101 | the consenting SDK set-up runs (an empty hook, recorded as an event) |
| IosAppDelegate.AppDelegate.InitNotAgreeSdks | plugins/src/startup/ios/templates/AppDelegate.swift:103-105 | the non-consenting SDK set-up runs (an empty hook, recorded as an event) |
| StartupAgreement.SameDecisionOnBothPlatforms | plugins/src/startup/ios/templates/AppDelegate.swift:22-34 | for the same stored flag, Android hands off if and only if iOS skips the startup screen (Android side at `StartupActivity.java` lines 124-131) |

## Left out

- `setupFullscreen`, `getStateBarHeight` and the bridge's `getStateBarHeight` are not modelled. No decision of the startup flow depends on them.
  - `setupFullscreen` sets window flags: a transparent status bar, a full-screen layout, and keeping the screen on.
  - `getStateBarHeight` and the bridge's `getStateBarHeight` compute the status-bar height in pixels.
- `onDestroy` is not modelled. It only clears and destroys the WebView.
- `exitApp` on Android, and the "exit" action of the iOS alert, are not modelled: they end the process. On iOS the model stops at presenting the confirmation.
- Toast and log texts, and the `print` calls of the dispatcher, are not modelled. Toasts and errors are identified by kind. For a throwing hook, `Method.invoke` wraps the exception, so the source's toast does not carry the hook's own message either.
- The two `shouldOverrideUrlLoading` overloads are not modelled one by one. Only their common outcome is, as `OnLinkNavigation`: on every API level the followed link ends up loaded in the same view.
  - On API 24 and later, the request overload loads the link itself.
  - On API 21-23, only the string overload runs. Its version test fails, so it returns `false`, and the WebView then loads the link itself.
  - Below API 21, the string overload loads the link.
- The WebView's forward list, rendering and base URL are not modelled. The history is the back list that loads and back steps build.
- `apply()` writes asynchronously; the model applies the write at once. Null keys are not modelled.
- Class resolution and the application's hook come from reflection; they are inputs to the model.
- The JavaScript bridge's threads are not modelled: calls run one at a time, in order.
- The literal bundled page and shim are not modelled as text. They are the parameters `bundledPage` and `bridgeShim`. Their behaviour is modelled as `ButtonCalls` and `ShimMessage`/`ShimPost`.
- The popup layout, the overlay and the layout constraints are not modelled.
- `URL(string:)` is not modelled. It is the parameter `parseUrl`.
- Swift compares and searches `String`s by grapheme cluster. The model works on characters, which agree for the ASCII tag `</head>` unless a combining mark directly follows it.
- Only the `#if os(iOS) || os(tvOS)` branch of `initReactNativeFactory` is modelled. What the React Native factory then does with the window and the module is not modelled.
- The `ReactNativeDelegate` class's bundle URL lookup and source URL are not modelled.
- The app delegate's Linking and universal-link overrides (AppDelegate.swift lines 80-97) are not modelled. They forward to the superclass and the linking manager, and do not touch the startup flow.
- `initStartupViewController` calls `startViewController.setAppDelegate(self)`, but `StartupViewController.swift` declares no such method. The model instead gives the controller the app delegate that `UIApplication.shared.delegate as? AppDelegate` yields, as the source's own `initReactNative` does.
- `WebViewController.swift` and the JavaScript/TypeScript module wrappers are not part of this model.
- IosStartup.RemovingScriptRestoresPage: requires that the script does not itself contain `</head>`. Such a script would add an occurrence that the reverse replacement also rewrites. The bundled shim contains none.
- IosStartup.StartupViewController.InitReactNative: it passes no launch options, as the source does (`initReactNativeFactory()` with its default `nil`). Only `AppDelegate.initReactNative` forwards the saved launch options.
