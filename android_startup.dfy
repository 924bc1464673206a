/**
 * The Android startup screen (`StartupActivity`): it reads the persisted
 * `userAgree` flag, either hands off to the configured React Native activity
 * or shows a WebView carrying the `NativeBridge` interface, and serves the
 * bridge's key/value and hand-off operations.
 *
 * The platform is plain state: the `"text"` SharedPreferences file is a
 * `map<string, string>`, a WebView is the record of the calls made on it,
 * an Intent is a record, and reflection is an input: the application object
 * says how its `initReactNative` hook behaves, one set of class names says
 * what `Class.forName` resolves, and another which of them `startActivity`
 * accepts (the activities the application declares).
 */
module AndroidStartup {
  import opened Wrappers
  import opened JavaText

  const USER_AGREE_KEY := "userAgree"
  const BRIDGE_NAME := "NativeBridge"
  const FALLBACK_DOCUMENT := "<html><body><h1>" + "No content available" + "</h1></body></html>"
  const HTML_MIME_TYPE := "text/html"
  const HTML_ENCODING := "UTF-8"

  // ---------------------------------------------------------------------
  // The preference store

  /** `getString(key, "")`: the stored value, or the empty string for a missing key. */
  function Lookup(prefs: map<string, string>, key: string): string {
    if key in prefs then prefs[key] else ""
  }

  /** `edit().putString(key, value).apply()`; a null value removes the key, as SharedPreferences documents. */
  function Put(prefs: map<string, string>, key: string, value: Option<string>): map<string, string> {
    match value
    case Some(v) => prefs[key := v]
    case None => prefs - {key}
  }

  /** Reading back a stored key gives the stored value; every other key reads as before. */
  lemma PutThenLookup(prefs: map<string, string>, key: string, value: string, other: string)
    ensures Lookup(Put(prefs, key, Some(value)), key) == value
    ensures other != key ==> Lookup(Put(prefs, key, Some(value)), other) == Lookup(prefs, other)
  {
  }

  /** After a removal the key reads as `""`; every other key reads as before. */
  lemma RemoveThenLookup(prefs: map<string, string>, key: string, other: string)
    ensures Lookup(prefs - {key}, key) == ""
    ensures other != key ==> Lookup(prefs - {key}, other) == Lookup(prefs, other)
  {
  }

  /** After a clear every key reads as `""`. */
  lemma ClearThenLookup(key: string)
    ensures Lookup(map[], key) == ""
  {
  }

  // ---------------------------------------------------------------------
  // The startup decision

  datatype Decision = HandOff | ShowContent

  /** `init`: hand off when the flag is exactly `"true"` or `"false"`, otherwise show the WebView. */
  function Decide(userAgree: string): Decision {
    if "true" == userAgree || "false" == userAgree then HandOff else ShowContent
  }

  /** Hand-off happens for exactly the two recognised values; a missing flag reads as `""` and shows content. */
  lemma DecisionIsExactMatch(prefs: map<string, string>)
    ensures Decide(Lookup(prefs, USER_AGREE_KEY)) == HandOff
        <==> USER_AGREE_KEY in prefs && prefs[USER_AGREE_KEY] in {"true", "false"}
    ensures USER_AGREE_KEY !in prefs ==> Decide(Lookup(prefs, USER_AGREE_KEY)) == ShowContent
  {
  }

  // ---------------------------------------------------------------------
  // Content selection

  /** What a WebView was asked to load: a remote address or an inline document. */
  datatype Content =
    | RemoteUrl(url: string)
    | InlineHtml(html: string, mimeType: string, encoding: string)

  function Payload(c: Content): string {
    match c
    case RemoteUrl(u) => u
    case InlineHtml(h, _, _) => h
  }

  /**
   * `setWebViewContent`'s choice: a non-blank URL wins over non-blank inline
   * HTML, which wins over the fixed fallback document; whatever is chosen is
   * itself non-blank.
   */
  function SelectContent(url: Option<string>, html: Option<string>): (c: Content)
    ensures !IsBlank(url) ==> c == RemoteUrl(url.value)
    ensures IsBlank(url) ==> c.InlineHtml? && c.mimeType == HTML_MIME_TYPE && c.encoding == HTML_ENCODING
    ensures IsBlank(url) && !IsBlank(html) ==> c.html == html.value
    ensures IsBlank(url) && IsBlank(html) ==> c.html == FALLBACK_DOCUMENT
  {
    if !IsBlank(url) then RemoteUrl(url.value)
    else if !IsBlank(html) then InlineHtml(html.value, HTML_MIME_TYPE, HTML_ENCODING)
    else InlineHtml(FALLBACK_DOCUMENT, HTML_MIME_TYPE, HTML_ENCODING)
  }

  /** Whatever the inputs, the WebView is never handed a blank URL or a blank document. */
  lemma SelectedContentNotBlank(url: Option<string>, html: Option<string>)
    ensures !IsBlank(Some(Payload(SelectContent(url, html))))
  {
    if IsBlank(url) && IsBlank(html) {
      assert FALLBACK_DOCUMENT[0] == '<';
    }
  }

  // ---------------------------------------------------------------------
  // The WebView, as the record of the calls made on it

  datatype WebCall =
    | EnableJavaScript
    | SetLinkInterceptor
    | AddJavascriptInterface(name: string)
    | Load(content: Content)
    | GoBack

  datatype WebView = WebView(calls: seq<WebCall>)

  function Perform(w: WebView, call: WebCall): WebView {
    WebView(w.calls + [call])
  }

  /** The back list the calls build: a load pushes a page, going back drops the current one. */
  function History(calls: seq<WebCall>): seq<Content>
    decreases |calls|
  {
    if |calls| == 0 then []
    else
      var before := History(calls[..|calls| - 1]);
      match calls[|calls| - 1]
      case Load(c) => before + [c]
      case GoBack => if |before| > 1 then before[..|before| - 1] else before
      case _ => before
  }

  predicate CanGoBack(w: WebView) {
    |History(w.calls)| > 1
  }

  /** Every load on the view comes after the interface `name` was added to it. */
  predicate InterfaceBeforeLoads(calls: seq<WebCall>, name: string) {
    forall j :: 0 <= j < |calls| && calls[j].Load? ==>
      exists i :: 0 <= i < j && calls[i] == AddJavascriptInterface(name)
  }

  /** One more call changes the history only when it is a load or a back step. */
  lemma HistoryStep(calls: seq<WebCall>, call: WebCall)
    ensures call.Load? ==> History(calls + [call]) == History(calls) + [call.content]
    ensures call.GoBack? ==>
      History(calls + [call]) == if |History(calls)| > 1 then History(calls)[..|History(calls)| - 1] else History(calls)
    ensures !call.Load? && !call.GoBack? ==> History(calls + [call]) == History(calls)
  {
    assert (calls + [call])[..|calls|] == calls;
  }

  /** The view `setWebViewContent` builds for the configured URL and inline HTML. */
  function ContentWebView(url: Option<string>, html: Option<string>): WebView {
    WebView(ContentCalls(SelectContent(url, html)))
  }

  /** The calls `setWebViewContent` makes, for whatever content it chose. */
  function ContentCalls(content: Content): seq<WebCall> {
    [EnableJavaScript, SetLinkInterceptor, AddJavascriptInterface(BRIDGE_NAME), Load(content)]
  }

  lemma ContentCallsShape(content: Content)
    ensures InterfaceBeforeLoads(ContentCalls(content), BRIDGE_NAME)
    ensures AddJavascriptInterface(BRIDGE_NAME) in ContentCalls(content)
    ensures History(ContentCalls(content)) == [content]
  {
    var calls := ContentCalls(content);
    var c1 := [EnableJavaScript];
    var c2 := c1 + [SetLinkInterceptor];
    var c3 := c2 + [AddJavascriptInterface(BRIDGE_NAME)];
    assert calls == c3 + [Load(content)];
    HistoryStep([], EnableJavaScript);
    assert [] + [EnableJavaScript] == c1;
    HistoryStep(c1, SetLinkInterceptor);
    HistoryStep(c2, AddJavascriptInterface(BRIDGE_NAME));
    HistoryStep(c3, Load(content));
    assert calls[2] == AddJavascriptInterface(BRIDGE_NAME);
  }

  /** The freshly built view has the bridge installed before its single load, and no back history. */
  lemma ContentWebViewShape(url: Option<string>, html: Option<string>)
    ensures InterfaceBeforeLoads(ContentWebView(url, html).calls, BRIDGE_NAME)
    ensures AddJavascriptInterface(BRIDGE_NAME) in ContentWebView(url, html).calls
    ensures History(ContentWebView(url, html).calls) == [SelectContent(url, html)]
    ensures !CanGoBack(ContentWebView(url, html))
  {
    ContentCallsShape(SelectContent(url, html));
  }

  /** Once the bridge is on the view, later calls keep every load after it. */
  lemma {:induction false} InterfaceBeforeLoadsAppend(calls: seq<WebCall>, name: string, call: WebCall)
    requires InterfaceBeforeLoads(calls, name)
    requires AddJavascriptInterface(name) in calls
    ensures InterfaceBeforeLoads(calls + [call], name)
    ensures AddJavascriptInterface(name) in calls + [call]
  {
    var i :| 0 <= i < |calls| && calls[i] == AddJavascriptInterface(name);
    var all := calls + [call];
    forall j | 0 <= j < |all| && all[j].Load?
      ensures exists k :: 0 <= k < j && all[k] == AddJavascriptInterface(name)
    {
      if j < |calls| {
        var k :| 0 <= k < j && calls[k] == AddJavascriptInterface(name);
        assert all[k] == calls[k];
      } else {
        assert all[i] == calls[i];
      }
    }
  }

  /** A link followed inside the view pushes its page, so back navigation becomes possible. */
  lemma LoadPushesHistory(w: WebView, c: Content)
    requires |History(w.calls)| > 0
    ensures History(Perform(w, Load(c)).calls) == History(w.calls) + [c]
    ensures CanGoBack(Perform(w, Load(c)))
  {
    HistoryStep(w.calls, Load(c));
  }

  /** Going back when possible drops exactly the current page. */
  lemma GoBackPopsHistory(w: WebView)
    requires CanGoBack(w)
    ensures History(Perform(w, GoBack).calls) == History(w.calls)[..|History(w.calls)| - 1]
  {
    HistoryStep(w.calls, GoBack);
  }

  // ---------------------------------------------------------------------
  // Intents and the hand-off

  datatype Uri = Uri(text: string)

  /** An Intent: its target class, its categories (`null` until one is added), action and data. */
  datatype Intent = Intent(
    component: Option<string>,
    categories: Option<set<string>>,
    action: Option<string>,
    data: Option<Uri>)

  function CategorySet(intent: Intent): set<string> {
    if intent.categories.Some? then intent.categories.value else {}
  }

  function AddCategory(intent: Intent, category: string): Intent {
    intent.(categories := Some(CategorySet(intent) + {category}))
  }

  /**
   * What `startMainActivity` does with the configured class name: nothing,
   * fail in `Class.forName`, fail in `startActivity` because the class is
   * not a declared activity, or start it.
   */
  datatype HandoffPlan = NoTarget | Unresolvable(className: string) | Unstartable(className: string) | Target(className: string)

  function PlanHandoff(reactNativeClass: Option<string>, loadableClasses: set<string>, startableClasses: set<string>): HandoffPlan {
    if IsBlank(reactNativeClass) then NoTarget
    else if reactNativeClass.value !in loadableClasses then Unresolvable(reactNativeClass.value)
    else if reactNativeClass.value !in startableClasses then Unstartable(reactNativeClass.value)
    else Target(reactNativeClass.value)
  }

  /** The exception `startMainActivity` lets escape under a plan. */
  function PlanError(plan: HandoffPlan): Option<Error> {
    match plan
    case Unresolvable(n) => Some(ClassNotFound(n))
    case Unstartable(n) => Some(ActivityNotFound(n))
    case _ => None
  }

  /** The toast the catch clause of `initReactNative` shows for an exception, if any. */
  function CaughtToasts(failure: Option<Error>): seq<Toast> {
    if failure.Some? then [InitFailed(failure.value)] else []
  }

  /** The intents `startMainActivity` starts under a plan, given the launch intent. */
  function PlanStarts(plan: HandoffPlan, launch: Intent): seq<Intent> {
    if plan.Target? then [HandoffIntent(launch, plan.className)] else []
  }

  /**
   * A blank class name plans nothing; a non-blank one is looked up exactly as
   * written, untrimmed, and is started only when it both resolves and is a
   * declared activity.
   */
  lemma PlanHandoffCases(reactNativeClass: Option<string>, loadableClasses: set<string>, startableClasses: set<string>)
    ensures var plan := PlanHandoff(reactNativeClass, loadableClasses, startableClasses);
      && (plan.NoTarget? <==>
            reactNativeClass.None? || forall i :: 0 <= i < |reactNativeClass.value| ==> IsTrimmable(reactNativeClass.value[i]))
      && (plan.Unresolvable? <==> !IsBlank(reactNativeClass) && reactNativeClass.value !in loadableClasses)
      && (plan.Unstartable? <==>
            !IsBlank(reactNativeClass) && reactNativeClass.value in loadableClasses && reactNativeClass.value !in startableClasses)
      && (plan.Target? <==>
            !IsBlank(reactNativeClass) && reactNativeClass.value in loadableClasses && reactNativeClass.value in startableClasses)
      && (!plan.NoTarget? ==> plan.className == reactNativeClass.value)
      && (PlanError(plan).Some? <==> plan.Unresolvable? || plan.Unstartable?)
  {
  }

  /** The intent `startMainActivity` starts: the target class, with the launch intent's categories, action and data. */
  function HandoffIntent(launch: Intent, target: string): (intent: Intent)
    ensures intent.component == Some(target)
    ensures CategorySet(intent) == CategorySet(launch)
    ensures intent.action == launch.action && intent.data == launch.data
  {
    Intent(Some(target), if CategorySet(launch) == {} then None else Some(CategorySet(launch)), launch.action, launch.data)
  }

  /** Builds the hand-off intent category by category, then copies action and data when they are present. */
  method CopyLaunchIntent(launch: Intent, target: string) returns (intent: Intent)
    ensures intent == HandoffIntent(launch, target)
  {
    intent := Intent(Some(target), None, None, None);
    if launch.categories.Some? {
      var all := launch.categories.value;
      var rest := all;
      while rest != {}
        invariant rest <= all
        invariant CategorySet(intent) == all - rest
        invariant intent.categories.Some? <==> rest != all
        invariant intent.component == Some(target) && intent.action.None? && intent.data.None?
        decreases rest
      {
        var category :| category in rest;
        intent := AddCategory(intent, category);
        rest := rest - {category};
      }
      assert rest == {};
      assert CategorySet(intent) == all;
      assert intent.categories.Some? ==> intent.categories.value == all;
    }
    if launch.action.Some? {
      intent := intent.(action := launch.action);
    }
    if launch.data.Some? {
      intent := intent.(data := launch.data);
    }
  }

  // ---------------------------------------------------------------------
  // initReactNative

  /** How the application object's `initReactNative` method behaves when looked up and invoked. */
  datatype HookBehaviour = HookMissing | HookThrows | HookReturns

  datatype Application = Application(hook: HookBehaviour)

  datatype Error =
    | NoSuchMethod
    | HookFailed                        // the InvocationTargetException wrapping what the hook threw
    | ClassNotFound(className: string)
    | ActivityNotFound(className: string)

  datatype Toast = InitSucceeded | ApplicationMissing | InitFailed(error: Error)

  /** The toasts `initReactNative` shows and the intent it starts, if any. */
  datatype InitReport = InitReport(toasts: seq<Toast>, handoff: Option<Intent>)

  function ReactNativeInit(app: Option<Application>, plan: HandoffPlan, launch: Intent): InitReport {
    match app
    case None => InitReport([ApplicationMissing], None)
    case Some(a) =>
      match a.hook
      case HookMissing => InitReport([InitFailed(NoSuchMethod)], None)
      case HookThrows => InitReport([InitFailed(HookFailed)], None)
      case HookReturns =>
        match plan
        case NoTarget => InitReport([InitSucceeded], None)
        case Unresolvable(n) => InitReport([InitSucceeded, InitFailed(ClassNotFound(n))], None)
        case Unstartable(n) => InitReport([InitSucceeded, InitFailed(ActivityNotFound(n))], None)
        case Target(n) => InitReport([InitSucceeded], Some(HandoffIntent(launch, n)))
  }

  /**
   * The bridge's hand-off happens exactly when the hook returns and the class
   * resolves to a declared activity; a missing application or a missing or
   * throwing hook reports a failure and nothing else; an unresolvable or
   * unstartable class is caught and reported after the success toast.
   */
  lemma ReactNativeInitOutcomes(app: Option<Application>, plan: HandoffPlan, launch: Intent)
    ensures var r := ReactNativeInit(app, plan, launch);
      && (r.handoff.Some? <==> app == Some(Application(HookReturns)) && plan.Target?)
      && (r.handoff.Some? ==> r.handoff.value == HandoffIntent(launch, plan.className))
      && (InitSucceeded in r.toasts <==> app == Some(Application(HookReturns)))
      && (app != Some(Application(HookReturns)) ==> |r.toasts| == 1 && r.toasts[0] != InitSucceeded)
      && (app == Some(Application(HookReturns)) && plan.Unresolvable? ==>
            r.toasts == [InitSucceeded, InitFailed(ClassNotFound(plan.className))] && r.handoff.None?)
      && (app == Some(Application(HookReturns)) && plan.Unstartable? ==>
            r.toasts == [InitSucceeded, InitFailed(ActivityNotFound(plan.className))] && r.handoff.None?)
  {
  }

  /**
   * The calls `setWebViewContent` makes on a new WebView: JavaScript on, the
   * link interceptor installed, the bridge added, then the chosen content loaded.
   */
  method BuildContentView(url: Option<string>, html: Option<string>) returns (view: WebView)
    ensures view == ContentWebView(url, html)
    ensures InterfaceBeforeLoads(view.calls, BRIDGE_NAME) && AddJavascriptInterface(BRIDGE_NAME) in view.calls
    ensures History(view.calls) == [SelectContent(url, html)]
  {
    var content := SelectContent(url, html);
    view := WebView([]);
    view := Perform(view, EnableJavaScript);
    view := Perform(view, SetLinkInterceptor);
    view := Perform(view, AddJavascriptInterface(BRIDGE_NAME));
    view := Perform(view, Load(content));
    assert view.calls == ContentCalls(content);
    ContentCallsShape(content);
  }

  /** Once the hook returns, the report is the success toast, then whatever `startMainActivity` raised or started. */
  lemma HookReturnsReport(plan: HandoffPlan, launch: Intent)
    ensures ReactNativeInit(Some(Application(HookReturns)), plan, launch) ==
      InitReport([InitSucceeded] + CaughtToasts(PlanError(plan)),
                 if plan.Target? then Some(HandoffIntent(launch, plan.className)) else None)
  {
  }

  // ---------------------------------------------------------------------
  // The activity

  /** The startup screen's lifecycle; `Deciding` lasts only while `init` runs. */
  datatype Phase = Initial | Deciding | ShowingContent | HandedOff | Stuck | Crashed

  class StartupActivity {
    // What the overridable hooks and the platform supply.
    const htmlUrl: Option<string>            // getHtmlUrl()
    const htmlContent: Option<string>        // getHtmlContent()
    const reactNativeClass: Option<string>   // getReactNativeClass()
    const loadableClasses: set<string>       // the names Class.forName resolves
    const startableClasses: set<string>      // the declared activities startActivity accepts
    const launchIntent: Intent               // getIntent()
    const application: Option<Application>   // getApplication()

    var prefs: map<string, string>           // the "text" SharedPreferences
    var app: Option<Application>
    var webView: Option<WebView>
    var contentIsWebView: bool               // setContentView(webView) has run
    var started: seq<Intent>                 // startActivity calls, in order
    var finished: bool                       // finish() has run
    var toasts: seq<Toast>
    var platformBackPresses: nat             // super.onBackPressed() calls
    ghost var phase: Phase

    ghost predicate Valid()
      reads this
    {
      && (webView.Some? ==>
            InterfaceBeforeLoads(webView.value.calls, BRIDGE_NAME)
            && AddJavascriptInterface(BRIDGE_NAME) in webView.value.calls)
      && (contentIsWebView ==> webView.Some?)
      && (phase == Initial ==> app.None? && webView.None? && !contentIsWebView && !finished && started == [])
      && (phase == Deciding ==> webView.None? && !contentIsWebView && !finished && started == [])
      && (phase == ShowingContent ==> webView.Some? && contentIsWebView && !finished)
      && (phase == HandedOff ==> finished && started != [])
      && (phase == Stuck || phase == Crashed ==> webView.None? && !contentIsWebView && !finished && started == [])
    }

    constructor (prefs: map<string, string>, launchIntent: Intent, application: Option<Application>,
                 htmlUrl: Option<string>, htmlContent: Option<string>,
                 reactNativeClass: Option<string>, loadableClasses: set<string>, startableClasses: set<string>)
      ensures Valid() && phase == Initial
      ensures this.prefs == prefs && this.launchIntent == launchIntent && this.application == application
      ensures this.htmlUrl == htmlUrl && this.htmlContent == htmlContent
      ensures this.reactNativeClass == reactNativeClass && this.loadableClasses == loadableClasses
      ensures this.startableClasses == startableClasses
      ensures app == None && webView == None && !contentIsWebView
      ensures started == [] && !finished && toasts == [] && platformBackPresses == 0
    {
      this.prefs := prefs;
      this.launchIntent := launchIntent;
      this.application := application;
      this.htmlUrl := htmlUrl;
      this.htmlContent := htmlContent;
      this.reactNativeClass := reactNativeClass;
      this.loadableClasses := loadableClasses;
      this.startableClasses := startableClasses;
      app := None;
      webView := None;
      contentIsWebView := false;
      started := [];
      finished := false;
      toasts := [];
      platformBackPresses := 0;
      phase := Initial;
    }

    /**
     * `init`, run from `onCreate`: either the WebView is shown, or the hand-off
     * runs and the WebView is never built. A blank class name leaves the screen
     * empty and unfinished; an unresolvable one escapes as an exception.
     */
    method Init() returns (thrown: Option<Error>)
      requires Valid() && phase == Initial
      modifies this`app, this`webView, this`contentIsWebView, this`started, this`finished, this`phase
      ensures Valid()
      ensures app == application
      ensures Decide(Lookup(prefs, USER_AGREE_KEY)) == ShowContent ==>
        && thrown.None? && phase == ShowingContent
        && webView == Some(ContentWebView(htmlUrl, htmlContent)) && contentIsWebView
        && started == [] && !finished
      ensures Decide(Lookup(prefs, USER_AGREE_KEY)) == HandOff ==>
        && webView.None? && !contentIsWebView
        && var plan := PlanHandoff(reactNativeClass, loadableClasses, startableClasses);
           && thrown == PlanError(plan)
           && started == PlanStarts(plan, launchIntent)
           && finished == plan.Target?
           && phase == (match plan case NoTarget => Stuck case Target(_) => HandedOff case _ => Crashed)
    {
      var decision := Decide(Lookup(prefs, USER_AGREE_KEY));
      app := application;
      phase := Deciding;
      if decision == HandOff {
        thrown := StartMainActivity();
        if thrown.Some? {
          phase := Crashed;
        } else if !finished {
          phase := Stuck;
        }
        return;
      }
      SetWebViewContent();
      thrown := None;
    }

    /** `setWebViewContent`: builds the view, installs `NativeBridge`, loads the chosen content and shows the view. */
    method SetWebViewContent()
      requires Valid() && phase in {Deciding, ShowingContent}
      modifies this`webView, this`contentIsWebView, this`phase
      ensures Valid() && phase == ShowingContent
      ensures webView == Some(ContentWebView(htmlUrl, htmlContent)) && contentIsWebView
    {
      var view := BuildContentView(htmlUrl, htmlContent);
      webView := Some(view);
      contentIsWebView := true;
      phase := ShowingContent;
    }

    /**
     * `startMainActivity`: nothing for a blank class name, an exception for an
     * unresolvable one or for one `startActivity` refuses, otherwise the
     * hand-off intent is started and the screen finishes. `finish()` does not
     * take the page away at once, so the bridge may call it again after a
     * hand-off, and each call starts another intent.
     */
    method StartMainActivity() returns (thrown: Option<Error>)
      requires Valid() && phase in {Deciding, ShowingContent, HandedOff}
      modifies this`started, this`finished, this`phase
      ensures Valid()
      ensures var plan := PlanHandoff(reactNativeClass, loadableClasses, startableClasses);
        && thrown == PlanError(plan)
        && started == old(started) + PlanStarts(plan, launchIntent)
        && finished == (old(finished) || plan.Target?)
        && phase == (if plan.Target? then HandedOff else old(phase))
    {
      thrown := None;
      if !IsBlank(reactNativeClass) {
        var className := reactNativeClass.value;
        if className !in loadableClasses {
          thrown := Some(ClassNotFound(className));
          return;
        }
        var intent := CopyLaunchIntent(launchIntent, className);
        if className !in startableClasses {
          thrown := Some(ActivityNotFound(className));
          return;
        }
        started := started + [intent];
        finished := true;
        phase := HandedOff;
      }
    }

    /**
     * The bridge's `initReactNative`: invokes the application's hook and hands
     * off on success; every failure, including one raised by the hand-off, is
     * caught, reported and leaves the screen as it was. The page can call it
     * again after a hand-off, which then starts a second intent.
     */
    method InitReactNative()
      requires Valid() && webView.Some? && phase in {ShowingContent, HandedOff}
      modifies this`toasts, this`started, this`finished, this`phase
      ensures Valid()
      ensures var report := ReactNativeInit(app, PlanHandoff(reactNativeClass, loadableClasses, startableClasses), launchIntent);
        && toasts == old(toasts) + report.toasts
        && started == old(started) + (if report.handoff.Some? then [report.handoff.value] else [])
        && finished == (old(finished) || report.handoff.Some?)
        && phase == (if report.handoff.Some? then HandedOff else old(phase))
    {
      ghost var report := ReactNativeInit(app, PlanHandoff(reactNativeClass, loadableClasses, startableClasses), launchIntent);
      // The try block; `failure` is what reaches the catch clause.
      var failure: Option<Error> := None;
      if app.Some? {
        match app.value.hook
        case HookMissing =>
          failure := Some(NoSuchMethod);
        case HookThrows =>
          failure := Some(HookFailed);
        case HookReturns =>
          toasts := toasts + [InitSucceeded];
          failure := StartMainActivity();
          HookReturnsReport(PlanHandoff(reactNativeClass, loadableClasses, startableClasses), launchIntent);
          assert toasts + CaughtToasts(failure) == old(toasts) + report.toasts;
      } else {
        toasts := toasts + [ApplicationMissing];
      }
      toasts := toasts + CaughtToasts(failure);
    }

    /** `onBackPressed`: back inside the WebView's history when it can go back, otherwise the platform's default. */
    method OnBackPressed()
      requires Valid()
      modifies this`webView, this`platformBackPresses
      ensures Valid()
      ensures if old(webView).Some? && CanGoBack(old(webView).value)
        then webView == Some(Perform(old(webView).value, GoBack)) && platformBackPresses == old(platformBackPresses)
        else webView == old(webView) && platformBackPresses == old(platformBackPresses) + 1
    {
      if webView.Some? && CanGoBack(webView.value) {
        InterfaceBeforeLoadsAppend(webView.value.calls, BRIDGE_NAME, GoBack);
        webView := Some(Perform(webView.value, GoBack));
      } else {
        platformBackPresses := platformBackPresses + 1;
      }
    }

    /** The link interceptor: a navigation inside the page loads the link in the same view. */
    method OnLinkNavigation(url: string)
      requires Valid() && webView.Some?
      modifies this`webView
      ensures Valid()
      ensures webView == Some(Perform(old(webView).value, Load(RemoteUrl(url))))
    {
      InterfaceBeforeLoadsAppend(webView.value.calls, BRIDGE_NAME, Load(RemoteUrl(url)));
      webView := Some(Perform(webView.value, Load(RemoteUrl(url))));
    }

    /** `openWeb`: its body is commented out, so it changes nothing. */
    method OpenWeb(url: string)
      ensures unchanged(this)
    {
    }

    method LocalStorageSet(key: string, value: Option<string>)
      modifies this`prefs
      ensures prefs == Put(old(prefs), key, value)
    {
      prefs := Put(prefs, key, value);
    }

    /** `localStorageGet`: the stored value, `""` for a missing key. */
    method LocalStorageGet(key: string) returns (value: string)
      ensures key in prefs ==> value == prefs[key]
      ensures key !in prefs ==> value == ""
    {
      value := Lookup(prefs, key);
    }

    method LocalStorageRemove(key: string)
      modifies this`prefs
      ensures prefs == old(prefs) - {key}
    {
      prefs := prefs - {key};
    }

    method LocalStorageClear()
      modifies this`prefs
      ensures prefs == map[]
    {
      prefs := map[];
    }
  }
}
