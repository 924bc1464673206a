/**
 * The iOS startup screen: a web page shown in a popup, a JavaScript shim
 * that forwards the page's `NativeBridge` calls to four script message
 * handlers, and the dispatcher that acts on those messages.
 */
module IosStartup {
  import opened Wrappers
  import opened SwiftText
  import opened IosDefaults
  import opened IosAppDelegate

  // ---------------------------------------------------------------------
  // injectScriptIntoHTML

  const HEAD_CLOSE_TAG := "</head>"

  function ScriptTag(script: string): string {
    "<script>\n" + script + "\n</script>"
  }

  /** Inserts the script before every `</head>`, or in front of the page when it has none. */
  function InjectScriptIntoHtml(html: string, script: string): string {
    var scriptTag := ScriptTag(script);
    if Contains(html, HEAD_CLOSE_TAG) then ReplacingOccurrences(html, HEAD_CLOSE_TAG, scriptTag + HEAD_CLOSE_TAG)
    else scriptTag + "\n" + html
  }

  /**
   * With a `</head>`: cutting the page at its closing head tags gives pieces
   * that contain none; the page is those pieces joined by `</head>`, and the
   * result is the same pieces joined by the script tag followed by `</head>`.
   * Taking the inserted tags out again gives back the page.
   */
  lemma InjectBeforeEveryHeadClose(html: string, script: string)
    requires Contains(html, HEAD_CLOSE_TAG)
    ensures var pieces := Split(html, HEAD_CLOSE_TAG);
      && |pieces| >= 2
      && (forall i :: 0 <= i < |pieces| ==> !Contains(pieces[i], HEAD_CLOSE_TAG))
      && Join(pieces, HEAD_CLOSE_TAG) == html
      && InjectScriptIntoHtml(html, script) == Join(pieces, ScriptTag(script) + HEAD_CLOSE_TAG)
  {
    var pieces := Split(html, HEAD_CLOSE_TAG);
    ContainsIffOccurs(html, HEAD_CLOSE_TAG);
    SplitPiecesAvoidSeparator(html, HEAD_CLOSE_TAG);
    JoinSplit(html, HEAD_CLOSE_TAG);
    ReplacingIsJoin(html, HEAD_CLOSE_TAG, ScriptTag(script) + HEAD_CLOSE_TAG);
  }

  /** `</head>` cannot start inside a script tag whose script does not contain it. */
  lemma HeadCloseOnlyAfterTag(script: string, q: int)
    requires !Contains(script, HEAD_CLOSE_TAG)
    requires 0 <= q < |ScriptTag(script)|
    ensures !HasPrefix((ScriptTag(script) + HEAD_CLOSE_TAG)[q..], HEAD_CLOSE_TAG)
  {
    var x := ScriptTag(script) + HEAD_CLOSE_TAG;
    var n := |script|;
    var opening := "<script>\n";
    var closing := "\n</script>" + HEAD_CLOSE_TAG;
    assert x == opening + script + closing;
    var window := x[q..][..7];
    if q < 9 {
      assert x[q] == opening[q];
      if q == 0 {
        assert window[1] == 's';
      } else {
        assert window[0] != '<';
      }
    } else if q + 7 <= 9 + n {
      assert script[q - 9..][..7] == window;
      assert !HasPrefix(script[q - 9..], HEAD_CLOSE_TAG);
    } else if q < 9 + n {
      assert x[9 + n] == '\n';
      assert window[9 + n - q] == '\n';
    } else {
      assert x[q] == closing[q - 9 - n];
      if q == 10 + n {
        assert window[2] == 's';
      } else {
        assert window[0] != '<';
      }
    }
    assert window != HEAD_CLOSE_TAG;
  }

  /** Where `a + b` starts at `k`, `b` starts at `k + |a|`. */
  lemma WindowOfMatch(w: string, k: nat, a: string, b: string)
    requires k + |a| + |b| <= |w|
    ensures HasPrefix(w[k..], a + b) ==> w[k + |a|..][..|b|] == b
  {
    if HasPrefix(w[k..], a + b) {
      forall i | k + |a| <= i < k + |a| + |b|
        ensures w[i] == b[i - k - |a|]
      {
        assert w[i] == w[k..][..|a + b|][i - k];
      }
    }
  }

  /**
   * A piece without `</head>`, followed by the script tag and `</head>`,
   * holds no earlier occurrence of that pair.
   */
  lemma HeadTagsClear(p: string, script: string)
    requires !Contains(p, HEAD_CLOSE_TAG) && !Contains(script, HEAD_CLOSE_TAG)
    ensures ClearBefore(p, ScriptTag(script) + HEAD_CLOSE_TAG)
  {
    var tag := ScriptTag(script);
    var x := tag + HEAD_CLOSE_TAG;
    var w := p + x;
    forall k | 0 <= k < |p|
      ensures !HasPrefix(w[k..], x)
    {
      var j := k + |tag|;
      var window := w[j..][..7];
      if j + 7 <= |p| {
        assert p[j..][..7] == window;
        assert !HasPrefix(p[j..], HEAD_CLOSE_TAG);
      } else if j < |p| {
        assert w[|p|] == '<';
        assert window[|p| - j] == '<';
      } else {
        HeadCloseOnlyAfterTag(script, j - |p|);
        assert x[j - |p|..][..7] == window;
      }
      assert window != HEAD_CLOSE_TAG;
      WindowOfMatch(w, k, tag, HEAD_CLOSE_TAG);
    }
  }

  /**
   * Replacing each inserted script tag and `</head>` by `</head>` again gives
   * back the page, for any script that does not itself contain `</head>`.
   */
  lemma RemovingScriptRestoresPage(html: string, script: string)
    requires Contains(html, HEAD_CLOSE_TAG) && !Contains(script, HEAD_CLOSE_TAG)
    ensures ReplacingOccurrences(InjectScriptIntoHtml(html, script), ScriptTag(script) + HEAD_CLOSE_TAG, HEAD_CLOSE_TAG) == html
  {
    var tag := ScriptTag(script);
    var x := tag + HEAD_CLOSE_TAG;
    var pieces := Split(html, HEAD_CLOSE_TAG);
    InjectBeforeEveryHeadClose(html, script);
    forall i | 0 <= i < |pieces| - 1
      ensures ClearBefore(pieces[i], x)
    {
      HeadTagsClear(pieces[i], script);
    }
    ContainsOfSuffix(pieces[|pieces| - 1], tag, HEAD_CLOSE_TAG);
    ReplacingJoin(pieces, x, HEAD_CLOSE_TAG);
  }

  /** Without a `</head>` the page is kept whole, after the script tag and a newline. */
  lemma InjectWithoutHead(html: string, script: string)
    requires !Contains(html, HEAD_CLOSE_TAG)
    ensures var r := InjectScriptIntoHtml(html, script);
      && |r| == |html| + |ScriptTag(script)| + 1
      && r[..|ScriptTag(script)|] == ScriptTag(script)
      && r[|ScriptTag(script)|] == '\n'
      && r[|r| - |html|..] == html
  {
  }

  /** Each closing head tag gains exactly one script tag; without one the result is one tag and a newline longer. */
  lemma InjectLength(html: string, script: string)
    ensures Contains(html, HEAD_CLOSE_TAG) ==>
      |InjectScriptIntoHtml(html, script)| == |html| + Occurrences(html, HEAD_CLOSE_TAG) * |ScriptTag(script)|
    ensures !Contains(html, HEAD_CLOSE_TAG) ==>
      |InjectScriptIntoHtml(html, script)| == |html| + |ScriptTag(script)| + 1
  {
    var tag := ScriptTag(script);
    if Contains(html, HEAD_CLOSE_TAG) {
      ReplacingLength(html, HEAD_CLOSE_TAG, tag + HEAD_CLOSE_TAG);
      assert |tag + HEAD_CLOSE_TAG| - |HEAD_CLOSE_TAG| == |tag|;
    }
  }

  // ---------------------------------------------------------------------
  // Script messages

  /** A message body, as WebKit hands it over from JavaScript. */
  datatype Body =
    | NullBody
    | StringBody(text: string)
    | NumberBody(number: int)
    | BoolBody(flag: bool)
    | DictBody(fields: map<string, Body>)
    | ArrayBody(items: seq<Body>)

  datatype Message = Message(name: string, body: Body)

  /** The handlers `showCustomAlert` registers, in order. */
  const HANDLER_NAMES: seq<string> := ["exitApp", "openWeb", "initReactNative", "localStorageSet"]

  /** What the dispatcher decides to do with a message. */
  datatype Command =
    | ConfirmExit
    | PresentWeb(urlString: string)
    | StartReactNative
    | StoreString(key: string, value: string)
    | Ignore

  /** `data["key"] as? String` and `data["value"] as? String` on a dictionary body. */
  predicate IsStorageBody(body: Body) {
    && body.DictBody?
    && "key" in body.fields && body.fields["key"].StringBody?
    && "value" in body.fields && body.fields["value"].StringBody?
  }

  /**
   * The dispatcher's switch on the handler name. `parseUrl` stands for
   * `URL(string:)` followed by `absoluteString`.
   */
  function Route(message: Message, parseUrl: string -> Option<string>): Command {
    if message.name == "exitApp" then ConfirmExit
    else if message.name == "openWeb" then
      if message.body.StringBody? && parseUrl(message.body.text).Some?
      then PresentWeb(parseUrl(message.body.text).value)
      else Ignore
    else if message.name == "initReactNative" then StartReactNative
    else if message.name == "localStorageSet" then
      if IsStorageBody(message.body)
      then StoreString(message.body.fields["key"].text, message.body.fields["value"].text)
      else Ignore
    else Ignore
  }

  /**
   * Only a registered name is acted on; `localStorageSet` stores exactly
   * when the body is a dictionary with string `key` and `value`, and then
   * stores that value under that key; `openWeb` acts exactly for a string
   * that parses as a URL.
   */
  lemma RouteCases(message: Message, parseUrl: string -> Option<string>)
    ensures Route(message, parseUrl) != Ignore ==> message.name in HANDLER_NAMES
    ensures Route(message, parseUrl).StoreString? <==> message.name == "localStorageSet" && IsStorageBody(message.body)
    ensures Route(message, parseUrl).StoreString? ==>
      Route(message, parseUrl) == StoreString(message.body.fields["key"].text, message.body.fields["value"].text)
    ensures Route(message, parseUrl).PresentWeb? <==>
      message.name == "openWeb" && message.body.StringBody? && parseUrl(message.body.text).Some?
    ensures Route(message, parseUrl) == ConfirmExit <==> message.name == "exitApp"
    ensures Route(message, parseUrl) == StartReactNative <==> message.name == "initReactNative"
  {
  }

  // ---------------------------------------------------------------------
  // The injected JavaScript shim and the bundled page

  /** A call the page makes on `window.NativeBridge`. */
  datatype BridgeCall =
    | ExitAppCall
    | OpenWebCall(url: Body)
    | InitReactNativeCall
    | LocalStorageSetCall(key: Body, value: Body)

  /** The handler each shim function posts to, and the body it posts. */
  function ShimMessage(call: BridgeCall): Message {
    match call
    case ExitAppCall => Message("exitApp", NullBody)
    case OpenWebCall(url) => Message("openWeb", url)
    case InitReactNativeCall => Message("initReactNative", NullBody)
    case LocalStorageSetCall(key, value) => Message("localStorageSet", DictBody(map["key" := key, "value" := value]))
  }

  /** `window.webkit?.messageHandlers?.<name>?.postMessage(...)`: nothing is posted to an unregistered name. */
  function ShimPost(call: BridgeCall, handlers: seq<string>): Option<Message> {
    var message := ShimMessage(call);
    if message.name in handlers then Some(message) else None
  }

  /**
   * The four shim functions and the four registered handlers match one to
   * one, and a `localStorageSet` call with two strings is stored as given.
   */
  lemma ShimMatchesHandlers(call: BridgeCall, parseUrl: string -> Option<string>, key: string, value: string)
    ensures ShimPost(call, HANDLER_NAMES) == Some(ShimMessage(call))
    ensures forall name :: name in HANDLER_NAMES <==>
      exists c :: c in [ExitAppCall, OpenWebCall(NullBody), InitReactNativeCall, LocalStorageSetCall(NullBody, NullBody)]
               && ShimMessage(c).name == name
    ensures Route(ShimMessage(LocalStorageSetCall(StringBody(key), StringBody(value))), parseUrl) == StoreString(key, value)
  {
    var calls := [ExitAppCall, OpenWebCall(NullBody), InitReactNativeCall, LocalStorageSetCall(NullBody, NullBody)];
    forall name | name in HANDLER_NAMES
      ensures exists c :: c in calls && ShimMessage(c).name == name
    {
      var i :| 0 <= i < 4 && HANDLER_NAMES[i] == name;
      assert ShimMessage(calls[i]).name == name;
    }
    var body := DictBody(map["key" := StringBody(key), "value" := StringBody(value)]);
    assert IsStorageBody(body);
  }

  /** The buttons of the bundled page. */
  datatype PageButton = ExitButton | OpenWebButton | InitReactNativeButton

  const EXPO_URL := "https://expo.dev"

  /** The bridge calls each button's handler makes, in order. */
  function ButtonCalls(button: PageButton): seq<BridgeCall> {
    match button
    case ExitButton => [ExitAppCall]
    case OpenWebButton => [OpenWebCall(StringBody(EXPO_URL))]
    case InitReactNativeButton =>
      [LocalStorageSetCall(StringBody(USER_AGREE_KEY), StringBody("true")), InitReactNativeCall]
  }

  /** The "init RN" button stores consent first and only then asks for React Native. */
  lemma InitButtonStoresConsentFirst(parseUrl: string -> Option<string>)
    ensures var calls := ButtonCalls(InitReactNativeButton);
      && |calls| == 2
      && Route(ShimMessage(calls[0]), parseUrl) == StoreString(USER_AGREE_KEY, "true")
      && Route(ShimMessage(calls[1]), parseUrl) == StartReactNative
  {
    ShimMatchesHandlers(LocalStorageSetCall(StringBody(USER_AGREE_KEY), StringBody("true")), parseUrl, USER_AGREE_KEY, "true");
  }

  // ---------------------------------------------------------------------
  // The view controller

  /** What the controller presents on top of itself. */
  datatype Presentation =
    | ExitConfirmation                 // the "exit?" alert with cancel and exit actions
    | WebPage(urlString: string)       // a full-screen navigation controller over a web page

  function Presents(command: Command): seq<Presentation> {
    match command
    case ConfirmExit => [ExitConfirmation]
    case PresentWeb(url) => [WebPage(url)]
    case _ => []
  }

  class StartupViewController {
    const defaults: UserDefaults                      // UserDefaults.standard
    const appDelegate: AppDelegate?                   // UIApplication.shared.delegate as? AppDelegate
    const parseUrl: string -> Option<string>          // URL(string:) then absoluteString
    const bundledPage: string                         // the HTML shown in the popup
    const bridgeShim: string                          // the NativeBridge compatibility script

    var handlers: seq<string>
    var loadedHtml: Option<string>
    var presented: seq<Presentation>

    /** Both sides use the one standard store. */
    predicate SharesStore() {
      appDelegate != null ==> appDelegate.defaults == defaults
    }

    constructor (defaults: UserDefaults, appDelegate: AppDelegate?, parseUrl: string -> Option<string>,
                 bundledPage: string, bridgeShim: string)
      ensures this.defaults == defaults && this.appDelegate == appDelegate && this.parseUrl == parseUrl
      ensures this.bundledPage == bundledPage && this.bridgeShim == bridgeShim
      ensures handlers == [] && loadedHtml == None && presented == []
    {
      this.defaults := defaults;
      this.appDelegate := appDelegate;
      this.parseUrl := parseUrl;
      this.bundledPage := bundledPage;
      this.bridgeShim := bridgeShim;
      handlers := [];
      loadedHtml := None;
      presented := [];
    }

    /** `viewDidLoad` then `showCustomAlert`: the four handlers are registered and the page is loaded with the shim injected. */
    method ViewDidLoad()
      modifies this`handlers, this`loadedHtml
      ensures handlers == old(handlers) + HANDLER_NAMES
      ensures loadedHtml == Some(InjectScriptIntoHtml(bundledPage, bridgeShim))
    {
      handlers := handlers + ["exitApp"];
      handlers := handlers + ["openWeb"];
      handlers := handlers + ["initReactNative"];
      handlers := handlers + ["localStorageSet"];
      var finalHtml := InjectScriptIntoHtml(bundledPage, bridgeShim);
      loadedHtml := Some(finalHtml);
    }

    /**
     * `userContentController(_:didReceive:)`: does what `Route` decides; a
     * malformed `localStorageSet`, an unparsable `openWeb` and an unknown
     * name change nothing.
     */
    method UserContentControllerDidReceive(message: Message)
      requires SharesStore()
      modifies this`presented, defaults, appDelegate
      ensures var command := Route(message, parseUrl);
        && presented == old(presented) + Presents(command)
        && defaults.entries == (if command.StoreString? then old(defaults.entries)[command.key := command.value]
                                else old(defaults.entries))
        && (appDelegate != null && command != StartReactNative ==> unchanged(appDelegate))
        && (appDelegate != null && command == StartReactNative ==>
              && appDelegate.events == old(appDelegate.events)
                   + [ReactNativeStarted(ModuleName(old(defaults.StringForKey(USER_AGREE_KEY))), None)]
              && appDelegate.FactoryStarted()
              && appDelegate.launchOptions == old(appDelegate.launchOptions)
              && appDelegate.navigationController == old(appDelegate.navigationController))
    {
      if message.name == "exitApp" {
        ExitApp();
      } else if message.name == "openWeb" {
        if message.body.StringBody? {
          var url := parseUrl(message.body.text);
          if url.Some? {
            OpenWeb(url.value);
          }
        }
      } else if message.name == "initReactNative" {
        InitReactNative();
      } else if message.name == "localStorageSet" {
        if IsStorageBody(message.body) {
          LocalStorageSet(message.body.fields["key"].text, message.body.fields["value"].text);
        }
      }
    }

    /** `exitApp`: presents the confirmation alert; the exit itself happens only if the user confirms. */
    method ExitApp()
      modifies this`presented
      ensures presented == old(presented) + [ExitConfirmation]
    {
      presented := presented + [ExitConfirmation];
    }

    /** `openWeb`: presents the web page full screen. */
    method OpenWeb(urlString: string)
      modifies this`presented
      ensures presented == old(presented) + [WebPage(urlString)]
    {
      presented := presented + [WebPage(urlString)];
    }

    /** `initReactNative`: the app delegate's factory, with no launch options; nothing when the delegate is not an `AppDelegate`. */
    method InitReactNative()
      requires SharesStore()
      modifies appDelegate
      ensures appDelegate != null ==>
        && appDelegate.events == old(appDelegate.events) + [ReactNativeStarted(ModuleName(defaults.StringForKey(USER_AGREE_KEY)), None)]
        && appDelegate.FactoryStarted()
        && appDelegate.launchOptions == old(appDelegate.launchOptions)
        && appDelegate.navigationController == old(appDelegate.navigationController)
    {
      if appDelegate != null {
        appDelegate.InitReactNativeFactory(None);
      }
    }

    /** `localStorageSet`: stores the value under the key in the standard store. */
    method LocalStorageSet(key: string, value: string)
      modifies defaults
      ensures defaults.entries == old(defaults.entries)[key := value]
    {
      defaults.Set(value, key);
    }

    /**
     * The bundled page's "init RN" button, once the handlers are registered:
     * consent is stored first, so the factory then starts the `"main"` module.
     */
    method PressInitReactNativeButton()
      requires SharesStore() && handlers == HANDLER_NAMES
      modifies this`presented, defaults, appDelegate
      ensures defaults.entries == old(defaults.entries)[USER_AGREE_KEY := "true"]
      ensures presented == old(presented)
      ensures appDelegate != null ==>
        && appDelegate.events == old(appDelegate.events) + [ReactNativeStarted(MAIN_MODULE, None)]
        && appDelegate.FactoryStarted()
        && appDelegate.launchOptions == old(appDelegate.launchOptions)
        && appDelegate.navigationController == old(appDelegate.navigationController)
    {
      var calls := ButtonCalls(InitReactNativeButton);
      InitButtonStoresConsentFirst(parseUrl);
      var first := ShimPost(calls[0], handlers);
      var second := ShimPost(calls[1], handlers);
      UserContentControllerDidReceive(first.value);
      UserContentControllerDidReceive(second.value);
    }
  }
}
