/**
 * The iOS app delegate template: at launch it reads the stored `userAgree`
 * flag and either starts React Native at once (after the consenting or the
 * non-consenting SDK set-up) or shows the startup screen; in every case it
 * then hands the launch to the superclass and returns its answer.
 *
 * What the app delegate does is recorded as a sequence of events, so that
 * "exactly one branch runs" and "the superclass is called last" are
 * statements about that sequence.
 */
module IosAppDelegate {
  import opened Wrappers
  import opened IosDefaults

  const USER_AGREE_KEY := "userAgree"
  const MAIN_MODULE := "main"
  const LIMITED_MODULE := "limited"

  /** The launch options dictionary, carried along without being interpreted. */
  datatype LaunchOptions = LaunchOptions(entries: map<string, string>)

  // ---------------------------------------------------------------------
  // The pure choices

  /** The module `initReactNativeFactory` starts, from the flag read at that moment. */
  function ModuleName(userAgree: Option<string>): string {
    if userAgree == Some("true") then MAIN_MODULE else LIMITED_MODULE
  }

  /** `"main"` exactly for the flag `"true"`; anything else, `"false"` and a missing flag included, gives `"limited"`. */
  lemma ModuleNameCases(userAgree: Option<string>)
    ensures ModuleName(userAgree) == MAIN_MODULE <==> userAgree == Some("true")
    ensures ModuleName(userAgree) == LIMITED_MODULE <==> userAgree != Some("true")
    ensures userAgree == Some("false") ==> ModuleName(userAgree) == LIMITED_MODULE
  {
    assert MAIN_MODULE[0] != LIMITED_MODULE[0];
  }

  /** The three ways `application(_:didFinishLaunchingWithOptions:)` can go. */
  datatype Branch = Agreed | Declined | AskConsent

  function LaunchBranch(userAgree: Option<string>): Branch {
    if userAgree == Some("true") then Agreed
    else if userAgree == Some("false") then Declined
    else AskConsent
  }

  datatype Event =
    | AgreeSdksInitialised
    | NotAgreeSdksInitialised
    | StartupScreenShown
    | ReactNativeStarted(moduleName: string, launchOptions: Option<LaunchOptions>)
    | SuperLaunched(launchOptions: Option<LaunchOptions>)

  /** What a launch does, in order, for the stored flag and the given options. */
  function LaunchEvents(userAgree: Option<string>, options: Option<LaunchOptions>): seq<Event> {
    match LaunchBranch(userAgree)
    case Agreed => [AgreeSdksInitialised, ReactNativeStarted(ModuleName(userAgree), options), SuperLaunched(options)]
    case Declined => [NotAgreeSdksInitialised, ReactNativeStarted(ModuleName(userAgree), options), SuperLaunched(options)]
    case AskConsent => [StartupScreenShown, SuperLaunched(options)]
  }

  predicate StartsReactNative(events: seq<Event>) {
    exists i :: 0 <= i < |events| && events[i].ReactNativeStarted?
  }

  /**
   * Exactly one branch runs: the consenting set-up for `"true"`, the
   * non-consenting one for `"false"`, each followed by React Native with the
   * launch options; the startup screen for anything else, and then no React
   * Native. The superclass is called once, last, with the same options.
   */
  lemma LaunchEventsShape(userAgree: Option<string>, options: Option<LaunchOptions>)
    ensures var e := LaunchEvents(userAgree, options);
      && (AgreeSdksInitialised in e <==> userAgree == Some("true"))
      && (NotAgreeSdksInitialised in e <==> userAgree == Some("false"))
      && (StartupScreenShown in e <==> userAgree != Some("true") && userAgree != Some("false"))
      && (StartsReactNative(e) <==> StartupScreenShown !in e)
      && (forall i :: 0 <= i < |e| && e[i].ReactNativeStarted? ==>
            e[i] == ReactNativeStarted(ModuleName(userAgree), options))
      && e[|e| - 1] == SuperLaunched(options)
      && (forall i :: 0 <= i < |e| - 1 ==> !e[i].SuperLaunched?)
  {
    var e := LaunchEvents(userAgree, options);
    match LaunchBranch(userAgree)
    case Agreed =>
      assert e[1].ReactNativeStarted?;
    case Declined =>
      assert e[1].ReactNativeStarted?;
    case AskConsent =>
  }

  // ---------------------------------------------------------------------
  // The app delegate

  /** The startup screen, as the root of the navigation controller. */
  datatype ViewController = StartupScreen

  datatype NavigationController = NavigationController(root: ViewController, navigationBarHidden: bool)

  datatype Window = Window(rootViewController: Option<NavigationController>, keyAndVisible: bool)

  datatype ReactNativeDelegate = ReactNativeDelegate(hasDependencyProvider: bool)

  datatype ReactNativeFactory = ReactNativeFactory(delegate: ReactNativeDelegate)

  class AppDelegate {
    const defaults: UserDefaults                                     // UserDefaults.standard
    const superDidFinishLaunching: Option<LaunchOptions> -> bool     // ExpoAppDelegate's answer

    var launchOptions: Option<LaunchOptions>
    var window: Option<Window>
    var navigationController: Option<NavigationController>
    var reactNativeDelegate: Option<ReactNativeDelegate>
    var reactNativeFactory: Option<ReactNativeFactory>
    var boundFactory: Option<ReactNativeFactory>                     // bindReactNativeFactory
    var events: seq<Event>

    constructor (defaults: UserDefaults, superDidFinishLaunching: Option<LaunchOptions> -> bool)
      ensures this.defaults == defaults && this.superDidFinishLaunching == superDidFinishLaunching
      ensures launchOptions == None && window == None && navigationController == None
      ensures reactNativeDelegate == None && reactNativeFactory == None && boundFactory == None
      ensures events == []
    {
      this.defaults := defaults;
      this.superDidFinishLaunching := superDidFinishLaunching;
      launchOptions := None;
      window := None;
      navigationController := None;
      reactNativeDelegate := None;
      reactNativeFactory := None;
      boundFactory := None;
      events := [];
    }

    /**
     * What `initReactNativeFactory` leaves behind: a delegate with its
     * dependency provider, a factory over it that is bound to the superclass,
     * and the window it created, as it is when the factory receives it (what
     * the factory then does with the window is not modelled).
     */
    ghost predicate FactoryStarted()
      reads this
    {
      && reactNativeDelegate == Some(ReactNativeDelegate(true))
      && reactNativeFactory == Some(ReactNativeFactory(ReactNativeDelegate(true)))
      && boundFactory == reactNativeFactory
      && window == Some(Window(None, false))
    }

    /**
     * `application(_:didFinishLaunchingWithOptions:)`: saves the options,
     * runs the branch the stored flag selects, then returns the superclass's
     * answer for the same options.
     */
    method ApplicationDidFinishLaunching(options: Option<LaunchOptions>) returns (r: bool)
      modifies this`launchOptions, this`window, this`navigationController, this`reactNativeDelegate,
               this`reactNativeFactory, this`boundFactory, this`events
      ensures r == superDidFinishLaunching(options)
      ensures launchOptions == options
      ensures events == old(events) + LaunchEvents(defaults.StringForKey(USER_AGREE_KEY), options)
      ensures LaunchBranch(defaults.StringForKey(USER_AGREE_KEY)) == AskConsent ==>
        && navigationController == Some(NavigationController(StartupScreen, true))
        && window == Some(Window(navigationController, true))
        && reactNativeDelegate == old(reactNativeDelegate)
        && reactNativeFactory == old(reactNativeFactory)
        && boundFactory == old(boundFactory)
      ensures LaunchBranch(defaults.StringForKey(USER_AGREE_KEY)) != AskConsent ==>
        && FactoryStarted()
        && navigationController == old(navigationController)
    {
      launchOptions := options;
      var userAgree := defaults.StringForKey(USER_AGREE_KEY);
      if userAgree == Some("true") {
        InitAgreeSdks();
        InitReactNativeFactory(options);
      } else if userAgree == Some("false") {
        InitNotAgreeSdks();
        InitReactNativeFactory(options);
      } else {
        InitStartupViewController();
      }
      r := superDidFinishLaunching(options);
      events := events + [SuperLaunched(options)];
    }

    /** `initStartupViewController`: a window whose root is a bar-less navigation controller over the startup screen. */
    method InitStartupViewController()
      modifies this`window, this`navigationController, this`events
      ensures navigationController == Some(NavigationController(StartupScreen, true))
      ensures window == Some(Window(navigationController, true))
      ensures events == old(events) + [StartupScreenShown]
    {
      var nav := NavigationController(StartupScreen, false);
      nav := nav.(navigationBarHidden := true);
      navigationController := Some(nav);
      var w := Window(None, false);
      w := w.(rootViewController := navigationController);
      w := w.(keyAndVisible := true);
      window := Some(w);
      events := events + [StartupScreenShown];
    }

    /**
     * `initReactNativeFactory`: a new delegate and factory, bound to the
     * superclass, and React Native started in a new window under the module
     * the flag selects now.
     */
    method InitReactNativeFactory(options: Option<LaunchOptions>)
      modifies this`reactNativeDelegate, this`reactNativeFactory, this`boundFactory, this`window, this`events
      ensures FactoryStarted()
      ensures events == old(events) + [ReactNativeStarted(ModuleName(defaults.StringForKey(USER_AGREE_KEY)), options)]
    {
      // The factory holds the delegate by reference, so it sees the
      // dependency provider assigned after its creation.
      var delegate := ReactNativeDelegate(false);
      delegate := delegate.(hasDependencyProvider := true);
      var factory := ReactNativeFactory(delegate);
      reactNativeDelegate := Some(delegate);
      reactNativeFactory := Some(factory);
      boundFactory := Some(factory);
      window := Some(Window(None, false));
      var userAgree := defaults.StringForKey(USER_AGREE_KEY);
      var moduleName := ModuleName(userAgree);
      events := events + [ReactNativeStarted(moduleName, options)];
    }

    /** `initReactNative`, the selector-friendly entry: the factory with the options saved at launch. */
    method InitReactNative()
      modifies this`reactNativeDelegate, this`reactNativeFactory, this`boundFactory, this`window, this`events
      ensures FactoryStarted()
      ensures events == old(events) + [ReactNativeStarted(ModuleName(defaults.StringForKey(USER_AGREE_KEY)), launchOptions)]
    {
      var currentLaunchOptions := launchOptions;
      InitReactNativeFactory(currentLaunchOptions);
    }

    /** `initAgreeSdks`: empty in the template; recorded so the branch is visible. */
    method InitAgreeSdks()
      modifies this`events
      ensures events == old(events) + [AgreeSdksInitialised]
    {
      events := events + [AgreeSdksInitialised];
    }

    /** `initNotAgreeSdks`: empty in the template; recorded so the branch is visible. */
    method InitNotAgreeSdks()
      modifies this`events
      ensures events == old(events) + [NotAgreeSdksInitialised]
    {
      events := events + [NotAgreeSdksInitialised];
    }
  }
}
