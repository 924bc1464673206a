/**
 * The two platforms read the same consent flag the same way: the Android
 * screen hands off for exactly the stored values for which the iOS app
 * delegate skips its startup screen.
 */
module StartupAgreement {
  import AndroidStartup
  import IosDefaults
  import IosAppDelegate

  /**
   * Android reads a missing flag as `""`, iOS as `nil`; either way neither
   * skips the consent screen.
   */
  lemma SameDecisionOnBothPlatforms(prefs: map<string, string>)
    ensures AndroidStartup.Decide(AndroidStartup.Lookup(prefs, AndroidStartup.USER_AGREE_KEY)) == AndroidStartup.HandOff
        <==> IosAppDelegate.LaunchBranch(IosDefaults.StringFor(prefs, IosAppDelegate.USER_AGREE_KEY)) != IosAppDelegate.AskConsent
  {
    assert AndroidStartup.USER_AGREE_KEY == IosAppDelegate.USER_AGREE_KEY;
    if AndroidStartup.USER_AGREE_KEY !in prefs {
      assert AndroidStartup.Lookup(prefs, AndroidStartup.USER_AGREE_KEY) == "";
    }
  }
}
