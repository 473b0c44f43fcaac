/**
 * The page that hosts everything: the landing page until a wallet is
 * connected, then the dashboard with the onboarding flow on top (the
 * welcome modal, the risk assessment, and three tooltips shown in turn).
 * The wallet provider itself is outside the model; only the state changes
 * its answers cause are modelled.
 */
module IndexPage {
  import opened Common
  import opened UserPreferences

  datatype PageState = PageState(
    isConnected: bool,
    userAddress: string,
    showWelcome: bool,
    showRiskAssessment: bool,
    onboardingStep: nat,
    preferences: Preferences)

  const TooltipCount: nat := 3

  function InitialPage(preferences: Preferences): PageState {
    PageState(false, "", false, false, 0, preferences)
  }

  /** The effect that opens the welcome modal for a connected user who has not finished onboarding. */
  function WelcomeEffect(s: PageState): (r: PageState)
    ensures r.showWelcome == (s.showWelcome || (s.isConnected && !s.preferences.hasCompletedOnboarding))
    ensures r == s.(showWelcome := r.showWelcome)
  {
    if s.isConnected && !s.preferences.hasCompletedOnboarding then s.(showWelcome := true) else s
  }

  /**
   * The state after a render: the effect runs only when one of the values
   * it depends on, the connection and the onboarding flag, has changed.
   */
  function Rendered(before: PageState, after: PageState): (r: PageState)
    ensures (before.isConnected == after.isConnected &&
             before.preferences.hasCompletedOnboarding == after.preferences.hasCompletedOnboarding) ==> r == after
    ensures r == after.(showWelcome := r.showWelcome)
  {
    if before.isConnected != after.isConnected ||
       before.preferences.hasCompletedOnboarding != after.preferences.hasCompletedOnboarding
    then WelcomeEffect(after)
    else after
  }

  /** `handleConnection`: connecting a new session opens the welcome modal unless onboarding is complete. */
  function Connected(s: PageState, address: string): (r: PageState)
    ensures r.isConnected && r.userAddress == address
    ensures !s.isConnected ==> r.showWelcome == (s.showWelcome || !s.preferences.hasCompletedOnboarding)
    ensures s.isConnected ==> r.showWelcome == s.showWelcome
    ensures r.showRiskAssessment == s.showRiskAssessment && r.onboardingStep == s.onboardingStep
    ensures r.preferences == s.preferences
  {
    Rendered(s, s.(isConnected := true, userAddress := address))
  }

  /** `handleDisconnect`; the effect then finds no connection and does nothing. */
  function Disconnected(s: PageState): (r: PageState)
    ensures !r.isConnected && r.userAddress == ""
    ensures r == s.(isConnected := false, userAddress := "")
  {
    Rendered(s, s.(isConnected := false, userAddress := ""))
  }

  /** `handleStartRiskAssessment`: the welcome modal gives way to the assessment. */
  function AssessmentStarted(s: PageState): (r: PageState)
    ensures !r.showWelcome && r.showRiskAssessment
    ensures r == s.(showWelcome := false, showRiskAssessment := true)
  {
    Rendered(s, s.(showWelcome := false, showRiskAssessment := true))
  }

  /** `handleCompleteOnboarding`: the profile is recorded, the assessment closes and the first tooltip is due. */
  function OnboardingCompleted(s: PageState, profile: RiskProfile): (r: PageState)
    ensures r.preferences == Onboarded(s.preferences, profile)
    ensures !r.showRiskAssessment && r.onboardingStep == 1
    ensures r.isConnected == s.isConnected && r.userAddress == s.userAddress && r.showWelcome == s.showWelcome
  {
    Rendered(s, s.(preferences := Onboarded(s.preferences, profile), showRiskAssessment := false, onboardingStep := 1))
  }

  /** A tooltip shows once onboarding is complete and the step is 1 to 3. */
  predicate TooltipShown(s: PageState) {
    s.preferences.hasCompletedOnboarding && 0 < s.onboardingStep <= TooltipCount
  }

  /** The tooltip's Next button: on to the next tooltip, or back to 0 after the last. */
  function TooltipAdvanced(s: PageState): (r: PageState)
    requires TooltipShown(s)
    ensures s.onboardingStep < TooltipCount ==> r.onboardingStep == s.onboardingStep + 1 && TooltipShown(r)
    ensures s.onboardingStep == TooltipCount ==> r.onboardingStep == 0 && !TooltipShown(r)
    ensures r == s.(onboardingStep := r.onboardingStep)
  {
    s.(onboardingStep := if s.onboardingStep < TooltipCount then s.onboardingStep + 1 else 0)
  }

  datatype View = Landing | Dashboard(address: string)

  /** The landing page shows exactly while no wallet is connected. */
  function ViewOf(s: PageState): (v: View)
    ensures v.Landing? <==> !s.isConnected
    ensures v.Dashboard? ==> v.address == s.userAddress
  {
    if !s.isConnected then Landing else Dashboard(s.userAddress)
  }

  /** The whole onboarding path of a new user: connect, start, complete, then the three tooltips. */
  lemma NewUserOnboarding(address: string, profile: RiskProfile)
    ensures var s1 := Connected(InitialPage(DefaultPreferences()), address);
            var s2 := AssessmentStarted(s1);
            var s3 := OnboardingCompleted(s2, profile);
            s1.showWelcome && !s1.showRiskAssessment &&
            !s2.showWelcome && s2.showRiskAssessment &&
            !s3.showWelcome && !s3.showRiskAssessment && TooltipShown(s3) &&
            s3.preferences.riskProfile == Some(profile) && ViewOf(s3) == Dashboard(address)
  {
  }

  /** Three presses of the tooltip's Next walk through the tooltips and hide them. */
  lemma TooltipCycle(s: PageState)
    requires TooltipShown(s) && s.onboardingStep == 1
    ensures var t1 := TooltipAdvanced(s);
            var t2 := TooltipAdvanced(t1);
            t1.onboardingStep == 2 && t2.onboardingStep == 3 &&
            TooltipAdvanced(t2).onboardingStep == 0 && !TooltipShown(TooltipAdvanced(t2))
  {
  }

  /** A returning user who has finished onboarding is not shown the welcome modal again. */
  lemma ReturningUserSkipsWelcome(s: PageState, address: string)
    requires s.preferences.hasCompletedOnboarding && !s.showWelcome
    ensures !Connected(s, address).showWelcome
  {
  }

  /** Disconnecting returns to the landing page. */
  lemma DisconnectShowsLanding(s: PageState)
    ensures ViewOf(Disconnected(s)) == Landing
  {
  }

  /** The page's state variables, with the preferences held by the surrounding provider. */
  class Page {
    var isConnected: bool
    var userAddress: string
    var showWelcome: bool
    var showRiskAssessment: bool
    var onboardingStep: nat
    var preferences: Preferences

    function State(): PageState
      reads this
    {
      PageState(isConnected, userAddress, showWelcome, showRiskAssessment, onboardingStep, preferences)
    }

    constructor (prefs: Preferences)
      ensures State() == InitialPage(prefs)
    {
      isConnected := false;
      userAddress := "";
      showWelcome := false;
      showRiskAssessment := false;
      onboardingStep := 0;
      preferences := prefs;
    }

    /** Opens the welcome modal for a connected user still to be onboarded, if `before` differs in a watched value. */
    method RunWelcomeEffect(before: PageState)
      modifies this
      ensures State() == Rendered(before, old(State()))
    {
      if before.isConnected != isConnected || before.preferences.hasCompletedOnboarding != preferences.hasCompletedOnboarding {
        if isConnected && !preferences.hasCompletedOnboarding {
          showWelcome := true;
        }
      }
    }

    method HandleConnection(address: string)
      modifies this
      ensures State() == Connected(old(State()), address)
    {
      var before := State();
      isConnected := true;
      userAddress := address;
      RunWelcomeEffect(before);
    }

    method HandleDisconnect()
      modifies this
      ensures State() == Disconnected(old(State()))
    {
      var before := State();
      isConnected := false;
      userAddress := "";
      RunWelcomeEffect(before);
    }

    method HandleStartRiskAssessment()
      modifies this
      ensures State() == AssessmentStarted(old(State()))
    {
      showWelcome := false;
      showRiskAssessment := true;
    }

    method HandleCompleteOnboarding(profile: RiskProfile)
      modifies this
      ensures State() == OnboardingCompleted(old(State()), profile)
    {
      var before := State();
      preferences := preferences.(hasCompletedOnboarding := true, riskProfile := Some(profile));
      showRiskAssessment := false;
      onboardingStep := 1;
      RunWelcomeEffect(before);
    }

    /** The welcome modal's close button. */
    method CloseWelcome()
      modifies this
      ensures State() == old(State()).(showWelcome := false)
    {
      showWelcome := false;
    }

    /** The assessment's close button. */
    method CloseRiskAssessment()
      modifies this
      ensures State() == old(State()).(showRiskAssessment := false)
    {
      showRiskAssessment := false;
    }

    /** The tooltip's Next button, available while a tooltip shows. */
    method NextTooltip()
      requires TooltipShown(State())
      modifies this
      ensures State() == TooltipAdvanced(old(State()))
    {
      if onboardingStep < TooltipCount {
        onboardingStep := onboardingStep + 1;
      } else {
        onboardingStep := 0;
      }
    }
  }
}
