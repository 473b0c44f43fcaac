/**
 * The user's preferences: onboarding completion, the chosen risk profile,
 * the preferred list view, the sample-data switch and the dismissed tips.
 */
module UserPreferences {
  import opened Common

  datatype RiskLevel = Conservative | Moderate | Aggressive

  /** The answers of the risk assessment. */
  datatype RiskProfile = RiskProfile(
    level: RiskLevel,
    maxAllocation: real,
    preferredChains: seq<string>,
    minApy: real)

  datatype PreferredView = ListView | CardsView

  datatype Preferences = Preferences(
    hasCompletedOnboarding: bool,
    riskProfile: Option<RiskProfile>,
    preferredView: PreferredView,
    showSampleData: bool,
    dismissedTips: seq<string>)

  function DefaultPreferences(): Preferences {
    Preferences(false, None, ListView, false, [])
  }

  /** The fields a change supplies; `None` leaves a field as it is. */
  datatype PreferencesUpdate = PreferencesUpdate(
    hasCompletedOnboarding: Option<bool>,
    riskProfile: Option<Option<RiskProfile>>,
    preferredView: Option<PreferredView>,
    showSampleData: Option<bool>,
    dismissedTips: Option<seq<string>>)

  /** Object spread: supplied fields win, the others are kept. */
  function MergePreferences(p: Preferences, u: PreferencesUpdate): (r: Preferences)
    ensures u.hasCompletedOnboarding.Some? ==> r.hasCompletedOnboarding == u.hasCompletedOnboarding.value
    ensures u.hasCompletedOnboarding.None? ==> r.hasCompletedOnboarding == p.hasCompletedOnboarding
    ensures u.riskProfile.Some? ==> r.riskProfile == u.riskProfile.value
    ensures u.riskProfile.None? ==> r.riskProfile == p.riskProfile
    ensures u.preferredView.Some? ==> r.preferredView == u.preferredView.value
    ensures u.preferredView.None? ==> r.preferredView == p.preferredView
    ensures u.showSampleData.Some? ==> r.showSampleData == u.showSampleData.value
    ensures u.showSampleData.None? ==> r.showSampleData == p.showSampleData
    ensures u.dismissedTips.Some? ==> r.dismissedTips == u.dismissedTips.value
    ensures u.dismissedTips.None? ==> r.dismissedTips == p.dismissedTips
  {
    Preferences(
      u.hasCompletedOnboarding.GetOr(p.hasCompletedOnboarding),
      u.riskProfile.GetOr(p.riskProfile),
      u.preferredView.GetOr(p.preferredView),
      u.showSampleData.GetOr(p.showSampleData),
      u.dismissedTips.GetOr(p.dismissedTips))
  }

  /** Completing onboarding records the profile and changes nothing else. */
  function Onboarded(p: Preferences, profile: RiskProfile): (r: Preferences)
    ensures r.hasCompletedOnboarding && r.riskProfile == Some(profile)
    ensures r.preferredView == p.preferredView && r.showSampleData == p.showSampleData
    ensures r.dismissedTips == p.dismissedTips
  {
    p.(hasCompletedOnboarding := true, riskProfile := Some(profile))
  }

  /** Completing onboarding is the update that supplies exactly those two fields. */
  lemma CompleteOnboardingIsUpdate(p: Preferences, profile: RiskProfile)
    ensures Onboarded(p, profile) ==
            MergePreferences(p, PreferencesUpdate(Some(true), Some(Some(profile)), None, None, None))
  {
  }

  /** Dismissing a tip appends its id, even when it is already there. */
  function WithDismissedTip(p: Preferences, tipId: string): (r: Preferences)
    ensures |r.dismissedTips| == |p.dismissedTips| + 1
    ensures r.dismissedTips[..|p.dismissedTips|] == p.dismissedTips
    ensures r.dismissedTips[|p.dismissedTips|] == tipId
    ensures r.hasCompletedOnboarding == p.hasCompletedOnboarding && r.riskProfile == p.riskProfile
    ensures r.preferredView == p.preferredView && r.showSampleData == p.showSampleData
  {
    p.(dismissedTips := p.dismissedTips + [tipId])
  }

  /** Dismissing the same tip twice records it twice. */
  lemma DismissTipTwiceRecordsTwice(p: Preferences, tipId: string)
    ensures multiset(WithDismissedTip(WithDismissedTip(p, tipId), tipId).dismissedTips)[tipId] ==
            multiset(p.dismissedTips)[tipId] + 2
  {
    var tips := p.dismissedTips;
    assert WithDismissedTip(WithDismissedTip(p, tipId), tipId).dismissedTips == tips + [tipId] + [tipId];
  }

  /** The provider's preferences record, replaced by each operation. */
  class PreferencesStore {
    var preferences: Preferences

    constructor ()
      ensures preferences == DefaultPreferences()
    {
      preferences := DefaultPreferences();
    }

    method UpdatePreferences(u: PreferencesUpdate)
      modifies this
      ensures preferences == MergePreferences(old(preferences), u)
    {
      preferences := MergePreferences(preferences, u);
    }

    method CompleteOnboarding(profile: RiskProfile)
      modifies this
      ensures preferences == Onboarded(old(preferences), profile)
    {
      preferences := preferences.(hasCompletedOnboarding := true, riskProfile := Some(profile));
    }

    method DismissTip(tipId: string)
      modifies this
      ensures preferences == WithDismissedTip(old(preferences), tipId)
    {
      preferences := preferences.(dismissedTips := preferences.dismissedTips + [tipId]);
    }

    /** Every field returns to its default, the dismissed tips included. */
    method ResetOnboarding()
      modifies this
      ensures preferences == DefaultPreferences()
      ensures !preferences.hasCompletedOnboarding && preferences.dismissedTips == []
    {
      preferences := DefaultPreferences();
    }
  }
}
