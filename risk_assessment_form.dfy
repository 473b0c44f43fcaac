/**
 * The three-step risk assessment: a risk level, two sliders (maximum
 * allocation and minimum APY), and a set of preferred chains toggled by
 * checkboxes; completing it hands the answers over as a risk profile.
 */
module RiskAssessmentForm {
  import opened Common
  import opened UserPreferences

  const ChainOptions: seq<string> := ["Ethereum", "Polygon", "Arbitrum", "Optimism", "Avalanche", "BSC"]

  const StepCount: nat := 3

  function IsNot(chain: string): string -> bool {
    c => c != chain
  }

  /** `handleChainToggle`: remove the chain if selected, else append it. */
  function ToggleChain(chains: seq<string>, chain: string): (r: seq<string>)
    ensures chain in chains ==> chain !in r && forall c :: c != chain ==> (c in r <==> c in chains)
    ensures chain !in chains ==> r == chains + [chain]
  {
    if chain in chains then
      FilterMembersAll(chains, IsNot(chain));
      Filter(chains, IsNot(chain))
    else chains + [chain]
  }

  /** Membership in a filtered sequence, for every element at once. */
  lemma FilterMembersAll(s: seq<string>, p: string -> bool)
    ensures forall x :: x in Filter(s, p) <==> x in s && p(x)
  {
    forall x {
      FilterMembers(s, p, x);
    }
  }

  /** Toggling a chain twice restores which chains are selected. */
  lemma ToggleTwiceRestoresMembership(chains: seq<string>, chain: string)
    ensures forall c :: c in ToggleChain(ToggleChain(chains, chain), chain) <==> c in chains
  {
  }

  /** Toggling an unselected chain twice restores the list exactly. */
  lemma ToggleTwiceRestoresUnselected(chains: seq<string>, chain: string)
    requires chain !in chains
    ensures ToggleChain(ToggleChain(chains, chain), chain) == chains
  {
    var once := chains + [chain];
    FilterAppend(chains, chain, IsNot(chain));
    FilterAll(chains, IsNot(chain));
  }

  /** The list never holds a chain twice. */
  lemma ToggleKeepsDistinct(chains: seq<string>, chain: string)
    requires NoDuplicates(chains)
    ensures NoDuplicates(ToggleChain(chains, chain))
  {
    if chain in chains {
      FilterKeepsDistinct(chains, IsNot(chain));
    }
  }

  lemma {:induction false} FilterKeepsDistinct(s: seq<string>, p: string -> bool)
    requires NoDuplicates(s)
    ensures NoDuplicates(Filter(s, p))
    decreases |s|
  {
    if |s| > 0 {
      var init := s[..|s| - 1];
      assert NoDuplicates(init);
      FilterKeepsDistinct(init, p);
      FilterAppend(init, s[|s| - 1], p);
      assert s == init + [s[|s| - 1]];
      FilterMembers(init, p, s[|s| - 1]);
    }
  }

  /** `k` slider steps of `size`. */
  function Steps(k: int, size: real): real {
    k as real * size
  }

  /** The allocation slider's values: 10 to 100 in steps of 5. */
  predicate AllocationOnGrid(x: real) {
    exists k :: 2 <= k <= 20 && x == Steps(k, 5.0)
  }

  /** The minimum-APY slider's values: 1 to 20 in steps of 0.5. */
  predicate MinApyOnGrid(x: real) {
    exists k :: 2 <= k <= 40 && x == Steps(k, 0.5)
  }

  /** The grids lie within the sliders' ranges. */
  lemma GridsWithinRanges(x: real, y: real)
    requires AllocationOnGrid(x) && MinApyOnGrid(y)
    ensures 10.0 <= x <= 100.0 && 1.0 <= y <= 20.0
  {
  }

  /** The answers and the step shown. */
  datatype FormState = FormState(step: nat, level: RiskLevel, maxAllocation: real, chains: seq<string>, minApy: real)

  function InitialForm(): (f: FormState)
    ensures f.step == 0 && f.level == Moderate && f.maxAllocation == 75.0
    ensures f.chains == ["Ethereum"] && f.minApy == 5.0
  {
    FormState(0, Moderate, 75.0, ["Ethereum"], 5.0)
  }

  predicate ValidForm(f: FormState) {
    f.step < StepCount && AllocationOnGrid(f.maxAllocation) && MinApyOnGrid(f.minApy) && NoDuplicates(f.chains)
  }

  lemma InitialFormValid()
    ensures ValidForm(InitialForm())
  {
    assert Steps(15, 5.0) == 75.0;
    assert Steps(10, 0.5) == 5.0;
  }

  predicate PreviousShown(f: FormState) {
    f.step > 0
  }

  /** Next shows before the last step; Complete shows at it. */
  predicate NextShown(f: FormState) {
    f.step < StepCount - 1
  }

  /** `disabled={currentStep === 2 && preferredChains.length === 0}` on the Next button. */
  predicate NextDisabled(f: FormState) {
    f.step == 2 && |f.chains| == 0
  }

  predicate CompleteDisabled(f: FormState) {
    |f.chains| == 0
  }

  /** Next's guard never fires: Next only shows at steps 0 and 1. Only Complete insists on a chain. */
  lemma NextGuardUnreachable(f: FormState)
    requires NextShown(f)
    ensures !NextDisabled(f)
  {
  }

  /** `handleComplete`: the profile copies the answers. */
  function Profile(f: FormState): (p: RiskProfile)
    ensures p.level == f.level && p.maxAllocation == f.maxAllocation
    ensures p.preferredChains == f.chains && p.minApy == f.minApy
  {
    RiskProfile(f.level, f.maxAllocation, f.chains, f.minApy)
  }

  /** A completed profile names at least one chain, each once, and its sliders lie on their grids. */
  lemma CompletedProfileIsSound(f: FormState)
    requires ValidForm(f) && !CompleteDisabled(f)
    ensures |Profile(f).preferredChains| > 0 && NoDuplicates(Profile(f).preferredChains)
    ensures AllocationOnGrid(Profile(f).maxAllocation) && MinApyOnGrid(Profile(f).minApy)
  {
  }

  class RiskAssessmentFormState {
    var form: FormState

    constructor ()
      ensures form == InitialForm()
    {
      form := FormState(0, Moderate, 75.0, ["Ethereum"], 5.0);
    }

    method SelectLevel(level: RiskLevel)
      modifies this
      ensures form == old(form).(level := level)
    {
      form := form.(level := level);
    }

    /** The allocation slider reports values on its grid. */
    method SetMaxAllocation(x: real)
      requires AllocationOnGrid(x)
      modifies this
      ensures form == old(form).(maxAllocation := x)
    {
      form := form.(maxAllocation := x);
    }

    method SetMinApy(x: real)
      requires MinApyOnGrid(x)
      modifies this
      ensures form == old(form).(minApy := x)
    {
      form := form.(minApy := x);
    }

    method HandleChainToggle(chain: string)
      modifies this
      ensures form == old(form).(chains := ToggleChain(old(form).chains, chain))
    {
      var chains := form.chains;
      if chain in chains {
        chains := Filter(chains, IsNot(chain));
      } else {
        chains := chains + [chain];
      }
      form := form.(chains := chains);
    }

    /** The Next button, shown before the last step. */
    method Next()
      requires NextShown(form)
      modifies this
      ensures form == old(form).(step := old(form).step + 1)
    {
      form := form.(step := form.step + 1);
    }

    /** The Previous button, shown after the first step. */
    method Previous()
      requires PreviousShown(form)
      modifies this
      ensures form == old(form).(step := old(form).step - 1)
    {
      form := form.(step := form.step - 1);
    }

    /** The Complete button, shown at the last step and enabled once a chain is selected. */
    method HandleComplete() returns (profile: RiskProfile)
      requires !NextShown(form) && !CompleteDisabled(form)
      ensures profile == Profile(form)
    {
      profile := RiskProfile(form.level, form.maxAllocation, form.chains, form.minApy);
    }
  }

  /** Every button keeps the form valid. */
  lemma ButtonsKeepFormValid(f: FormState, chain: string, level: RiskLevel)
    requires ValidForm(f)
    ensures NextShown(f) ==> ValidForm(f.(step := f.step + 1))
    ensures PreviousShown(f) ==> ValidForm(f.(step := f.step - 1))
    ensures ValidForm(f.(chains := ToggleChain(f.chains, chain)))
    ensures ValidForm(f.(level := level))
  {
    ToggleKeepsDistinct(f.chains, chain);
  }
}
