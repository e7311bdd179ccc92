/** The application shell (app/page.tsx): a four-step flow from the intro to
    the profile form, the test and the results, holding the profile and the
    report between steps. */
module Page {
  import opened Wrappers
  import opened Types

  datatype Step = Intro | ProfileStep | TestStep | ResultsStep

  /** What the page renders; `Blank` is the empty page a guard can leave. */
  datatype Screen =
    | IntroScreen
    | ProfileFormScreen
    | TestScreen(profile: UserProfile)
    | ResultsScreen(results: DiagnosisResult<SkillScore>, shownProfile: Option<UserProfile>)
    | Blank

  class Home {
    var step: Step
    var profile: Option<UserProfile>
    var results: Option<DiagnosisResult<SkillScore>>

    /** The states the flow can reach: nothing is held at the intro, the test
        has a profile, and the results step has a profile and a report. */
    predicate Consistent()
      reads this
    {
      (step == Intro ==> profile.None? && results.None?)
      && (step == ProfileStep ==> results.None?)
      && (step == TestStep ==> profile.Some? && results.None?)
      && (step == ResultsStep ==> profile.Some? && results.Some?)
    }

    constructor ()
      ensures step == Intro && profile == None && results == None
      ensures Consistent()
    {
      step := Intro;
      profile := None;
      results := None;
    }

    /** The render guards: each step shows its screen, the test only with a
        profile and the results only with a report. */
    function Render(): (s: Screen)
      reads this
      ensures s == Blank <==>
        (step == TestStep && profile.None?) || (step == ResultsStep && results.None?)
    {
      match step
      case Intro => IntroScreen
      case ProfileStep => ProfileFormScreen
      case TestStep => if profile.Some? then TestScreen(profile.value) else Blank
      case ResultsStep => if results.Some? then ResultsScreen(results.value, profile) else Blank
    }

    /** `handleStart`. */
    method HandleStart()
      modifies this
      ensures step == ProfileStep && profile == old(profile) && results == old(results)
      ensures old(step) == Intro && old(Consistent()) ==> Consistent()
    {
      step := ProfileStep;
    }

    /** `handleProfileComplete`. */
    method HandleProfileComplete(userProfile: UserProfile)
      modifies this
      ensures step == TestStep && profile == Some(userProfile) && results == old(results)
      ensures old(step) == ProfileStep && old(Consistent()) ==> Consistent()
    {
      profile := Some(userProfile);
      step := TestStep;
    }

    /** `handleTestComplete`. */
    method HandleTestComplete(diagnosisResult: DiagnosisResult<SkillScore>)
      modifies this
      ensures step == ResultsStep && results == Some(diagnosisResult) && profile == old(profile)
      ensures old(step) == TestStep && old(Consistent()) ==> Consistent()
    {
      results := Some(diagnosisResult);
      step := ResultsStep;
    }

    /** `handleRestart`. */
    method HandleRestart()
      modifies this
      ensures step == Intro && profile == None && results == None
      ensures Consistent()
    {
      step := Intro;
      profile := None;
      results := None;
    }
  }

  /** In a reachable state no guard blanks the page, and the results screen is
      always handed a profile. */
  lemma ConsistentRenders(h: Home)
    requires h.Consistent()
    ensures h.Render() != Blank
    ensures h.Render().ResultsScreen? ==> h.Render().shownProfile.Some?
    ensures h.Render().TestScreen? ==> Some(h.Render().profile) == h.profile
  {
  }

  /** Intro, profile form, test: the flow driven through its first three handlers
      ends on the results screen with the profile and the report. */
  method Journey(p: UserProfile, r: DiagnosisResult<SkillScore>) returns (h: Home)
    ensures h.Consistent() && h.Render() == ResultsScreen(r, Some(p))
  {
    h := new Home();
    h.HandleStart();
    assert h.Render() == ProfileFormScreen;
    h.HandleProfileComplete(p);
    assert h.Render() == TestScreen(p);
    h.HandleTestComplete(r);
  }
}
