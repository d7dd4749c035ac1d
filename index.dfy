/**
 * The landing page: a single flag chooses between the hero section and the
 * medicine-analysis wizard. Showing the wizard mounts a new one; leaving it
 * unmounts it, together with everything it had collected.
 */
module Index {
  import MA = MedicineAnalysis

  datatype View = HeroView | AnalysisView

  class App {
    var showAnalysis: bool
    /** The mounted wizard, present exactly while the analysis view is shown. */
    var wizard: MA.Wizard?

    ghost predicate Valid()
      reads this, wizard
    {
      (showAnalysis <==> wizard != null) && (wizard != null ==> wizard.Valid())
    }

    constructor ()
      ensures Valid() && !showAnalysis && CurrentView() == HeroView
    {
      showAnalysis := false;
      wizard := null;
    }

    /** The view on screen: the wizard while `showAnalysis` holds, the hero section otherwise. */
    function CurrentView(): (v: View)
      reads this, wizard
      requires Valid()
      ensures v == AnalysisView <==> wizard != null
      ensures v == HeroView <==> wizard == null
    {
      if showAnalysis then AnalysisView else HeroView
    }

    /** `handleGetStarted`; a wizard is mounted afresh only if none is shown yet. */
    method HandleGetStarted()
      requires Valid()
      modifies this
      ensures Valid() && showAnalysis && CurrentView() == AnalysisView
      ensures old(showAnalysis) ==> wizard == old(wizard)
      ensures !old(showAnalysis) ==> fresh(wizard) && wizard.State() == MA.Initial
    {
      if !showAnalysis {
        wizard := new MA.Wizard();
      }
      showAnalysis := true;
    }

    /** `handleBackToHome`: back to the hero section; the wizard is unmounted. */
    method HandleBackToHome()
      requires Valid()
      modifies this
      ensures Valid() && !showAnalysis && wizard == null && CurrentView() == HeroView
    {
      showAnalysis := false;
      wizard := null;
    }

    /** The wizard's Back button, whose `onBack` is `handleBackToHome`. */
    method WizardBack() returns (exited: bool)
      requires Valid() && showAnalysis && MA.BackShown(wizard.State())
      modifies this, wizard
      ensures Valid()
      ensures exited <==> old(wizard.step) <= 1
      ensures exited ==> !showAnalysis && wizard == null
      ensures !exited ==> showAnalysis && wizard == old(wizard)
                          && wizard.State() == MA.Back(old(wizard.State())).state
    {
      var w := wizard;
      exited := w.HandleBack();
      if exited {
        HandleBackToHome();
      }
    }

    /** The results screen's "Back to Home" button, which calls `onBack` directly. */
    method ResultsBackToHome()
      requires Valid() && showAnalysis && wizard.showResults
      modifies this
      ensures Valid() && !showAnalysis && wizard == null
    {
      HandleBackToHome();
    }
  }

  /** Leaving the wizard and coming back finds it in its initial state. */
  method ReentryScenario()
  {
    var app := new App();
    app.HandleGetStarted();
    var w := app.wizard;
    w.SetAge("34");
    w.HandleNext();
    assert w.step == 2;
    var exited := app.WizardBack();
    assert !exited && app.wizard.step == 1 && app.wizard.formData.age == "34";
    exited := app.WizardBack();
    assert exited && app.CurrentView() == HeroView;
    app.HandleGetStarted();
    assert app.wizard.State() == MA.Initial;
  }
}
