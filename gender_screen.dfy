/**
 * The gender screen, step 2 of the flow: it records its step on mount, and on Continue merges the
 * selected gender and waits for the critical save before moving to the birthday screen.
 */
module GenderScreen {
  import opened Wrappers
  import opened Api
  import opened OnboardingSlice
  import opened OnboardingThunks
  import opened UseOnboarding
  import opened ScreenGate

  const TotalSteps := 11
  const Step := 2
  const NextRoute := "/birthday-screen"

  /** The data handleContinue merges: exactly the selected gender. */
  function GenderData(gender: string): FormData {
    map[Gender := Text(gender)]
  }

  /** After the merge, saving step 2 sends the selected gender. */
  lemma GenderSaveSendsSelection(fd: FormData, gender: string)
    requires gender != ""
    ensures StepDataRequest(Merge(fd, GenderData(gender)), Step) == Some(PutProfileGender(Text(gender)))
  {
    assert Merge(fd, GenderData(gender))[Gender] == Text(gender);
  }

  class GenderScreen {
    const ctl: OnboardingController
    var hasInitialized: bool
    /** The selected option ("female", "male" or "other"), or null. */
    var selectedGender: Option<string>

    constructor (ctl: OnboardingController)
      requires ctl.totalSteps == TotalSteps
      ensures this.ctl == ctl && !hasInitialized && selectedGender == None
    {
      this.ctl := ctl;
      hasInitialized := false;
      selectedGender := None;
    }

    /** The mount effects: the hook's total, then, once per screen instance, the cursor and the heartbeat. */
    method Mount()
      modifies this`hasInitialized, ctl.store`totalSteps, ctl.store`currentStep, ctl.api`log
      ensures hasInitialized && ctl.store.totalSteps == ctl.totalSteps
      ensures !old(hasInitialized) ==> ctl.store.currentStep == Step && ctl.api.log == old(ctl.api.log) + ProgressRequests(Step)
      ensures old(hasInitialized) ==> ctl.store.currentStep == old(ctl.store.currentStep) && ctl.api.log == old(ctl.api.log)
    {
      ctl.MountEffect();
      if !hasInitialized {
        hasInitialized := true;
        ctl.SetStep(Step);
        var _ := ctl.SaveCurrentStepNumber(Step);
      }
    }

    /** The store effect: a truthy stored gender becomes the selection. */
    method LoadFromStore()
      modifies this`selectedGender
      ensures var fd := ctl.store.formData;
              selectedGender == (if Has(fd, Gender) && fd[Gender].Text? then Some(fd[Gender].s) else old(selectedGender))
    {
      var fd := ctl.store.formData;
      if Has(fd, Gender) && fd[Gender].Text? {
        selectedGender := Some(fd[Gender].s);
      }
    }

    method SelectGender(gender: Option<string>)
      modifies this`selectedGender
      ensures selectedGender == gender
    {
      selectedGender := gender;
    }

    /**
     * handleContinue: with no (or an empty) selection only the alert, and no state changes;
     * otherwise the gender is merged, a critical cursor step is saved, and the gate decides.
     */
    method HandleContinue(now: int) returns (nav: Nav)
      modifies ctl.store, ctl.api`log, ctl`syncTimer
      ensures selectedGender.None? || selectedGender.value == "" ==>
                nav == MissingInfo && ctl.api.log == old(ctl.api.log) && ctl.store.formData == old(ctl.store.formData) &&
                ctl.syncTimer == old(ctl.syncTimer) && ctl.store.currentStep == old(ctl.store.currentStep)
      ensures selectedGender.Some? && selectedGender.value != "" ==>
                ctl.store.formData == Merge(old(ctl.store.formData), GenderData(selectedGender.value)) && nav == Push(NextRoute)
      ensures selectedGender.Some? && selectedGender.value != "" && IsCritical(old(ctl.store.currentStep)) ==>
                ctl.api.log == old(ctl.api.log) + SaveRequests(ctl.store.formData, old(ctl.store.currentStep), ctl.api.outcome, |old(ctl.api.log)|)
      ensures selectedGender.Some? && selectedGender.value != "" && !IsCritical(old(ctl.store.currentStep)) ==>
                ctl.api.log == old(ctl.api.log)
      ensures selectedGender.None? || selectedGender.value == "" ==> ctl.store.savedSteps == old(ctl.store.savedSteps)
      ensures selectedGender.Some? && selectedGender.value != "" ==>
                ctl.store.currentStep == old(ctl.store.currentStep) &&
                ctl.store.savedSteps == (if IsCritical(old(ctl.store.currentStep))
                  then SavedAfter(old(ctl.store.savedSteps), ctl.store.formData, old(ctl.store.currentStep), ctl.api.outcome, |old(ctl.api.log)|)
                  else old(ctl.store.savedSteps))
      ensures selectedGender.Some? && selectedGender.value != "" ==>
                ctl.store.State() ==
                  CriticalSaveState(UpdatedState(old(ctl.store.State()), GenderData(selectedGender.value)), old(ctl.store.currentStep),
                                    ctl.api.outcome, |old(ctl.api.log)|, now) &&
                ctl.syncTimer == TimerAfterUpdateAndSave(old(ctl.store.pendingSync), ctl.store.pendingSync, old(ctl.store.currentStep))
      ensures selectedGender.None? || selectedGender.value == "" ==> ctl.store.State() == old(ctl.store.State()) && ctl.syncTimer == old(ctl.syncTimer)
      ensures old(ctl.TimerOnlyWhilePending()) ==> ctl.TimerOnlyWhilePending()
    {
      if selectedGender.None? || selectedGender.value == "" {
        return MissingInfo;
      }
      ctl.UpdateData(GenderData(selectedGender.value));
      var critical := ctl.IsCriticalStep();
      var saveOk := true;
      if critical {
        saveOk := ctl.SaveCriticalData(None, now);
      }
      nav := AfterSave(critical, saveOk, NextRoute);
    }
  }
}
