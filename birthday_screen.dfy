/**
 * The birthday screen, step 3 of the flow: it reads a stored MM/DD/YYYY birth date back into the
 * picker, and on Continue merges the formatted date and waits for the critical save.
 */
module BirthdayScreen {
  import opened Wrappers
  import opened Api
  import opened OnboardingSlice
  import opened OnboardingThunks
  import opened UseOnboarding
  import opened ScreenGate
  import opened DateText

  const TotalSteps := 11
  const Step := 3
  const NextRoute := "/setup-profile"

  /** The data handleSubmit merges: the date formatted as MM/DD/YYYY. */
  function BirthdayData(date: JsDate): FormData {
    map[BirthDate := Text(FormatMDY(date))]
  }

  class BirthdayScreen {
    const ctl: OnboardingController
    var hasInitialized: bool
    /** The picked date, or null. An invalid Date object still counts as picked. */
    var selectedDate: Option<JsDate>

    constructor (ctl: OnboardingController)
      requires ctl.totalSteps == TotalSteps
      ensures this.ctl == ctl && !hasInitialized && selectedDate == None
    {
      this.ctl := ctl;
      hasInitialized := false;
      selectedDate := None;
    }

    /** The mount effects: the hook's total, then, once per screen instance, the cursor and the heartbeat. */
    method Mount()
      modifies this`hasInitialized, ctl.store`totalSteps, ctl.store`currentStep, ctl.api`log
      ensures hasInitialized && ctl.store.totalSteps == ctl.totalSteps
      ensures !old(hasInitialized) ==> ctl.store.currentStep == Step && ctl.api.log == old(ctl.api.log) + ProgressRequests(Step)
      ensures old(hasInitialized) ==> ctl.store.currentStep == old(ctl.store.currentStep) && ctl.api.log == old(ctl.api.log)
    {
      ctl.MountEffect();
      if !hasInitialized {
        hasInitialized := true;
        ctl.SetStep(Step);
        var _ := ctl.SaveCurrentStepNumber(Step);
      }
    }

    /**
     * The store effect: a truthy stored birth date of exactly three '/'-separated parts replaces
     * the picked date; any other text leaves it as it was.
     */
    method LoadFromStore()
      modifies this`selectedDate
      ensures var fd := ctl.store.formData;
              if Has(fd, BirthDate) && fd[BirthDate].Text? && ParseBirthDate(fd[BirthDate].s).Some?
              then selectedDate == ParseBirthDate(fd[BirthDate].s)
              else selectedDate == old(selectedDate)
    {
      var fd := ctl.store.formData;
      if Has(fd, BirthDate) && fd[BirthDate].Text? {
        var parsed := ParseBirthDate(fd[BirthDate].s);
        if parsed.Some? {
          selectedDate := parsed;
        }
      }
    }

    /** handleConfirm: the picker's date becomes the selection. */
    method ConfirmDate(date: JsDate)
      modifies this`selectedDate
      ensures selectedDate == Some(date)
    {
      selectedDate := Some(date);
    }

    /**
     * handleSubmit: with no date only the alert, and neither a merge nor a save; otherwise the
     * formatted date is merged, a critical cursor step is saved, and the gate decides.
     */
    method HandleSubmit(now: int) returns (nav: Nav)
      modifies ctl.store, ctl.api`log, ctl`syncTimer
      ensures selectedDate.None? ==>
                nav == MissingInfo && ctl.api.log == old(ctl.api.log) && ctl.store.formData == old(ctl.store.formData) &&
                ctl.store.savedSteps == old(ctl.store.savedSteps)
      ensures selectedDate.Some? ==>
                ctl.store.formData == Merge(old(ctl.store.formData), BirthdayData(selectedDate.value)) && nav == Push(NextRoute)
      ensures selectedDate.Some? && IsCritical(old(ctl.store.currentStep)) ==>
                ctl.api.log == old(ctl.api.log) + SaveRequests(ctl.store.formData, old(ctl.store.currentStep), ctl.api.outcome, |old(ctl.api.log)|)
      ensures selectedDate.Some? && !IsCritical(old(ctl.store.currentStep)) ==> ctl.api.log == old(ctl.api.log)
      ensures selectedDate.None? ==> ctl.store.currentStep == old(ctl.store.currentStep)
      ensures selectedDate.Some? ==>
                ctl.store.currentStep == old(ctl.store.currentStep) &&
                ctl.store.savedSteps == (if IsCritical(old(ctl.store.currentStep))
                  then SavedAfter(old(ctl.store.savedSteps), ctl.store.formData, old(ctl.store.currentStep), ctl.api.outcome, |old(ctl.api.log)|)
                  else old(ctl.store.savedSteps))
      ensures selectedDate.Some? ==>
                ctl.store.State() ==
                  CriticalSaveState(UpdatedState(old(ctl.store.State()), BirthdayData(selectedDate.value)), old(ctl.store.currentStep),
                                    ctl.api.outcome, |old(ctl.api.log)|, now) &&
                ctl.syncTimer == TimerAfterUpdateAndSave(old(ctl.store.pendingSync), ctl.store.pendingSync, old(ctl.store.currentStep))
      ensures selectedDate.None? ==> ctl.store.State() == old(ctl.store.State()) && ctl.syncTimer == old(ctl.syncTimer)
      ensures old(ctl.TimerOnlyWhilePending()) ==> ctl.TimerOnlyWhilePending()
    {
      if selectedDate.None? {
        return MissingInfo;
      }
      ctl.UpdateData(BirthdayData(selectedDate.value));
      var critical := ctl.IsCriticalStep();
      var saveOk := true;
      if critical {
        saveOk := ctl.SaveCriticalData(None, now);
      }
      nav := AfterSave(critical, saveOk, NextRoute);
    }
  }

  /**
   * A date picked on the screen, saved and read back, is the same day: loading the merged form
   * data restores the selection, for every valid date from year 100 on.
   */
  lemma PickedDateSurvivesReload(fd: FormData, y: int, m: int, d: int)
    requires ValidDate(y, m, d) && y >= 100
    ensures var merged := Merge(fd, BirthdayData(Date(y, m, d)));
            Has(merged, BirthDate) && ParseBirthDate(merged[BirthDate].s) == Some(Date(y, m, d))
  {
    BirthDateRoundTrip(y, m, d);
    var merged := Merge(fd, BirthdayData(Date(y, m, d)));
    assert merged[BirthDate] == Text(FormatMDY(Date(y, m, d)));
    assert FormatMDY(Date(y, m, d)) != "";
  }
}
