/**
 * The name screen, step 1 of the flow: it records its step on mount, and on Continue merges the
 * trimmed names and waits for the critical save before moving to the gender screen.
 */
module NameScreen {
  import opened Wrappers
  import opened JsText
  import opened Api
  import opened OnboardingSlice
  import opened OnboardingThunks
  import opened UseOnboarding
  import opened ScreenGate

  const TotalSteps := 11
  const Step := 1
  const NextRoute := "/gender-screen"

  /** Both trimmed names are non-empty. */
  predicate NamesPresent(first: string, last: string) {
    Trim(first) != "" && Trim(last) != ""
  }

  /** canContinue: neither name is blank and no request is in flight. */
  function CanContinue(first: string, last: string, isLoading: bool): (b: bool)
    ensures b <==> !IsBlank(first) && !IsBlank(last) && !isLoading
  {
    NamesPresent(first, last) && !isLoading
  }

  /** The data handleContinue merges into the store. */
  function NameData(first: string, last: string): FormData {
    map[FirstName := Text(Trim(first)), LastName := Text(Trim(last))]
  }

  /** Once the trimmed names are merged, saving step 1 sends exactly those names. */
  lemma NameSaveSendsTrimmedNames(fd: FormData, first: string, last: string)
    requires NamesPresent(first, last)
    ensures StepDataRequest(Merge(fd, NameData(first, last)), Step) == Some(PutProfileName(Text(Trim(first)), Text(Trim(last))))
  {
    var m := Merge(fd, NameData(first, last));
    assert m[FirstName] == Text(Trim(first)) && m[LastName] == Text(Trim(last));
  }

  /** A name of spaces only does not count: Continue stays disabled. */
  lemma BlankNameCannotContinue(first: string, last: string, isLoading: bool)
    requires IsBlank(first)
    ensures !CanContinue(first, last, isLoading)
  {
  }

  class NameScreen {
    const ctl: OnboardingController
    /** The hasInitialized ref. */
    var hasInitialized: bool
    var firstName: string
    var lastName: string

    constructor (ctl: OnboardingController)
      requires ctl.totalSteps == TotalSteps
      ensures this.ctl == ctl && !hasInitialized && firstName == "" && lastName == ""
    {
      this.ctl := ctl;
      hasInitialized := false;
      firstName := "";
      lastName := "";
    }

    /** The mount effects: the hook's total, then, once per screen instance, the cursor and the heartbeat. */
    method Mount()
      modifies this`hasInitialized, ctl.store`totalSteps, ctl.store`currentStep, ctl.api`log
      ensures hasInitialized && ctl.store.totalSteps == ctl.totalSteps
      ensures !old(hasInitialized) ==> ctl.store.currentStep == Step && ctl.api.log == old(ctl.api.log) + ProgressRequests(Step)
      ensures old(hasInitialized) ==> ctl.store.currentStep == old(ctl.store.currentStep) && ctl.api.log == old(ctl.api.log)
    {
      ctl.MountEffect();
      if !hasInitialized {
        hasInitialized := true;
        ctl.SetStep(Step);
        var _ := ctl.SaveCurrentStepNumber(Step);
      }
    }

    /** The store effect: a truthy stored name replaces the field's text. */
    method LoadFromStore()
      modifies this`firstName, this`lastName
      ensures var fd := ctl.store.formData;
              firstName == (if Has(fd, FirstName) && fd[FirstName].Text? then fd[FirstName].s else old(firstName)) &&
              lastName == (if Has(fd, LastName) && fd[LastName].Text? then fd[LastName].s else old(lastName))
    {
      var fd := ctl.store.formData;
      if Has(fd, FirstName) && fd[FirstName].Text? {
        firstName := fd[FirstName].s;
      }
      if Has(fd, LastName) && fd[LastName].Text? {
        lastName := fd[LastName].s;
      }
    }

    /** Typing in the first-name field: the raw text is kept, the trimmed text is merged into the store. */
    method ChangeFirstName(text: string)
      modifies this`firstName, ctl.store`formData, ctl.store`pendingSync, ctl`syncTimer
      ensures firstName == text
      ensures ctl.store.formData == Merge(old(ctl.store.formData), map[FirstName := Text(Trim(text))])
      ensures ctl.store.State() == UpdatedState(old(ctl.store.State()), map[FirstName := Text(Trim(text))])
      ensures ctl.syncTimer == if old(ctl.store.pendingSync) then Some(ctl.store.currentStep) else None
      ensures ctl.TimerOnlyWhilePending()
    {
      firstName := text;
      ctl.UpdateData(map[FirstName := Text(Trim(text))]);
    }

    /** Typing in the last-name field. */
    method ChangeLastName(text: string)
      modifies this`lastName, ctl.store`formData, ctl.store`pendingSync, ctl`syncTimer
      ensures lastName == text
      ensures ctl.store.formData == Merge(old(ctl.store.formData), map[LastName := Text(Trim(text))])
      ensures ctl.store.State() == UpdatedState(old(ctl.store.State()), map[LastName := Text(Trim(text))])
      ensures ctl.syncTimer == if old(ctl.store.pendingSync) then Some(ctl.store.currentStep) else None
      ensures ctl.TimerOnlyWhilePending()
    {
      lastName := text;
      ctl.UpdateData(map[LastName := Text(Trim(text))]);
    }

    /**
     * handleContinue: the missing-information alert unless both trimmed names are non-empty;
     * otherwise the trimmed names are merged, a critical cursor step is saved, and the gate
     * decides. Since the save always answers true, the gate always pushes the gender screen.
     */
    method HandleContinue(now: int) returns (nav: Nav)
      modifies ctl.store, ctl.api`log, ctl`syncTimer
      ensures !NamesPresent(firstName, lastName) ==>
                nav == MissingInfo && ctl.api.log == old(ctl.api.log) && ctl.store.formData == old(ctl.store.formData)
      ensures NamesPresent(firstName, lastName) ==>
                ctl.store.formData == Merge(old(ctl.store.formData), NameData(firstName, lastName)) && nav == Push(NextRoute)
      ensures NamesPresent(firstName, lastName) && IsCritical(old(ctl.store.currentStep)) ==>
                ctl.api.log == old(ctl.api.log) + SaveRequests(ctl.store.formData, old(ctl.store.currentStep), ctl.api.outcome, |old(ctl.api.log)|)
      ensures NamesPresent(firstName, lastName) && !IsCritical(old(ctl.store.currentStep)) ==> ctl.api.log == old(ctl.api.log)
      ensures !NamesPresent(firstName, lastName) ==>
                ctl.store.currentStep == old(ctl.store.currentStep) && ctl.store.savedSteps == old(ctl.store.savedSteps)
      ensures NamesPresent(firstName, lastName) ==>
                ctl.store.currentStep == old(ctl.store.currentStep) &&
                ctl.store.savedSteps == (if IsCritical(old(ctl.store.currentStep))
                  then SavedAfter(old(ctl.store.savedSteps), ctl.store.formData, old(ctl.store.currentStep), ctl.api.outcome, |old(ctl.api.log)|)
                  else old(ctl.store.savedSteps))
      ensures NamesPresent(firstName, lastName) ==>
                ctl.store.State() ==
                  CriticalSaveState(UpdatedState(old(ctl.store.State()), NameData(firstName, lastName)), old(ctl.store.currentStep),
                                    ctl.api.outcome, |old(ctl.api.log)|, now) &&
                ctl.syncTimer == TimerAfterUpdateAndSave(old(ctl.store.pendingSync), ctl.store.pendingSync, old(ctl.store.currentStep))
      ensures !NamesPresent(firstName, lastName) ==> ctl.store.State() == old(ctl.store.State()) && ctl.syncTimer == old(ctl.syncTimer)
      ensures old(ctl.TimerOnlyWhilePending()) ==> ctl.TimerOnlyWhilePending()
    {
      if !NamesPresent(firstName, lastName) {
        return MissingInfo;
      }
      ctl.UpdateData(NameData(firstName, lastName));
      var critical := ctl.IsCriticalStep();
      var saveOk := true;
      if critical {
        saveOk := ctl.SaveCriticalData(None, now);
      }
      nav := AfterSave(critical, saveOk, NextRoute);
    }
  }
}
