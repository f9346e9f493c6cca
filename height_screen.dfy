/**
 * The height screen, step 5 of the flow: one sanitised input checked against 20 to 96 inches,
 * and a submit that merges the height, runs goNext, and puts the height in the background.
 */
module HeightScreen {
  import opened Wrappers
  import opened JsText
  import opened Api
  import opened OnboardingSlice
  import opened OnboardingThunks
  import opened UseOnboarding
  import opened ScreenGate
  import opened NumericInput

  const TotalSteps := 11
  const Step := 5
  const NextRoute := "/(onboarding)/goals-screen"

  /** `Number(currentHeight)` of a valid height. */
  function HeightInches(v: string): (n: real)
    requires IsValidHeight(v)
    ensures 20.0 <= n <= 96.0
  {
    DecimalNumber(v).value
  }

  /**
   * Step 5 is critical, but the thunk saves the medical conditions for it, a field no modelled
   * screen writes: without it goNext from step 5 sends nothing and leaves the step unsaved, so
   * every later goNext from step 5 tries again; with it the first request is the medical one.
   */
  lemma HeightStepSavesMedicalConditions(fd: FormData, saved: seq<int>, outcome: nat -> bool, n: nat)
    ensures !Has(fd, MedicalConditions) ==>
              GoNextRequests(fd, Step, saved, outcome, n) == [] && GoNextSaved(fd, Step, saved, outcome, n) == saved &&
              (Step !in saved ==> SavesBeforeNext(Step, GoNextSaved(fd, Step, saved, outcome, n)))
    ensures Has(fd, MedicalConditions) && Step !in saved ==>
              GoNextRequests(fd, Step, saved, outcome, n)[0] == PostTrainingPreferences(fd[MedicalConditions])
  {
  }

  /** The emptiness test is subsumed by the range, since Number("") is 0. */
  lemma ValidHeightText(v: string)
    ensures IsValidHeight(v) <==> DecimalNumber(v).Some? && 20.0 <= DecimalNumber(v).value <= 96.0
  {
  }

  class HeightScreen {
    const ctl: OnboardingController
    var hasInitialized: bool
    var currentHeight: string

    constructor (ctl: OnboardingController)
      requires ctl.totalSteps == TotalSteps
      ensures this.ctl == ctl && !hasInitialized && currentHeight == ""
    {
      this.ctl := ctl;
      hasInitialized := false;
      currentHeight := "";
    }

    /** The mount effects: the hook's total, then, once per screen instance, the cursor and the heartbeat. */
    method Mount()
      modifies this`hasInitialized, ctl.store`totalSteps, ctl.store`currentStep, ctl.api`log
      ensures hasInitialized && ctl.store.totalSteps == ctl.totalSteps
      ensures !old(hasInitialized) ==> ctl.store.currentStep == Step && ctl.api.log == old(ctl.api.log) + ProgressRequests(Step)
      ensures old(hasInitialized) ==> ctl.store.currentStep == old(ctl.store.currentStep) && ctl.api.log == old(ctl.api.log)
    {
      ctl.MountEffect();
      if !hasInitialized {
        hasInitialized := true;
        ctl.SetStep(Step);
        var _ := ctl.SaveCurrentStepNumber(Step);
      }
    }

    /** The store effect: a truthy stored height replaces the input, as `toString()` prints it. */
    method LoadFromStore(numberText: real -> string)
      modifies this`currentHeight
      ensures var fd := ctl.store.formData;
              currentHeight == (if Has(fd, Height) then ValueText(fd[Height], numberText) else old(currentHeight))
    {
      var fd := ctl.store.formData;
      if Has(fd, Height) {
        currentHeight := ValueText(fd[Height], numberText);
      }
    }

    method ChangeHeight(v: string)
      modifies this`currentHeight
      ensures currentHeight == Sanitize(v) && OnlyNumericChars(currentHeight)
    {
      currentHeight := Sanitize(v);
    }

    /** canSubmit */
    function CanSubmit(): (b: bool)
      reads this
      ensures b ==> OnlyNumericChars(currentHeight) && DotCount(currentHeight) <= 1 && HasNonZeroDigit(currentHeight)
      ensures b ==> IsValidNumber(currentHeight)
      ensures b <==> DecimalNumber(currentHeight).Some? && 20.0 <= DecimalNumber(currentHeight).value <= 96.0
    {
      ValidHeightText(currentHeight);
      IsValidHeight(currentHeight)
    }

    /**
     * handleSubmit: nothing at all for an invalid height; otherwise the number is merged, goNext
     * runs once, and the same number is put to the profile after goNext's own requests.
     */
    method HandleSubmit(now: int) returns (nav: Nav)
      modifies ctl.store, ctl.api`log, ctl`syncTimer
      ensures !CanSubmit() ==>
                nav == Stay && ctl.api.log == old(ctl.api.log) && ctl.store.formData == old(ctl.store.formData) &&
                ctl.store.currentStep == old(ctl.store.currentStep) && ctl.syncTimer == old(ctl.syncTimer)
      ensures CanSubmit() ==>
                var h := HeightInches(currentHeight);
                var fd := Merge(old(ctl.store.formData), map[Height := Num(h)]);
                ctl.store.formData == fd && nav == Push(NextRoute) &&
                ctl.api.log == old(ctl.api.log) +
                  GoNextRequests(fd, old(ctl.store.currentStep), old(ctl.store.savedSteps), ctl.api.outcome, |old(ctl.api.log)|) +
                  [PutProfileHeight(h)] &&
                ctl.store.savedSteps == GoNextSaved(fd, old(ctl.store.currentStep), old(ctl.store.savedSteps), ctl.api.outcome, |old(ctl.api.log)|) &&
                ctl.store.currentStep == Moved(old(ctl.store.currentStep), old(ctl.store.totalSteps), Next)
      ensures CanSubmit() ==>
                ctl.store.State() ==
                  GoNextState(UpdatedState(old(ctl.store.State()), map[Height := Num(HeightInches(currentHeight))]), ctl.api.outcome, |old(ctl.api.log)|, now) &&
                ctl.syncTimer == TimerAfterUpdateAndSave(old(ctl.store.pendingSync), ctl.store.pendingSync, old(ctl.store.currentStep))
      ensures !CanSubmit() ==> ctl.store.State() == old(ctl.store.State())
      ensures old(ctl.TimerOnlyWhilePending()) ==> ctl.TimerOnlyWhilePending()
    {
      if !CanSubmit() {
        return Stay;
      }
      var h := HeightInches(currentHeight);
      ctl.UpdateData(map[Height := Num(h)]);
      var _ := ctl.GoNext(now);
      var _ := ctl.api.Send(PutProfileHeight(h));
      nav := Push(NextRoute);
    }
  }
}
