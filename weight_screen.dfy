/**
 * The weight screen, step 4 of the flow: two sanitised text inputs, a submit that merges both
 * weights as numbers, runs goNext, and posts the two texts in the background.
 */
module WeightScreen {
  import opened Wrappers
  import opened JsText
  import opened Api
  import opened OnboardingSlice
  import opened OnboardingThunks
  import opened UseOnboarding
  import opened ScreenGate
  import opened NumericInput

  const TotalSteps := 11
  const Step := 4
  const NextRoute := "/(onboarding)/height-screen"

  /** Both weights are valid positive numbers. */
  predicate CanSubmitWeights(current: string, target: string) {
    IsValidNumber(current) && IsValidNumber(target)
  }

  /** The data handleSubmit merges: `Number()` of both texts. */
  function WeightData(current: string, target: string): (fd: FormData)
    requires CanSubmitWeights(current, target)
    ensures fd.Keys == {CurrentWeight, TargetWeight}
    ensures fd[CurrentWeight].Num? && fd[CurrentWeight].n > 0.0 && fd[TargetWeight].Num? && fd[TargetWeight].n > 0.0
  {
    map[CurrentWeight := Num(DecimalNumber(current).value), TargetWeight := Num(DecimalNumber(target).value)]
  }

  /** Submittable texts are digits with at most one dot and some digit other than '0'. */
  lemma WeightDataIsNumeric(current: string, target: string)
    requires CanSubmitWeights(current, target)
    ensures OnlyNumericChars(current) && DotCount(current) <= 1 && HasNonZeroDigit(current)
    ensures OnlyNumericChars(target) && DotCount(target) <= 1 && HasNonZeroDigit(target)
  {
  }

  /**
   * From its own cursor step the weight screen's goNext sends nothing and records nothing: step 4
   * is not critical, although the thunk's numbering would save the goal for it.
   */
  lemma WeightStepSavesNothing(fd: FormData, saved: seq<int>, outcome: nat -> bool, n: nat)
    ensures GoNextRequests(fd, Step, saved, outcome, n) == []
    ensures GoNextSaved(fd, Step, saved, outcome, n) == saved
    ensures Has(fd, PrimaryGoal) ==> StepDataRequest(fd, Step) == Some(PostGoals(fd[PrimaryGoal]))
  {
  }

  class WeightScreen {
    const ctl: OnboardingController
    var hasInitialized: bool
    var currentWeight: string
    var targetWeight: string

    constructor (ctl: OnboardingController)
      requires ctl.totalSteps == TotalSteps
      ensures this.ctl == ctl && !hasInitialized && currentWeight == "" && targetWeight == ""
    {
      this.ctl := ctl;
      hasInitialized := false;
      currentWeight := "";
      targetWeight := "";
    }

    /** The mount effects: the hook's total, then, once per screen instance, the cursor and the heartbeat. */
    method Mount()
      modifies this`hasInitialized, ctl.store`totalSteps, ctl.store`currentStep, ctl.api`log
      ensures hasInitialized && ctl.store.totalSteps == ctl.totalSteps
      ensures !old(hasInitialized) ==> ctl.store.currentStep == Step && ctl.api.log == old(ctl.api.log) + ProgressRequests(Step)
      ensures old(hasInitialized) ==> ctl.store.currentStep == old(ctl.store.currentStep) && ctl.api.log == old(ctl.api.log)
    {
      ctl.MountEffect();
      if !hasInitialized {
        hasInitialized := true;
        ctl.SetStep(Step);
        var _ := ctl.SaveCurrentStepNumber(Step);
      }
    }

    /** The store effect: each truthy stored weight replaces its input, as `toString()` prints it. */
    method LoadFromStore(numberText: real -> string)
      modifies this`currentWeight, this`targetWeight
      ensures var fd := ctl.store.formData;
              currentWeight == (if Has(fd, CurrentWeight) then ValueText(fd[CurrentWeight], numberText) else old(currentWeight)) &&
              targetWeight == (if Has(fd, TargetWeight) then ValueText(fd[TargetWeight], numberText) else old(targetWeight))
    {
      var fd := ctl.store.formData;
      if Has(fd, CurrentWeight) {
        currentWeight := ValueText(fd[CurrentWeight], numberText);
      }
      if Has(fd, TargetWeight) {
        targetWeight := ValueText(fd[TargetWeight], numberText);
      }
    }

    method ChangeCurrent(v: string)
      modifies this`currentWeight
      ensures currentWeight == Sanitize(v) && OnlyNumericChars(currentWeight)
    {
      currentWeight := Sanitize(v);
    }

    method ChangeTarget(v: string)
      modifies this`targetWeight
      ensures targetWeight == Sanitize(v) && OnlyNumericChars(targetWeight)
    {
      targetWeight := Sanitize(v);
    }

    /** canSubmit */
    function CanSubmit(): (b: bool)
      reads this
      ensures b <==> OnlyNumericChars(currentWeight) && DotCount(currentWeight) <= 1 && HasNonZeroDigit(currentWeight) &&
                     OnlyNumericChars(targetWeight) && DotCount(targetWeight) <= 1 && HasNonZeroDigit(targetWeight)
    {
      CanSubmitWeights(currentWeight, targetWeight)
    }

    /**
     * handleSubmit: nothing at all unless both weights are valid; otherwise the numbers are
     * merged, goNext runs once, and the weight texts are posted after goNext's own requests.
     */
    method HandleSubmit(now: int) returns (nav: Nav)
      modifies ctl.store, ctl.api`log, ctl`syncTimer
      ensures !CanSubmit() ==>
                nav == Stay && ctl.api.log == old(ctl.api.log) && ctl.store.formData == old(ctl.store.formData) &&
                ctl.store.currentStep == old(ctl.store.currentStep) && ctl.syncTimer == old(ctl.syncTimer)
      ensures CanSubmit() ==>
                var fd := Merge(old(ctl.store.formData), WeightData(currentWeight, targetWeight));
                ctl.store.formData == fd && nav == Push(NextRoute) &&
                ctl.api.log == old(ctl.api.log) +
                  GoNextRequests(fd, old(ctl.store.currentStep), old(ctl.store.savedSteps), ctl.api.outcome, |old(ctl.api.log)|) +
                  [PostWeight(currentWeight, targetWeight)] &&
                ctl.store.savedSteps == GoNextSaved(fd, old(ctl.store.currentStep), old(ctl.store.savedSteps), ctl.api.outcome, |old(ctl.api.log)|) &&
                ctl.store.currentStep == Moved(old(ctl.store.currentStep), old(ctl.store.totalSteps), Next)
      ensures CanSubmit() ==>
                ctl.store.State() ==
                  GoNextState(UpdatedState(old(ctl.store.State()), WeightData(currentWeight, targetWeight)), ctl.api.outcome, |old(ctl.api.log)|, now) &&
                ctl.syncTimer == TimerAfterUpdateAndSave(old(ctl.store.pendingSync), ctl.store.pendingSync, old(ctl.store.currentStep))
      ensures !CanSubmit() ==> ctl.store.State() == old(ctl.store.State())
      ensures old(ctl.TimerOnlyWhilePending()) ==> ctl.TimerOnlyWhilePending()
    {
      if !CanSubmit() {
        return Stay;
      }
      ctl.UpdateData(WeightData(currentWeight, targetWeight));
      var _ := ctl.GoNext(now);
      var _ := ctl.api.Send(PostWeight(currentWeight, targetWeight));
      nav := Push(NextRoute);
    }
  }
}
