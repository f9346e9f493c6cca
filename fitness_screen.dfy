/**
 * The fitness screen, step 7 of the flow: VO2 max and race time as sanitised texts. The submit
 * merges the texts themselves, runs goNext, and posts their numbers in the background.
 */
module FitnessScreen {
  import opened Wrappers
  import opened JsText
  import opened Api
  import opened OnboardingSlice
  import opened OnboardingThunks
  import opened UseOnboarding
  import opened ScreenGate
  import opened NumericInput

  const TotalSteps := 11
  const Step := 7
  const NextRoute := "/(onboarding)/medical-screen"

  /** The data handleSubmit merges: the two texts as typed, not their numbers. */
  function FitnessData(vo2Max: string, raceTime: string): FormData {
    map[Vo2Max := Text(vo2Max), RaceTime := Text(raceTime)]
  }

  /** The merged fitness values are both truthy texts whenever the submit is enabled. */
  lemma FitnessDataIsText(fd: FormData, vo2Max: string, raceTime: string)
    requires IsValidNumber(vo2Max) && IsValidNumber(raceTime)
    ensures var m := Merge(fd, FitnessData(vo2Max, raceTime));
            Has(m, Vo2Max) && Has(m, RaceTime) && m[Vo2Max] == Text(vo2Max) && m[RaceTime] == Text(raceTime)
  {
    var m := Merge(fd, FitnessData(vo2Max, raceTime));
    assert m[Vo2Max] == Text(vo2Max);
    assert m[RaceTime] == Text(raceTime);
  }

  /**
   * From its own cursor step the fitness screen's goNext sends nothing: step 7 is not critical,
   * although the thunk's numbering would save the current weight for it.
   */
  lemma FitnessStepSavesNothing(fd: FormData, saved: seq<int>, outcome: nat -> bool, n: nat)
    ensures GoNextRequests(fd, Step, saved, outcome, n) == []
    ensures GoNextSaved(fd, Step, saved, outcome, n) == saved
    ensures Has(fd, CurrentWeight) ==> StepDataRequest(fd, Step) == Some(PostCurrentWeight(fd[CurrentWeight]))
  {
  }

  class FitnessScreen {
    const ctl: OnboardingController
    var hasInitialized: bool
    var vo2Max: string
    var raceTime: string

    constructor (ctl: OnboardingController)
      requires ctl.totalSteps == TotalSteps
      ensures this.ctl == ctl && !hasInitialized && vo2Max == "" && raceTime == ""
    {
      this.ctl := ctl;
      hasInitialized := false;
      vo2Max := "";
      raceTime := "";
    }

    /** The mount effects: the hook's total, then, once per screen instance, the cursor and the heartbeat. */
    method Mount()
      modifies this`hasInitialized, ctl.store`totalSteps, ctl.store`currentStep, ctl.api`log
      ensures hasInitialized && ctl.store.totalSteps == ctl.totalSteps
      ensures !old(hasInitialized) ==> ctl.store.currentStep == Step && ctl.api.log == old(ctl.api.log) + ProgressRequests(Step)
      ensures old(hasInitialized) ==> ctl.store.currentStep == old(ctl.store.currentStep) && ctl.api.log == old(ctl.api.log)
    {
      ctl.MountEffect();
      if !hasInitialized {
        hasInitialized := true;
        ctl.SetStep(Step);
        var _ := ctl.SaveCurrentStepNumber(Step);
      }
    }

    /** The store effect: each truthy stored value replaces its input, as `toString()` prints it. */
    method LoadFromStore(numberText: real -> string)
      modifies this`vo2Max, this`raceTime
      ensures var fd := ctl.store.formData;
              vo2Max == (if Has(fd, Vo2Max) then ValueText(fd[Vo2Max], numberText) else old(vo2Max)) &&
              raceTime == (if Has(fd, RaceTime) then ValueText(fd[RaceTime], numberText) else old(raceTime))
    {
      var fd := ctl.store.formData;
      if Has(fd, Vo2Max) {
        vo2Max := ValueText(fd[Vo2Max], numberText);
      }
      if Has(fd, RaceTime) {
        raceTime := ValueText(fd[RaceTime], numberText);
      }
    }

    method ChangeVo2Max(v: string)
      modifies this`vo2Max
      ensures vo2Max == Sanitize(v) && OnlyNumericChars(vo2Max)
    {
      vo2Max := Sanitize(v);
    }

    method ChangeRaceTime(v: string)
      modifies this`raceTime
      ensures raceTime == Sanitize(v) && OnlyNumericChars(raceTime)
    {
      raceTime := Sanitize(v);
    }

    /** canSubmit */
    function CanSubmit(): (b: bool)
      reads this
      ensures b <==> OnlyNumericChars(vo2Max) && DotCount(vo2Max) <= 1 && HasNonZeroDigit(vo2Max) &&
                     OnlyNumericChars(raceTime) && DotCount(raceTime) <= 1 && HasNonZeroDigit(raceTime)
    {
      IsValidNumber(vo2Max) && IsValidNumber(raceTime)
    }

    /**
     * handleSubmit: nothing at all unless both values are valid; otherwise the texts are merged,
     * goNext runs once, and their numbers are posted after goNext's own requests.
     */
    method HandleSubmit(now: int) returns (nav: Nav)
      modifies ctl.store, ctl.api`log, ctl`syncTimer
      ensures !CanSubmit() ==>
                nav == Stay && ctl.api.log == old(ctl.api.log) && ctl.store.formData == old(ctl.store.formData) &&
                ctl.store.currentStep == old(ctl.store.currentStep) && ctl.syncTimer == old(ctl.syncTimer)
      ensures CanSubmit() ==>
                var fd := Merge(old(ctl.store.formData), FitnessData(vo2Max, raceTime));
                ctl.store.formData == fd && nav == Push(NextRoute) &&
                ctl.api.log == old(ctl.api.log) +
                  GoNextRequests(fd, old(ctl.store.currentStep), old(ctl.store.savedSteps), ctl.api.outcome, |old(ctl.api.log)|) +
                  [PostFitnessData(DecimalNumber(vo2Max).value, DecimalNumber(raceTime).value)] &&
                ctl.store.savedSteps == GoNextSaved(fd, old(ctl.store.currentStep), old(ctl.store.savedSteps), ctl.api.outcome, |old(ctl.api.log)|) &&
                ctl.store.currentStep == Moved(old(ctl.store.currentStep), old(ctl.store.totalSteps), Next)
      ensures CanSubmit() ==>
                ctl.store.State() ==
                  GoNextState(UpdatedState(old(ctl.store.State()), FitnessData(vo2Max, raceTime)), ctl.api.outcome, |old(ctl.api.log)|, now) &&
                ctl.syncTimer == TimerAfterUpdateAndSave(old(ctl.store.pendingSync), ctl.store.pendingSync, old(ctl.store.currentStep))
      ensures !CanSubmit() ==> ctl.store.State() == old(ctl.store.State())
      ensures old(ctl.TimerOnlyWhilePending()) ==> ctl.TimerOnlyWhilePending()
    {
      if !CanSubmit() {
        return Stay;
      }
      ctl.UpdateData(FitnessData(vo2Max, raceTime));
      var _ := ctl.GoNext(now);
      var _ := ctl.api.Send(PostFitnessData(DecimalNumber(vo2Max).value, DecimalNumber(raceTime).value));
      nav := Push(NextRoute);
    }
  }
}
