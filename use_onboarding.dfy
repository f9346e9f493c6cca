/**
 * The onboarding hook: the controller every onboarding screen talks to. It reads the store when
 * it is called, runs the save gate before moving on, and keeps one debounce timer.
 */
module UseOnboarding {
  import opened Wrappers
  import opened Api
  import opened OnboardingSlice
  import opened OnboardingThunks

  /** The debounce delay of updateData, in milliseconds. */
  const DebounceMs := 500

  /** The step saveCriticalData works on: a truthy step number, otherwise the cursor (0 and undefined fall back). */
  function SaveTarget(stepNumber: Option<int>, current: int): (t: int)
    ensures stepNumber.Some? && stepNumber.value != 0 ==> t == stepNumber.value
    ensures stepNumber.None? || stepNumber.value == 0 ==> t == current
  {
    if stepNumber.Some? && stepNumber.value != 0 then stepNumber.value else current
  }

  /**
   * The answer of saveCriticalData once its save, if any, has settled: true for a target that is
   * not critical, otherwise true exactly when saveStepData fulfilled.
   */
  function GateAnswer(target: int, settled: Option<SaveOutcome>): (ok: bool)
    requires IsCritical(target) <==> settled.Some?
    ensures !IsCritical(target) ==> ok
    ensures IsCritical(target) ==> (ok <==> settled.value.Fulfilled?)
  {
    match settled
    case None => true
    case Some(o) => o.Fulfilled?
  }

  /**
   * The gate could only block on a rejected save, and saveStepData rejects only through its catch
   * branch; since the client never throws, every save it runs answers true.
   */
  lemma GateBlocksOnlyOnException(step: int, message: string)
    requires IsCritical(step)
    ensures GateAnswer(step, Some(Fulfilled(step, true, false)))
    ensures !GateAnswer(step, Some(OutcomeOnException(step, message)))
  {
  }

  /** Whether goNext runs a save first: for a critical cursor step that is not yet saved. */
  predicate SavesBeforeNext(step: int, saved: seq<int>) {
    IsCritical(step) && step !in saved
  }

  /** The requests goNext sends from cursor step `step`: those of its save, if it runs one. */
  function GoNextRequests(fd: FormData, step: int, saved: seq<int>, outcome: nat -> bool, n: nat): seq<Request> {
    if SavesBeforeNext(step, saved) then SaveRequests(fd, step, outcome, n) else []
  }

  /** Whether goNext marks its cursor step saved: it runs a save, and that save succeeds. */
  predicate GoNextMarks(fd: FormData, step: int, saved: seq<int>, outcome: nat -> bool, n: nat) {
    SavesBeforeNext(step, saved) && SaveSucceeds(fd, step, outcome, n)
  }

  /** The saved steps after goNext. */
  function GoNextSaved(fd: FormData, step: int, saved: seq<int>, outcome: nat -> bool, n: nat): seq<int> {
    if SavesBeforeNext(step, saved) then SavedAfter(saved, fd, step, outcome, n) else saved
  }

  /** The store after goNext: the save of a critical unsaved cursor step, then one nextStep. */
  function GoNextState(s: StoreState, outcome: nat -> bool, n: nat, now: int): StoreState {
    var afterSave := if SavesBeforeNext(s.currentStep, s.savedSteps) then SavedState(s, s.currentStep, outcome, n, now) else s;
    afterSave.(currentStep := Moved(s.currentStep, s.totalSteps, Next))
  }

  /** The store after saveCriticalData of target t: its save when t is critical, and nothing otherwise. */
  function CriticalSaveState(s: StoreState, t: int, outcome: nat -> bool, n: nat, now: int): StoreState {
    if IsCritical(t) then SavedState(s, t, outcome, n, now) else s
  }

  /**
   * The debounce timer after a screen's updateData followed by its save: a timer capturing the
   * cursor survives only when the data was pending before and still is.
   */
  function TimerAfterUpdateAndSave(pendingBefore: bool, pendingAfter: bool, cursor: int): Option<int> {
    if pendingBefore && pendingAfter then Some(cursor) else None
  }

  /**
   * goNext sends at most the data request and the heartbeat of its cursor step, nothing at all
   * for a step that is not critical or already saved, and records at most the cursor step.
   */
  lemma GoNextSavesOnlyTheCursor(fd: FormData, step: int, saved: seq<int>, outcome: nat -> bool, n: nat)
    ensures |GoNextRequests(fd, step, saved, outcome, n)| <= 2
    ensures !IsCritical(step) || step in saved ==>
              GoNextRequests(fd, step, saved, outcome, n) == [] && GoNextSaved(fd, step, saved, outcome, n) == saved
    ensures forall x :: x in GoNextSaved(fd, step, saved, outcome, n) ==> x in saved || x == step
  {
    AddOnceMembers(saved, step);
  }

  class OnboardingController {
    const store: OnboardingStore
    const api: ApiClient
    /** The total the screen passes to the hook. */
    const totalSteps: int
    /** syncTimeoutRef: the pending debounce timer, holding the cursor it captured when scheduled. */
    var syncTimer: Option<int>

    constructor (store: OnboardingStore, api: ApiClient, totalSteps: int)
      ensures this.store == store && this.api == api && this.totalSteps == totalSteps
      ensures syncTimer == None
    {
      this.store := store;
      this.api := api;
      this.totalSteps := totalSteps;
      syncTimer := None;
    }

    /**
     * The timer is only ever armed while the store's data is marked pending: every change of the
     * flag runs the cleanup of the effect keyed on it, which cancels the timer.
     */
    predicate TimerOnlyWhilePending()
      reads this`syncTimer, store`pendingSync
    {
      syncTimer.Some? ==> store.pendingSync
    }

    /** The cleanup of the effect keyed on pendingSync: once the flag differs from `before`, the pending timer is cancelled. */
    method PendingSyncCleanup(before: bool)
      modifies this`syncTimer
      ensures syncTimer == if store.pendingSync != before then None else old(syncTimer)
    {
      if store.pendingSync != before {
        syncTimer := None;
      }
    }

    /** isCriticalStep, read from the store's cursor. */
    function IsCriticalStep(): (b: bool)
      reads this, store
      ensures b <==> store.currentStep in {1, 2, 3, 5, 9}
    {
      IsCritical(store.currentStep)
    }

    /** The mount effect: the store's total becomes this hook's total, whatever it was. */
    method MountEffect()
      modifies store`totalSteps
      ensures store.totalSteps == totalSteps
    {
      store.SetTotalSteps(totalSteps);
    }

    /** setStep */
    method SetStep(step: int)
      modifies store`currentStep
      ensures store.currentStep == step
    {
      store.SetCurrentStep(step);
    }

    /**
     * goNext: saves the cursor's step first when it is critical and not yet saved, then moves the
     * cursor on once, whatever the save did.
     */
    method GoNext(now: int) returns (saved: bool)
      modifies store, api`log, this`syncTimer
      ensures saved <==> old(SavesBeforeNext(store.currentStep, store.savedSteps))
      ensures api.log == old(api.log) + GoNextRequests(old(store.formData), old(store.currentStep), old(store.savedSteps), api.outcome, |old(api.log)|)
      ensures store.savedSteps == GoNextSaved(old(store.formData), old(store.currentStep), old(store.savedSteps), api.outcome, |old(api.log)|)
      ensures store.currentStep == Moved(old(store.currentStep), old(store.totalSteps), Next)
      ensures store.formData == old(store.formData) && store.totalSteps == old(store.totalSteps)
      ensures store.isCompleted == old(store.isCompleted) && store.skippedSteps == old(store.skippedSteps)
      ensures GoNextMarks(old(store.formData), old(store.currentStep), old(store.savedSteps), api.outcome, |old(api.log)|) ==>
                store.lastSavedAt == Some(now) && !store.pendingSync
      ensures !GoNextMarks(old(store.formData), old(store.currentStep), old(store.savedSteps), api.outcome, |old(api.log)|) ==>
                store.lastSavedAt == old(store.lastSavedAt) && store.pendingSync == old(store.pendingSync)
      ensures saved ==> !store.isLoading && store.error == None
      ensures !saved ==> store.isLoading == old(store.isLoading) && store.error == old(store.error)
      ensures store.State() == GoNextState(old(store.State()), api.outcome, |old(api.log)|, now)
      ensures syncTimer == if store.pendingSync != old(store.pendingSync) then None else old(syncTimer)
      ensures old(TimerOnlyWhilePending()) ==> TimerOnlyWhilePending()
    {
      var before := store.pendingSync;
      var step := store.currentStep;
      saved := SavesBeforeNext(step, store.savedSteps);
      if saved {
        var _ := SaveStepData(store, api, step, now);
      }
      store.NextStep();
      PendingSyncCleanup(before);
    }

    /** goBack */
    method GoBack()
      modifies store`currentStep
      ensures store.currentStep == Moved(old(store.currentStep), store.totalSteps, Previous)
    {
      store.PreviousStep();
    }

    /** complete: the flag drops, so a pending timer is cancelled by the effect cleanup. */
    method Complete()
      modifies store`isCompleted, store`currentStep, store`pendingSync, this`syncTimer
      ensures store.isCompleted && store.currentStep == store.totalSteps && !store.pendingSync
      ensures syncTimer == if old(store.pendingSync) then None else old(syncTimer)
      ensures old(TimerOnlyWhilePending()) ==> TimerOnlyWhilePending()
    {
      var before := store.pendingSync;
      store.CompleteOnboarding();
      PendingSyncCleanup(before);
    }

    /** reset: as complete, the flag drops and a pending timer is cancelled. */
    method Reset()
      modifies store`currentStep, store`isCompleted, store`skippedSteps, store`formData,
               store`savedSteps, store`pendingSync, store`error, this`syncTimer
      ensures store.currentStep == 1 && !store.isCompleted && store.skippedSteps == [] && store.formData == map[]
      ensures store.savedSteps == [] && !store.pendingSync && store.error == None
      ensures syncTimer == if old(store.pendingSync) then None else old(syncTimer)
      ensures old(TimerOnlyWhilePending()) ==> TimerOnlyWhilePending()
    {
      var before := store.pendingSync;
      store.ResetOnboarding();
      PendingSyncCleanup(before);
    }

    /**
     * updateData: merges at once and replaces any pending timer by a new one that captures the
     * cursor. When the data was not pending before, the flag's change cancels the new timer at
     * once, so a timer survives only a merge into data that was already pending.
     */
    method UpdateData(payload: FormData)
      modifies store`formData, store`pendingSync, this`syncTimer
      ensures store.formData == Merge(old(store.formData), payload)
      ensures store.pendingSync
      ensures store.State() == UpdatedState(old(store.State()), payload)
      ensures syncTimer == if old(store.pendingSync) then Some(store.currentStep) else None
      ensures TimerOnlyWhilePending()
    {
      var before := store.pendingSync;
      store.UpdateFormData(payload);
      syncTimer := Some(store.currentStep);
      PendingSyncCleanup(before);
    }

    /**
     * The timer firing after the debounce delay: marks the data pending when the captured step is
     * not critical. Since a timer is armed only while the data is pending, firing it never
     * changes the flag.
     */
    method FireSyncTimer()
      modifies store`pendingSync, this`syncTimer
      ensures syncTimer == None
      ensures old(syncTimer).Some? && !IsCritical(old(syncTimer).value) ==> store.pendingSync
      ensures old(syncTimer).None? || IsCritical(old(syncTimer).value) ==> store.pendingSync == old(store.pendingSync)
      ensures old(store.pendingSync) ==> store.pendingSync
      ensures old(TimerOnlyWhilePending()) ==> store.pendingSync == old(store.pendingSync)
    {
      if syncTimer.Some? {
        if !IsCritical(syncTimer.value) {
          store.SetSyncPending(true);
        }
        syncTimer := None;
      }
    }

    /** The unmount cleanup: a pending timer is cancelled. */
    method Unmount()
      modifies this`syncTimer
      ensures syncTimer == None
    {
      syncTimer := None;
    }

    /**
     * saveCriticalData: saves the target step when it is critical, and answers whether the save
     * fulfilled; a target that is not critical answers true without sending anything.
     */
    method SaveCriticalData(stepNumber: Option<int>, now: int) returns (ok: bool)
      modifies store, api`log, this`syncTimer
      ensures var t := SaveTarget(stepNumber, old(store.currentStep));
              IsCritical(t) ==>
                api.log == old(api.log) + SaveRequests(old(store.formData), t, api.outcome, |old(api.log)|) &&
                store.savedSteps == SavedAfter(old(store.savedSteps), old(store.formData), t, api.outcome, |old(api.log)|) &&
                !store.isLoading && store.error == None
      ensures var t := SaveTarget(stepNumber, old(store.currentStep));
              IsCritical(t) && SaveSucceeds(old(store.formData), t, api.outcome, |old(api.log)|) ==>
                store.lastSavedAt == Some(now) && !store.pendingSync
      ensures var t := SaveTarget(stepNumber, old(store.currentStep));
              !(IsCritical(t) && SaveSucceeds(old(store.formData), t, api.outcome, |old(api.log)|)) ==>
                store.lastSavedAt == old(store.lastSavedAt) && store.pendingSync == old(store.pendingSync)
      ensures var t := SaveTarget(stepNumber, old(store.currentStep));
              !IsCritical(t) ==>
                api.log == old(api.log) && store.savedSteps == old(store.savedSteps) &&
                store.isLoading == old(store.isLoading) && store.error == old(store.error)
      ensures ok
      ensures store.formData == old(store.formData) && store.currentStep == old(store.currentStep)
      ensures store.totalSteps == old(store.totalSteps) && store.isCompleted == old(store.isCompleted)
      ensures store.skippedSteps == old(store.skippedSteps)
      ensures store.State() ==
                CriticalSaveState(old(store.State()), SaveTarget(stepNumber, old(store.currentStep)), api.outcome, |old(api.log)|, now)
      ensures syncTimer == if store.pendingSync != old(store.pendingSync) then None else old(syncTimer)
      ensures old(TimerOnlyWhilePending()) ==> TimerOnlyWhilePending()
    {
      var before := store.pendingSync;
      var step := SaveTarget(stepNumber, store.currentStep);
      var settled: Option<SaveOutcome> := None;
      if IsCritical(step) {
        var o := SaveStepData(store, api, step, now);
        settled := Some(o);
      }
      ok := GateAnswer(step, settled);
      PendingSyncCleanup(before);
    }

    /** saveCurrentStepNumber: the heartbeat, which always answers true. */
    method SaveCurrentStepNumber(step: int) returns (ok: bool)
      modifies api`log
      ensures api.log == old(api.log) + ProgressRequests(step)
      ensures ok
    {
      var _ := UpdateCurrentStep(api, step);
      ok := true;
    }
  }
}
