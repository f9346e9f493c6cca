/**
 * The onboarding step registry and the asynchronous operations that save and restore progress.
 * The registry is pure data; the save operations are dispatch sequences against the store and
 * the API client.
 */
module OnboardingThunks {
  import opened Wrappers
  import opened JsText
  import opened Api
  import opened OnboardingSlice

  /** The steps whose data is meant to be saved before moving on. */
  const CriticalSteps: seq<int> := [1, 2, 3, 5, 9]

  predicate IsCritical(step: int) {
    step in CriticalSteps
  }

  /** STEP_TO_BACKEND_STEP: the backend onboarding stage of each front-end step. */
  function BackendStep(step: int): (r: Option<string>)
    ensures r.Some? <==> 1 <= step <= 11
  {
    if 1 <= step <= 3 then Some("basic_info")
    else if step == 4 then Some("weight")
    else if step == 5 then Some("health_metrics")
    else if step == 6 || step == 7 then Some("goals")
    else if step == 8 || step == 9 then Some("training_preferences")
    else if step == 10 then Some("workout_preferences")
    else if step == 11 then Some("completed")
    else None
  }

  const NameRoute := "/(onboarding)/name-screen"

  /** STEP_TO_SCREEN: the route of each front-end step. */
  function ScreenFor(step: int): (r: Option<string>)
    ensures r.Some? <==> 1 <= step <= 11
  {
    if step == 1 then Some(NameRoute)
    else if step == 2 then Some("/(onboarding)/gender-screen")
    else if step == 3 then Some("/(onboarding)/birthday-screen")
    else if step == 4 then Some("/(onboarding)/weight-screen")
    else if step == 5 then Some("/(onboarding)/height-screen")
    else if step == 6 then Some("/(onboarding)/goals-screen")
    else if step == 7 then Some("/(onboarding)/fitness-screen")
    else if step == 8 then Some("/(onboarding)/medical-screen")
    else if step == 9 then Some("/(onboarding)/fitness-status")
    else if step == 10 then Some("/(onboarding)/moods-screen")
    else if step == 11 then Some("/(onboarding)/train-screen")
    else None
  }

  /** Both registries are defined on exactly the steps 1 to 11. */
  lemma RegistriesShareDomain(step: int)
    ensures BackendStep(step).Some? <==> ScreenFor(step).Some?
  {
  }

  /** Distinct steps have distinct screens, so a route identifies its step. */
  lemma ScreensAreDistinct(a: int, b: int)
    requires ScreenFor(a).Some? && ScreenFor(a) == ScreenFor(b)
    ensures a == b
  {
  }

  /**
   * Steps 1-3, 6-7 and 8-9 share a backend stage, the others have one each, and step 11 is the
   * 'completed' stage.
   */
  lemma BackendStagesShared(a: int, b: int)
    requires BackendStep(a).Some? && BackendStep(a) == BackendStep(b)
    ensures a == b || (1 <= a <= 3 && 1 <= b <= 3) || (6 <= a <= 7 && 6 <= b <= 7) || (8 <= a <= 9 && 8 <= b <= 9)
    ensures BackendStep(11) == Some("completed")
  {
  }

  /**
   * The critical set does not follow the registry: step 5 is the height screen and step 9 the
   * fitness-status screen, while the medical screen (8) is not critical.
   */
  lemma CriticalStepsAgainstRegistry()
    ensures IsCritical(5) && ScreenFor(5) == Some("/(onboarding)/height-screen")
    ensures IsCritical(9) && ScreenFor(9) == Some("/(onboarding)/fitness-status")
    ensures !IsCritical(8) && ScreenFor(8) == Some("/(onboarding)/medical-screen")
  {
  }

  // ---------------------------------------------------------------- updateCurrentStep

  /** The progress heartbeat for a step: a PUT for a mapped step, nothing otherwise. */
  function ProgressRequests(step: int): (rs: seq<Request>)
    ensures |rs| <= 1
    ensures rs != [] <==> 1 <= step <= 11
    ensures rs != [] ==> rs[0] == PutProgress(BackendStep(step).value, IntToString(step))
  {
    match BackendStep(step)
    case None => []
    case Some(b) => [PutProgress(b, IntToString(step))]
  }

  /** The front-end step a progress PUT carries parses back to the step. */
  lemma ProgressCarriesStep(step: int)
    requires 1 <= step <= 11
    ensures ParseInt(ProgressRequests(step)[0].currentFrontendStep) == Some(step)
  {
    ParseIntIntToString(step);
  }

  /** updateCurrentStep: sends the heartbeat, whose answer is ignored, and always fulfils with the step. */
  method UpdateCurrentStep(api: ApiClient, step: int) returns (fulfilled: int)
    modifies api`log
    ensures api.log == old(api.log) + ProgressRequests(step)
    ensures fulfilled == step
  {
    var b := BackendStep(step);
    if b.Some? {
      var _ := api.Send(PutProgress(b.value, IntToString(step)));
    }
    fulfilled := step;
  }

  // ---------------------------------------------------------------- saveStepData

  /**
   * Whether saveStepData has data to send for a step. Its switch has its own numbering: 4 is the
   * goal, 5 the medical conditions and 7 the current weight; step 1 needs both names.
   */
  predicate HasStepData(fd: FormData, step: int) {
    if step == 1 then Has(fd, FirstName) && Has(fd, LastName)
    else if step == 2 then Has(fd, Gender)
    else if step == 3 then Has(fd, BirthDate)
    else if step == 4 then Has(fd, PrimaryGoal)
    else if step == 5 then Has(fd, MedicalConditions)
    else if step == 7 then Has(fd, CurrentWeight)
    else false
  }

  /** The data request saveStepData sends for a step, given the form data. */
  function StepDataRequest(fd: FormData, step: int): (r: Option<Request>)
    ensures r.Some? <==> HasStepData(fd, step)
  {
    if !HasStepData(fd, step) then None
    else if step == 1 then Some(PutProfileName(fd[FirstName], fd[LastName]))
    else if step == 2 then Some(PutProfileGender(fd[Gender]))
    else if step == 3 then Some(PutProfileBirthDate(fd[BirthDate]))
    else if step == 4 then Some(PostGoals(fd[PrimaryGoal]))
    else if step == 5 then Some(PostTrainingPreferences(fd[MedicalConditions]))
    else Some(PostCurrentWeight(fd[CurrentWeight]))
  }

  /** Only steps 1, 2, 3, 4, 5 and 7 ever send data; step 1 needs both names present and non-empty. */
  lemma DataStepsOnly(fd: FormData, step: int)
    ensures StepDataRequest(fd, step).Some? ==> step in {1, 2, 3, 4, 5, 7}
    ensures StepDataRequest(fd, 1).Some? <==> Has(fd, FirstName) && Has(fd, LastName)
    ensures StepDataRequest(fd, 8).None? && StepDataRequest(fd, 9).None?
  {
  }

  /**
   * Every request one saveStepData sends when the client has sent n requests before: the data
   * request, then the progress PUT when that request succeeded. The progress answer is ignored.
   */
  function SaveRequests(fd: FormData, step: int, outcome: nat -> bool, n: nat): (rs: seq<Request>)
    ensures |rs| <= 2
    ensures rs == [] <==> StepDataRequest(fd, step).None?
  {
    match StepDataRequest(fd, step)
    case None => []
    case Some(req) => [req] + (if outcome(n) then ProgressRequests(step) else [])
  }

  /** Whether that saveStepData records the step: exactly when a data request went out and succeeded. */
  predicate SaveSucceeds(fd: FormData, step: int, outcome: nat -> bool, n: nat) {
    StepDataRequest(fd, step).Some? && outcome(n)
  }

  /** The saved-steps list after that saveStepData. */
  function SavedAfter(saved: seq<int>, fd: FormData, step: int, outcome: nat -> bool, n: nat): seq<int> {
    if SaveSucceeds(fd, step, outcome, n) then AddOnce(saved, step) else saved
  }

  /**
   * The store after that saveStepData: loading over with no error, and, when the save succeeds,
   * the step recorded, the time stamped and the pending flag cleared.
   */
  function SavedState(s: StoreState, step: int, outcome: nat -> bool, n: nat, now: int): StoreState {
    var marks := SaveSucceeds(s.formData, step, outcome, n);
    s.(savedSteps := SavedAfter(s.savedSteps, s.formData, step, outcome, n),
       lastSavedAt := if marks then Some(now) else s.lastSavedAt,
       pendingSync := s.pendingSync && !marks,
       isLoading := false, error := None)
  }

  /** How a saveStepData dispatch settles. */
  datatype SaveOutcome =
    | Fulfilled(stepNumber: int, success: bool, allowProgress: bool)
    | Rejected(message: string)

  /**
   * The catch branch of saveStepData, reached only when a request throws: a non-critical step
   * still lets the user move on, a critical one rejects.
   */
  function OutcomeOnException(step: int, errorMessage: string): (r: SaveOutcome)
    ensures r.Rejected? <==> IsCritical(step)
    ensures r.Fulfilled? ==> r == Fulfilled(step, false, true)
    ensures r.Rejected? && errorMessage != "" ==> r.message == errorMessage
  {
    if !IsCritical(step) then Fulfilled(step, false, true)
    else if errorMessage != "" then Rejected(errorMessage)
    else Rejected("Failed to save step " + IntToString(step))
  }

  /**
   * saveStepData. The client never throws, so the catch branch is never taken and the dispatch
   * fulfils with success: true whatever the server answered, even when nothing was sent.
   */
  method SaveStepData(store: OnboardingStore, api: ApiClient, step: int, now: int) returns (r: SaveOutcome)
    modifies store, api`log
    ensures r == Fulfilled(step, true, false)
    ensures api.log == old(api.log) + SaveRequests(old(store.formData), step, api.outcome, |old(api.log)|)
    ensures store.savedSteps == SavedAfter(old(store.savedSteps), old(store.formData), step, api.outcome, |old(api.log)|)
    ensures SaveSucceeds(old(store.formData), step, api.outcome, |old(api.log)|) ==>
              store.lastSavedAt == Some(now) && !store.pendingSync
    ensures !SaveSucceeds(old(store.formData), step, api.outcome, |old(api.log)|) ==>
              store.lastSavedAt == old(store.lastSavedAt) && store.pendingSync == old(store.pendingSync)
    ensures !store.isLoading && store.error == None
    ensures store.formData == old(store.formData) && store.currentStep == old(store.currentStep)
    ensures store.totalSteps == old(store.totalSteps) && store.isCompleted == old(store.isCompleted)
    ensures store.skippedSteps == old(store.skippedSteps)
    ensures store.State() == SavedState(old(store.State()), step, api.outcome, |old(api.log)|, now)
  {
    ghost var n := |api.log|;
    var fd := store.formData;
    store.SetLoading(true);
    store.SetError(None);
    var req := StepDataRequest(fd, step);
    if req.Some? {
      var ok := api.Send(req.value);
      assert SaveRequests(fd, step, api.outcome, n) == [req.value] + (if ok then ProgressRequests(step) else []);
      if ok {
        store.MarkStepSaved(step, now);
        var b := BackendStep(step);
        if b.Some? {
          var _ := api.Send(PutProgress(b.value, IntToString(step)));
        }
      }
    }
    assert store.savedSteps == SavedAfter(old(store.savedSteps), fd, step, api.outcome, n);
    store.SetLoading(false);
    r := Fulfilled(step, true, false);
  }

  /** Whatever the server answers, a saveStepData that returns fulfils with success: true. */
  lemma SaveNeverReportsFailure(fd: FormData, step: int, outcome: nat -> bool, n: nat)
    ensures SaveRequests(fd, step, outcome, n) == [] ==> !SaveSucceeds(fd, step, outcome, n)
    ensures SaveSucceeds(fd, step, outcome, n) ==> |SaveRequests(fd, step, outcome, n)| == (if 1 <= step <= 11 then 2 else 1)
  {
  }

  /** medicalConditions is an array, so any value under that key, even an empty list, triggers the step-5 request. */
  lemma MedicalStepNeedsOnlyTheKey(fd: FormData)
    requires MedicalConditions in fd && fd[MedicalConditions].Texts?
    ensures StepDataRequest(fd, 5) == Some(PostTrainingPreferences(fd[MedicalConditions]))
  {
  }

  // ---------------------------------------------------------------- syncPendingData

  /** The steps of the list up to the cursor that are not in saved, in the list's order. */
  function Filtered(steps: seq<int>, current: int, saved: seq<int>): seq<int>
  {
    if steps == [] then []
    else
      var rest := Filtered(steps[1..], current, saved);
      if steps[0] <= current && steps[0] !in saved then [steps[0]] + rest else rest
  }

  /** Filtering keeps exactly the steps up to the cursor that are not saved. */
  lemma {:induction false} FilteredMembers(steps: seq<int>, current: int, saved: seq<int>)
    ensures forall s :: s in Filtered(steps, current, saved) <==> s in steps && s <= current && s !in saved
  {
    if steps != [] {
      FilteredMembers(steps[1..], current, saved);
      assert steps == [steps[0]] + steps[1..];
    }
  }

  predicate StrictlyAscending(s: seq<int>) {
    forall i, j :: 0 <= i < j < |s| ==> s[i] < s[j]
  }

  /** Filtering keeps the list's order: a strictly ascending list filters to a strictly ascending one. */
  lemma {:induction false} FilteredAscending(steps: seq<int>, current: int, saved: seq<int>)
    requires StrictlyAscending(steps)
    ensures StrictlyAscending(Filtered(steps, current, saved))
  {
    if steps != [] {
      var tail := steps[1..];
      assert StrictlyAscending(tail) by {
        forall i, j | 0 <= i < j < |tail| ensures tail[i] < tail[j] {
          assert tail[i] == steps[i + 1] && tail[j] == steps[j + 1];
        }
      }
      FilteredAscending(tail, current, saved);
      FilteredMembers(tail, current, saved);
      var rest := Filtered(tail, current, saved);
      forall x | x in rest ensures steps[0] < x {
        var k :| 0 <= k < |tail| && tail[k] == x;
        assert steps[k + 1] == x;
      }
      var r := [steps[0]] + rest;
      forall i, j | 0 <= i < j < |r| ensures r[i] < r[j] {
        assert r[j] == rest[j - 1];
        if i == 0 {
          assert rest[j - 1] in rest;
        } else {
          assert r[i] == rest[i - 1];
        }
      }
    }
  }

  /** The critical steps up to the cursor that are not yet saved, in ascending order. */
  function UnsavedCriticalSteps(current: int, saved: seq<int>): (r: seq<int>)
    ensures forall s :: s in r <==> IsCritical(s) && s <= current && s !in saved
    ensures StrictlyAscending(r)
  {
    FilteredMembers(CriticalSteps, current, saved);
    FilteredAscending(CriticalSteps, current, saved);
    Filtered(CriticalSteps, current, saved)
  }

  /** The client's log after saving the first k of the steps one after another, starting from log0. */
  function SyncLog(log0: seq<Request>, fd: FormData, steps: seq<int>, k: nat, outcome: nat -> bool): (r: seq<Request>)
    requires k <= |steps|
    ensures |r| >= |log0| && r[..|log0|] == log0
  {
    if k == 0 then log0
    else
      var before := SyncLog(log0, fd, steps, k - 1, outcome);
      before + SaveRequests(fd, steps[k - 1], outcome, |before|)
  }

  /** The saved-steps list after those saves. */
  function SyncSaved(saved: seq<int>, log0: seq<Request>, fd: FormData, steps: seq<int>, k: nat, outcome: nat -> bool): seq<int>
    requires k <= |steps|
  {
    if k == 0 then saved
    else
      var s := SyncSaved(saved, log0, fd, steps, k - 1, outcome);
      SavedAfter(s, fd, steps[k - 1], outcome, |SyncLog(log0, fd, steps, k - 1, outcome)|)
  }

  /** A save sequence only appends: the earlier records stay in place. */
  lemma {:induction false} SyncSavedExtends(saved: seq<int>, log0: seq<Request>, fd: FormData, steps: seq<int>, k: nat, outcome: nat -> bool)
    requires k <= |steps|
    ensures |SyncSaved(saved, log0, fd, steps, k, outcome)| >= |saved|
    ensures SyncSaved(saved, log0, fd, steps, k, outcome)[..|saved|] == saved
  {
    if k > 0 {
      SyncSavedExtends(saved, log0, fd, steps, k - 1, outcome);
      var s := SyncSaved(saved, log0, fd, steps, k - 1, outcome);
      var n := |SyncLog(log0, fd, steps, k - 1, outcome)|;
      var r := SavedAfter(s, fd, steps[k - 1], outcome, n);
      assert SyncSaved(saved, log0, fd, steps, k, outcome) == r;
      assert |r| >= |s| && r[..|s|] == s by {
        if SaveSucceeds(fd, steps[k - 1], outcome, n) {
          assert r == AddOnce(s, steps[k - 1]);
        }
      }
      assert r[..|saved|] == r[..|s|][..|saved|];
    }
  }

  /** A save sequence only adds steps of the sequence. */
  lemma {:induction false} SyncSavedMembers(saved: seq<int>, log0: seq<Request>, fd: FormData, steps: seq<int>, k: nat, outcome: nat -> bool)
    requires k <= |steps|
    ensures forall s :: s in SyncSaved(saved, log0, fd, steps, k, outcome) ==> s in saved || s in steps[..k]
  {
    if k > 0 {
      SyncSavedMembers(saved, log0, fd, steps, k - 1, outcome);
      var s := SyncSaved(saved, log0, fd, steps, k - 1, outcome);
      var x := steps[k - 1];
      AddOnceMembers(s, x);
      assert steps[..k] == steps[..k - 1] + [x];
      forall y | y in SyncSaved(saved, log0, fd, steps, k, outcome)
        ensures y in saved || y in steps[..k]
      {
        assert y in s || y == x;
      }
    }
  }

  /** Whether any of the first k saves marked its step saved. */
  predicate SyncMarks(log0: seq<Request>, fd: FormData, steps: seq<int>, k: nat, outcome: nat -> bool)
    requires k <= |steps|
  {
    k > 0 &&
    (SyncMarks(log0, fd, steps, k - 1, outcome) ||
     SaveSucceeds(fd, steps[k - 1], outcome, |SyncLog(log0, fd, steps, k - 1, outcome)|))
  }

  /** A save sequence in which no save succeeds records nothing. */
  lemma {:induction false} UnmarkedSyncSavesNothing(saved: seq<int>, log0: seq<Request>, fd: FormData, steps: seq<int>, k: nat, outcome: nat -> bool)
    requires k <= |steps|
    ensures !SyncMarks(log0, fd, steps, k, outcome) ==> SyncSaved(saved, log0, fd, steps, k, outcome) == saved
  {
    if k > 0 {
      UnmarkedSyncSavesNothing(saved, log0, fd, steps, k - 1, outcome);
    }
  }

  /**
   * `for (const step of steps) await dispatch(saveStepData(step))`: the saves one after another.
   * Once a save has succeeded the data is no longer pending and the time is stamped; once any
   * save has run, loading is over with no error.
   */
  method SaveInOrder(store: OnboardingStore, api: ApiClient, steps: seq<int>, now: int)
    modifies store, api`log
    ensures api.log == SyncLog(old(api.log), old(store.formData), steps, |steps|, api.outcome)
    ensures store.savedSteps == SyncSaved(old(store.savedSteps), old(api.log), old(store.formData), steps, |steps|, api.outcome)
    ensures store.formData == old(store.formData) && store.currentStep == old(store.currentStep)
    ensures store.totalSteps == old(store.totalSteps) && store.isCompleted == old(store.isCompleted)
    ensures store.skippedSteps == old(store.skippedSteps)
    ensures SyncMarks(old(api.log), old(store.formData), steps, |steps|, api.outcome) ==>
              store.lastSavedAt == Some(now) && !store.pendingSync
    ensures !SyncMarks(old(api.log), old(store.formData), steps, |steps|, api.outcome) ==>
              store.lastSavedAt == old(store.lastSavedAt) && store.pendingSync == old(store.pendingSync)
    ensures steps != [] ==> !store.isLoading && store.error == None
    ensures steps == [] ==> store.isLoading == old(store.isLoading) && store.error == old(store.error)
  {
    var fd := store.formData;
    ghost var log0 := api.log;
    ghost var saved0 := store.savedSteps;
    for i := 0 to |steps|
      invariant api.log == SyncLog(log0, fd, steps, i, api.outcome)
      invariant store.savedSteps == SyncSaved(saved0, log0, fd, steps, i, api.outcome)
      invariant store.formData == fd && store.currentStep == old(store.currentStep)
      invariant store.totalSteps == old(store.totalSteps) && store.isCompleted == old(store.isCompleted)
      invariant store.skippedSteps == old(store.skippedSteps)
      invariant SyncMarks(log0, fd, steps, i, api.outcome) ==> store.lastSavedAt == Some(now) && !store.pendingSync
      invariant !SyncMarks(log0, fd, steps, i, api.outcome) ==>
                  store.lastSavedAt == old(store.lastSavedAt) && store.pendingSync == old(store.pendingSync)
      invariant i > 0 ==> !store.isLoading && store.error == None
      invariant i == 0 ==> store.isLoading == old(store.isLoading) && store.error == old(store.error)
    {
      var _ := SaveStepData(store, api, steps[i], now);
    }
  }

  /**
   * syncPendingData: nothing when no data is pending; otherwise it saves the unsaved critical
   * steps up to the cursor one after another, in ascending order, and clears the pending flag.
   * The list of steps is computed once, from the state at the start.
   */
  method SyncPendingData(store: OnboardingStore, api: ApiClient, now: int) returns (steps: seq<int>)
    modifies store, api`log
    ensures !old(store.pendingSync) ==> steps == [] && api.log == old(api.log) && store.savedSteps == old(store.savedSteps)
    ensures !old(store.pendingSync) ==> store.pendingSync == false && store.isLoading == old(store.isLoading)
    ensures old(store.pendingSync) ==> steps == UnsavedCriticalSteps(old(store.currentStep), old(store.savedSteps))
    ensures old(store.pendingSync) ==> !store.pendingSync
    ensures old(store.pendingSync) ==>
              api.log == SyncLog(old(api.log), old(store.formData), steps, |steps|, api.outcome)
    ensures old(store.pendingSync) ==>
              store.savedSteps == SyncSaved(old(store.savedSteps), old(api.log), old(store.formData), steps, |steps|, api.outcome)
    ensures old(store.pendingSync) ==>
              var marks := SyncMarks(old(api.log), old(store.formData), steps, |steps|, api.outcome);
              store.lastSavedAt == (if marks then Some(now) else old(store.lastSavedAt))
    ensures old(store.pendingSync) && steps != [] ==> !store.isLoading && store.error == None
    ensures old(store.pendingSync) && steps == [] ==> store.isLoading == old(store.isLoading) && store.error == old(store.error)
    ensures !old(store.pendingSync) ==>
              store.lastSavedAt == old(store.lastSavedAt) && store.error == old(store.error)
    ensures store.formData == old(store.formData) && store.currentStep == old(store.currentStep)
    ensures store.totalSteps == old(store.totalSteps) && store.isCompleted == old(store.isCompleted)
    ensures store.skippedSteps == old(store.skippedSteps)
  {
    steps := [];
    if !store.pendingSync {
      return;
    }
    store.SetSyncPending(true);
    steps := UnsavedCriticalSteps(store.currentStep, store.savedSteps);
    SaveInOrder(store, api, steps, now);
    store.SetSyncPending(false);
  }

  /** From step 9 with nothing saved, a sync tries all five critical steps. */
  lemma SyncFromFinalStep()
    ensures UnsavedCriticalSteps(9, []) == [1, 2, 3, 5, 9]
  {
    var c := CriticalSteps;
    assert c[1..][1..][1..][1..][1..] == [];
    assert Filtered(c[1..][1..][1..][1..], 9, []) == [9];
    assert Filtered(c[1..][1..][1..], 9, []) == [5, 9];
    assert Filtered(c[1..][1..], 9, []) == [3, 5, 9];
    assert Filtered(c[1..], 9, []) == [2, 3, 5, 9];
  }

  // ---------------------------------------------------------------- restoreProgress

  /** The onboarding_progress object of the status response. */
  datatype Progress = Progress(currentFrontendStep: Option<string>, isCompleted: bool)

  /** The data of the status response: onboarding_progress may be missing. */
  datatype StatusData = StatusData(progress: Option<Progress>)

  datatype RestoreOutcome =
    | Resumed(step: int, route: string, isCompleted: bool)
    | RestoreRejected

  /** The saved step to resume at, when the saved string is non-empty and parses to a step of the registry. */
  function ResumeStep(saved: Option<string>): (r: Option<int>)
    ensures r.Some? ==> 1 <= r.value <= 11
    ensures r.Some? <==> saved.Some? && saved.value != "" && ParseInt(saved.value).Some? &&
                         ParseInt(saved.value).value != 0 && ScreenFor(ParseInt(saved.value).value).Some?
  {
    if saved.None? || saved.value == "" then None
    else
      match ParseInt(saved.value)
      case None => None
      case Some(n) => if n != 0 && ScreenFor(n).Some? then Some(n) else None
  }

  /**
   * restoreProgress after its status request: rejects on an unsuccessful response or one without
   * data; otherwise resumes at the saved step when it is usable, and at step 1 otherwise.
   */
  function RestoreFromStatus(success: bool, data: Option<StatusData>): (r: RestoreOutcome)
    ensures r.RestoreRejected? <==> !success || data.None?
    ensures r.Resumed? ==> ScreenFor(r.step) == Some(r.route)
    ensures r.Resumed? && (data.value.progress.None? || ResumeStep(data.value.progress.value.currentFrontendStep).None?) ==>
              r.step == 1 && r.route == NameRoute
    ensures r.Resumed? && data.value.progress.None? ==> !r.isCompleted
  {
    if !success || data.None? then RestoreRejected
    else
      var p := data.value.progress;
      var saved := if p.Some? then p.value.currentFrontendStep else None;
      var completed := p.Some? && p.value.isCompleted;
      match ResumeStep(saved)
      case Some(n) => Resumed(n, ScreenFor(n).value, completed)
      case None => Resumed(1, NameRoute, completed)
  }

  /** A progress saved by the heartbeat of any registered step is resumed at that step. */
  lemma RestoreResumesHeartbeat(step: int, completed: bool)
    requires 1 <= step <= 11
    ensures RestoreFromStatus(true, Some(StatusData(Some(Progress(Some(ProgressRequests(step)[0].currentFrontendStep), completed))))) ==
              Resumed(step, ScreenFor(step).value, completed)
  {
    ProgressCarriesStep(step);
  }

  /** A saved step of "0" falls back to the start of the flow: parseInt gives 0, which is falsy. */
  lemma RestoreFallsBackOnZero()
    ensures ResumeStep(Some("0")) == None
  {
    ParseIntOfDigits("0", "");
    assert "0" + "" == "0";
  }

  /** A saved step of "12" falls back to the start of the flow: the registry stops at 11. */
  lemma RestoreFallsBackOnTwelve()
    ensures ResumeStep(Some("12")) == None
  {
    ParseIntOfDigits("12", "");
    assert "12" + "" == "12";
    assert "12"[..1] == "1";
  }

  /** A saved step that is not a number falls back to the start of the flow. */
  lemma RestoreFallsBackOnText()
    ensures ResumeStep(Some("abc")) == None
  {
    assert TrimStart("abc") == "abc";
    assert LeadingDigits("abc") == "";
  }

  /** The store after restoreProgress settles: loading over with no error, and a resumed cursor and completion flag. */
  function RestoredState(s: StoreState, r: RestoreOutcome): StoreState {
    var settled := s.(isLoading := false, error := None);
    if r.Resumed? then settled.(currentStep := r.step, isCompleted := r.isCompleted) else settled
  }

  /** restoreProgress: loading while the status request runs; a fulfilment restores the cursor and the completion flag. */
  method RestoreProgress(store: OnboardingStore, api: ApiClient, data: Option<StatusData>) returns (r: RestoreOutcome)
    modifies store, api`log
    ensures api.log == old(api.log) + [GetStatus]
    ensures r == RestoreFromStatus(api.outcome(|old(api.log)|), data)
    ensures r.Resumed? ==> store.currentStep == r.step && store.isCompleted == r.isCompleted
    ensures r.RestoreRejected? ==> store.currentStep == old(store.currentStep) && store.isCompleted == old(store.isCompleted)
    ensures !store.isLoading && store.error == None
    ensures store.formData == old(store.formData) && store.savedSteps == old(store.savedSteps)
    ensures store.totalSteps == old(store.totalSteps) && store.pendingSync == old(store.pendingSync)
    ensures store.skippedSteps == old(store.skippedSteps) && store.lastSavedAt == old(store.lastSavedAt)
    ensures store.State() == RestoredState(old(store.State()), r)
  {
    store.SetLoading(true);
    store.SetError(None);
    var ok := api.Send(GetStatus);
    assert ok == api.outcome(|old(api.log)|);
    r := RestoreFromStatus(ok, data);
    if r.Resumed? {
      store.RestoreFulfilled(r.step, r.isCompleted);
    }
    store.SetLoading(false);
  }

  // ---------------------------------------------------------------- submitOnboarding

  /** The requests of submitOnboarding, in order: profile, goals, current weight, then the completion. */
  function SubmitRequests(fd: FormData): (rs: seq<Request>)
    ensures |rs| >= 1 && rs[|rs| - 1] == PostComplete
    ensures (exists x :: x in rs && x.PutProfileAll?) <==> Has(fd, FirstName)
    ensures (exists x :: x in rs && x.PostGoals?) <==> Has(fd, PrimaryGoal)
    ensures (exists x :: x in rs && x.PostCurrentWeight?) <==> Has(fd, CurrentWeight)
    ensures Has(fd, FirstName) ==> rs[0] == PutProfileAll(Lookup(fd, FirstName), Lookup(fd, LastName), Lookup(fd, Gender), Lookup(fd, BirthDate))
  {
    var profile := if Has(fd, FirstName)
      then [PutProfileAll(Lookup(fd, FirstName), Lookup(fd, LastName), Lookup(fd, Gender), Lookup(fd, BirthDate))] else [];
    var goals := if Has(fd, PrimaryGoal) then [PostGoals(fd[PrimaryGoal])] else [];
    var weight := if Has(fd, CurrentWeight) then [PostCurrentWeight(fd[CurrentWeight])] else [];
    var rs := profile + goals + weight + [PostComplete];
    assert forall x :: x in rs <==> x in profile || x in goals || x in weight || x == PostComplete;
    assert forall x :: x in profile ==> x.PutProfileAll? && Has(fd, FirstName);
    assert forall x :: x in goals ==> x.PostGoals? && Has(fd, PrimaryGoal);
    assert forall x :: x in weight ==> x.PostCurrentWeight? && Has(fd, CurrentWeight);
    assert Has(fd, PrimaryGoal) ==> goals[0] in rs;
    assert Has(fd, CurrentWeight) ==> weight[0] in rs;
    assert Has(fd, FirstName) ==> profile[0] in rs;
    rs
  }

  function Lookup(fd: FormData, k: Field): Option<FieldValue> {
    if k in fd then Some(fd[k]) else None
  }

  /** submitOnboarding: sends its requests, ignoring their answers, then completes the flow. */
  method SubmitOnboarding(store: OnboardingStore, api: ApiClient)
    modifies store, api`log
    ensures api.log == old(api.log) + SubmitRequests(old(store.formData))
    ensures store.isCompleted && store.currentStep == store.totalSteps && !store.pendingSync
    ensures !store.isLoading && store.error == None
    ensures store.formData == old(store.formData) && store.savedSteps == old(store.savedSteps)
    ensures store.totalSteps == old(store.totalSteps)
    ensures store.skippedSteps == old(store.skippedSteps) && store.lastSavedAt == old(store.lastSavedAt)
  {
    var fd := store.formData;
    store.SetLoading(true);
    store.SetError(None);
    var rs := SubmitRequests(fd);
    for i := 0 to |rs|
      invariant api.log == old(api.log) + rs[..i]
      invariant store.formData == fd && store.savedSteps == old(store.savedSteps)
      invariant store.totalSteps == old(store.totalSteps) && store.error == None
      invariant store.skippedSteps == old(store.skippedSteps) && store.lastSavedAt == old(store.lastSavedAt)
    {
      assert rs[..i + 1] == rs[..i] + [rs[i]];
      var _ := api.Send(rs[i]);
    }
    assert rs[..|rs|] == rs;
    store.CompleteOnboarding();
    store.SetLoading(false);
  }
}
