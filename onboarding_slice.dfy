/**
 * The onboarding state container: the step cursor, the locally held form data, and the save
 * bookkeeping. Each reducer is a method that changes the store in place.
 */
module OnboardingSlice {
  import opened Wrappers
  import opened Api

  /** The keys of the onboarding form. */
  datatype Field =
    | FirstName | LastName | Gender | BirthDate
    | PrimaryGoal | FitnessLevel
    | Vo2Max | RaceTime
    | MedicalConditions
    | WorkoutTypes | TrainingDays
    | CurrentWeight | TargetWeight | Height
    | SelectedDevice

  type FormData = map<Field, FieldValue>

  /** formData.k is present and truthy. */
  predicate Has(fd: FormData, k: Field) {
    k in fd && Truthy(fd[k])
  }

  predicate NoDuplicates(s: seq<int>) {
    forall i, j :: 0 <= i < j < |s| ==> s[i] != s[j]
  }

  /** `if (!s.includes(x)) s.push(x)`: the list with x appended unless it is already there. */
  function AddOnce(s: seq<int>, x: int): (r: seq<int>)
    ensures x in r
    ensures |r| == if x in s then |s| else |s| + 1
    ensures r[..|s|] == s
  {
    if x in s then s else s + [x]
  }

  /** AddOnce adds exactly x, and keeps a list free of duplicates. */
  lemma AddOnceMembers(s: seq<int>, x: int)
    ensures forall y :: y in AddOnce(s, x) <==> y in s || y == x
    ensures NoDuplicates(s) ==> NoDuplicates(AddOnce(s, x))
  {
  }

  /** Adding a step that is already recorded changes nothing, so adding twice is adding once. */
  lemma AddOnceIdempotent(s: seq<int>, x: int)
    ensures AddOnce(AddOnce(s, x), x) == AddOnce(s, x)
  {
  }

  /** `{...a, ...b}`: the keys of b take b's values, every other key keeps its value in a. */
  function Merge<K, V>(a: map<K, V>, b: map<K, V>): (r: map<K, V>)
    ensures r.Keys == a.Keys + b.Keys
    ensures forall k :: k in b ==> r[k] == b[k]
    ensures forall k :: k in a && k !in b ==> r[k] == a[k]
  {
    a + b
  }

  /** A step-cursor reducer that takes no payload. */
  datatype Move = Next | Previous | Skip(step: int)

  /** The cursor after one move: nextStep and skipStep advance while below the total, previousStep retreats while above 1. */
  function Moved(current: int, total: int, m: Move): int
  {
    match m
    case Previous => if current > 1 then current - 1 else current
    case _ => if current < total then current + 1 else current
  }

  /** The cursor after a sequence of moves. */
  function MovedAll(current: int, total: int, ms: seq<Move>): int
    decreases |ms|
  {
    if ms == [] then current else MovedAll(Moved(current, total, ms[0]), total, ms[1..])
  }

  /** Once 1 <= currentStep <= totalSteps holds, no sequence of nextStep, previousStep and skipStep breaks it. */
  lemma {:induction false} MovesKeepBounds(current: int, total: int, ms: seq<Move>)
    requires 1 <= current <= total
    ensures 1 <= MovedAll(current, total, ms) <= total
    decreases |ms|
  {
    if ms != [] {
      MovesKeepBounds(Moved(current, total, ms[0]), total, ms[1..]);
    }
  }

  /** From a cursor within bounds, n nextStep moves reach min(currentStep + n, totalSteps). */
  lemma {:induction false} NextMovesReach(current: int, total: int, n: nat)
    requires 1 <= current <= total
    ensures MovedAll(current, total, seq(n, _ => Next)) == if current + n < total then current + n else total
    decreases n
  {
    if n > 0 {
      var ms := seq(n, _ => Next);
      assert ms[1..] == seq(n - 1, _ => Next);
      NextMovesReach(Moved(current, total, Next), total, n - 1);
    }
  }

  /** The whole onboarding state as one value, for stating what an operation leaves behind. */
  datatype StoreState = StoreState(
    currentStep: int, totalSteps: int, isCompleted: bool, skippedSteps: seq<int>,
    formData: FormData, savedSteps: seq<int>, lastSavedAt: Option<int>,
    pendingSync: bool, isLoading: bool, error: Option<string>)

  /** The state after updateFormData: the payload merged in, and the data pending. */
  function UpdatedState(s: StoreState, payload: FormData): StoreState {
    s.(formData := Merge(s.formData, payload), pendingSync := true)
  }

  class OnboardingStore {
    var currentStep: int
    var totalSteps: int
    var isCompleted: bool
    var skippedSteps: seq<int>
    var formData: FormData
    var savedSteps: seq<int>
    /** The time of the last markStepSaved, as a clock reading. */
    var lastSavedAt: Option<int>
    var pendingSync: bool
    var isLoading: bool
    var error: Option<string>

    /** The store's fields as one value. */
    function State(): StoreState
      reads this
    {
      StoreState(currentStep, totalSteps, isCompleted, skippedSteps, formData, savedSteps,
                 lastSavedAt, pendingSync, isLoading, error)
    }

    /** The cursor lies within the flow. */
    predicate InBounds()
      reads this
    {
      1 <= currentStep <= totalSteps
    }

    /** The initial state. */
    constructor ()
      ensures currentStep == 1 && totalSteps == 9 && !isCompleted
      ensures skippedSteps == [] && formData == map[] && savedSteps == []
      ensures lastSavedAt == None && !pendingSync && !isLoading && error == None
      ensures InBounds()
    {
      currentStep := 1;
      totalSteps := 9;
      isCompleted := false;
      skippedSteps := [];
      formData := map[];
      savedSteps := [];
      lastSavedAt := None;
      pendingSync := false;
      isLoading := false;
      error := None;
    }

    /** setCurrentStep: overwrites the cursor with no bounds check. */
    method SetCurrentStep(step: int)
      modifies this`currentStep
      ensures currentStep == step
    {
      currentStep := step;
    }

    /** nextStep */
    method NextStep()
      modifies this`currentStep
      ensures currentStep == Moved(old(currentStep), totalSteps, Next)
      ensures old(InBounds()) ==> InBounds()
    {
      if currentStep < totalSteps {
        currentStep := currentStep + 1;
      }
    }

    /** previousStep */
    method PreviousStep()
      modifies this`currentStep
      ensures currentStep == Moved(old(currentStep), totalSteps, Previous)
      ensures old(InBounds()) ==> InBounds()
    {
      if currentStep > 1 {
        currentStep := currentStep - 1;
      }
    }

    /** skipStep: records the step once, then advances as nextStep does. */
    method SkipStep(step: int)
      modifies this`skippedSteps, this`currentStep
      ensures skippedSteps == AddOnce(old(skippedSteps), step)
      ensures currentStep == Moved(old(currentStep), totalSteps, Skip(step))
      ensures old(InBounds()) ==> InBounds()
    {
      if step !in skippedSteps {
        skippedSteps := skippedSteps + [step];
      }
      if currentStep < totalSteps {
        currentStep := currentStep + 1;
      }
    }

    /** updateFormData: shallow merge of the payload, and the data is now pending. */
    method UpdateFormData(payload: FormData)
      modifies this`formData, this`pendingSync
      ensures formData == Merge(old(formData), payload)
      ensures pendingSync
    {
      formData := formData + payload;
      pendingSync := true;
    }

    /** markStepSaved: records the step once, stamps the time, and clears the pending flag. */
    method MarkStepSaved(step: int, now: int)
      modifies this`savedSteps, this`lastSavedAt, this`pendingSync
      ensures savedSteps == AddOnce(old(savedSteps), step)
      ensures lastSavedAt == Some(now) && !pendingSync
    {
      if step !in savedSteps {
        savedSteps := savedSteps + [step];
      }
      lastSavedAt := Some(now);
      pendingSync := false;
    }

    method SetSyncPending(pending: bool)
      modifies this`pendingSync
      ensures pendingSync == pending
    {
      pendingSync := pending;
    }

    method SetLoading(loading: bool)
      modifies this`isLoading
      ensures isLoading == loading
    {
      isLoading := loading;
    }

    method SetError(e: Option<string>)
      modifies this`error
      ensures error == e
    {
      error := e;
    }

    /** completeOnboarding: done, with the cursor forced to the last step. */
    method CompleteOnboarding()
      modifies this`isCompleted, this`currentStep, this`pendingSync
      ensures isCompleted && currentStep == totalSteps && !pendingSync
    {
      isCompleted := true;
      currentStep := totalSteps;
      pendingSync := false;
    }

    /** resetOnboarding: back to step 1 with no data; totalSteps, isLoading and lastSavedAt are kept. */
    method ResetOnboarding()
      modifies this`currentStep, this`isCompleted, this`skippedSteps, this`formData,
               this`savedSteps, this`pendingSync, this`error
      ensures currentStep == 1 && !isCompleted && skippedSteps == [] && formData == map[]
      ensures savedSteps == [] && !pendingSync && error == None
    {
      currentStep := 1;
      isCompleted := false;
      skippedSteps := [];
      formData := map[];
      savedSteps := [];
      pendingSync := false;
      error := None;
    }

    /** setTotalSteps: overwrites the total with no bounds check; the last screen to mount wins. */
    method SetTotalSteps(n: int)
      modifies this`totalSteps
      ensures totalSteps == n
    {
      totalSteps := n;
    }

    /** restoreProgress.fulfilled: only the cursor and the completion flag come from the server. */
    method RestoreFulfilled(step: int, completed: bool)
      modifies this`currentStep, this`isCompleted
      ensures currentStep == step && isCompleted == completed
    {
      currentStep := step;
      isCompleted := completed;
    }
  }
}
