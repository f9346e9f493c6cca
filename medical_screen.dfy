/**
 * The medical screen, step 8 of the flow: it fetches the list of conditions on mount, lets the
 * user toggle condition ids, and on submit posts the selection before running goNext. It never
 * writes the selection into the onboarding form data.
 */
module MedicalScreen {
  import opened Wrappers
  import opened Api
  import opened OnboardingSlice
  import opened OnboardingThunks
  import opened UseOnboarding
  import opened ScreenGate

  const TotalSteps := 11
  const Step := 8
  const NextRoute := "/(onboarding)/fitness-status"

  /** One entry of the medical-conditions list. */
  datatype MedicalCondition = MedicalCondition(
    id: string, name: string, description: Option<string>, category: Option<string>,
    displayOrder: int, isActive: bool)

  predicate DistinctIds(s: seq<string>) {
    forall i, j :: 0 <= i < j < |s| ==> s[i] != s[j]
  }

  /** `s.filter(c => c !== x)` */
  function Without(s: seq<string>, x: string): (r: seq<string>)
    ensures |r| <= |s|
  {
    if s == [] then []
    else (if s[0] == x then [] else [s[0]]) + Without(s[1..], x)
  }

  /** The filter drops every occurrence of x and keeps everything else, with its multiplicity. */
  lemma {:induction false} WithoutContents(s: seq<string>, x: string)
    ensures multiset(Without(s, x)) == multiset(s)[x := 0]
    ensures x !in Without(s, x)
    ensures forall y :: y in Without(s, x) <==> y in s && y != x
  {
    if s != [] {
      WithoutContents(s[1..], x);
      assert s == [s[0]] + s[1..];
      assert multiset(s) == multiset([s[0]]) + multiset(s[1..]);
    }
  }

  /** The filter keeps a list free of duplicates. */
  lemma {:induction false} WithoutDistinct(s: seq<string>, x: string)
    requires DistinctIds(s)
    ensures DistinctIds(Without(s, x))
  {
    if s != [] {
      assert DistinctIds(s[1..]) by {
        forall i, j | 0 <= i < j < |s[1..]| ensures s[1..][i] != s[1..][j] {
          assert s[1..][i] == s[i + 1] && s[1..][j] == s[j + 1];
        }
      }
      WithoutDistinct(s[1..], x);
      WithoutContents(s[1..], x);
      assert s[0] !in s[1..] by {
        forall k | 0 <= k < |s[1..]| ensures s[1..][k] != s[0] {
          assert s[1..][k] == s[k + 1];
        }
      }
    }
  }

  /** handleConditionSelect: a selected id is removed, any other is appended. */
  function ToggleSelection(s: seq<string>, x: string): (r: seq<string>)
    ensures x in r <==> x !in s
    ensures forall y :: y != x ==> (y in r <==> y in s)
  {
    if x in s then
      WithoutContents(s, x);
      Without(s, x)
    else s + [x]
  }

  /** Toggling an absent id appends it at the end, after the unchanged selection. */
  lemma ToggleAbsentAppends(s: seq<string>, x: string)
    requires x !in s
    ensures var r := ToggleSelection(s, x);
            |r| == |s| + 1 && r[..|s|] == s && r[|s|] == x
  {
  }

  /** Toggling a present id removes all of its occurrences and nothing else. */
  lemma TogglePresentRemovesAll(s: seq<string>, x: string)
    requires x in s
    ensures multiset(ToggleSelection(s, x)) == multiset(s)[x := 0]
    ensures x !in ToggleSelection(s, x)
  {
    WithoutContents(s, x);
  }

  /** A selection without duplicates keeps none after a toggle. */
  lemma ToggleKeepsDistinct(s: seq<string>, x: string)
    requires DistinctIds(s)
    ensures DistinctIds(ToggleSelection(s, x))
  {
    if x in s {
      WithoutDistinct(s, x);
    }
  }

  /**
   * Toggling the same id twice restores the selection: exactly when the id was absent, and as a
   * set of ids when it was present (it comes back at the end).
   */
  lemma ToggleTwice(s: seq<string>, x: string)
    ensures x !in s ==> ToggleSelection(ToggleSelection(s, x), x) == s
    ensures x in s ==> forall y :: y in ToggleSelection(ToggleSelection(s, x), x) <==> y in s
  {
    if x !in s {
      assert x in s + [x];
      WithoutAppend(s, x);
    } else {
      WithoutContents(s, x);
    }
  }

  /** Removing an id that is not there changes nothing. */
  lemma {:induction false} WithoutOfAbsent(s: seq<string>, x: string)
    requires x !in s
    ensures Without(s, x) == s
  {
    if s != [] {
      assert x !in s[1..];
      WithoutOfAbsent(s[1..], x);
      assert s == [s[0]] + s[1..];
    }
  }

  /** Removing the id just appended to a list without it gives the list back. */
  lemma {:induction false} WithoutAppend(s: seq<string>, x: string)
    requires x !in s
    ensures Without(s + [x], x) == s
  {
    if s == [] {
      assert [x][1..] == [];
    } else {
      assert (s + [x])[1..] == s[1..] + [x];
      assert x !in s[1..];
      WithoutAppend(s[1..], x);
      assert s == [s[0]] + s[1..];
    }
  }

  /**
   * A toggle leaves something selected exactly when it adds the id, or when another id was
   * selected besides the one it removes.
   */
  lemma ToggleLeavesSelection(s: seq<string>, x: string)
    ensures ToggleSelection(s, x) != [] <==> x !in s || exists y :: y in s && y != x
  {
    if x in s {
      WithoutContents(s, x);
      if exists y :: y in s && y != x {
        var y :| y in s && y != x;
        assert y in Without(s, x);
      }
      if Without(s, x) != [] {
        assert Without(s, x)[0] in Without(s, x);
      }
    } else {
      assert x in s + [x];
    }
  }

  /** The selection after a series of toggles. */
  function ToggleAll(s: seq<string>, xs: seq<string>): seq<string>
    decreases |xs|
  {
    if xs == [] then s else ToggleAll(ToggleSelection(s, xs[0]), xs[1..])
  }

  /** Starting from the empty selection, no series of toggles ever selects an id twice. */
  lemma {:induction false} TogglesFromEmptyAreDistinct(s: seq<string>, xs: seq<string>)
    requires DistinctIds(s)
    ensures DistinctIds(ToggleAll(s, xs))
    decreases |xs|
  {
    if xs != [] {
      ToggleKeepsDistinct(s, xs[0]);
      TogglesFromEmptyAreDistinct(ToggleSelection(s, xs[0]), xs[1..]);
    }
  }

  class MedicalScreen {
    const ctl: OnboardingController
    var hasInitialized: bool
    var selectedConditions: seq<string>
    var conditions: seq<MedicalCondition>
    var loading: bool

    constructor (ctl: OnboardingController)
      requires ctl.totalSteps == TotalSteps
      ensures this.ctl == ctl && !hasInitialized && selectedConditions == [] && conditions == [] && loading
    {
      this.ctl := ctl;
      hasInitialized := false;
      selectedConditions := [];
      conditions := [];
      loading := true;
    }

    /**
     * The mount effects: the hook's total, then, once per screen instance, the cursor, the
     * heartbeat and the request for the list of conditions.
     */
    method Mount()
      modifies this`hasInitialized, ctl.store`totalSteps, ctl.store`currentStep, ctl.api`log
      ensures hasInitialized && ctl.store.totalSteps == ctl.totalSteps
      ensures !old(hasInitialized) ==>
                ctl.store.currentStep == Step && ctl.api.log == old(ctl.api.log) + ProgressRequests(Step) + [GetMedicalConditions]
      ensures old(hasInitialized) ==> ctl.store.currentStep == old(ctl.store.currentStep) && ctl.api.log == old(ctl.api.log)
    {
      ctl.MountEffect();
      if !hasInitialized {
        hasInitialized := true;
        ctl.SetStep(Step);
        var _ := ctl.SaveCurrentStepNumber(Step);
        var _ := ctl.api.Send(GetMedicalConditions);
      }
    }

    /** The list request settles: data, when the answer carries some, replaces the list; loading ends either way. */
    method ConditionsSettled(data: Option<seq<MedicalCondition>>)
      modifies this`conditions, this`loading
      ensures conditions == (if data.Some? then data.value else old(conditions))
      ensures !loading
    {
      if data.Some? {
        conditions := data.value;
      }
      loading := false;
    }

    /** handleConditionSelect */
    method SelectCondition(id: string)
      modifies this`selectedConditions
      ensures selectedConditions == ToggleSelection(old(selectedConditions), id)
      ensures DistinctIds(old(selectedConditions)) ==> DistinctIds(selectedConditions)
      ensures CanSubmit() <==> id !in old(selectedConditions) || exists y :: y in old(selectedConditions) && y != id
    {
      if DistinctIds(selectedConditions) {
        ToggleKeepsDistinct(selectedConditions, id);
      }
      ToggleLeavesSelection(selectedConditions, id);
      selectedConditions := ToggleSelection(selectedConditions, id);
    }

    /** canSubmit: some condition id is selected. */
    function CanSubmit(): (b: bool)
      reads this
      ensures b <==> exists id :: id in selectedConditions
    {
      assert |selectedConditions| > 0 ==> selectedConditions[0] in selectedConditions;
      |selectedConditions| > 0
    }

    /**
     * handleSubmit: nothing at all with an empty selection; otherwise the selection is posted,
     * goNext runs once, and the form data is left as it was.
     */
    method HandleSubmit(now: int) returns (nav: Nav)
      modifies ctl.store, ctl.api`log, ctl`syncTimer
      ensures !CanSubmit() ==>
                nav == Stay && ctl.api.log == old(ctl.api.log) && ctl.store.currentStep == old(ctl.store.currentStep) &&
                ctl.store.savedSteps == old(ctl.store.savedSteps) && ctl.syncTimer == old(ctl.syncTimer)
      ensures CanSubmit() ==>
                nav == Push(NextRoute) &&
                ctl.api.log == old(ctl.api.log) + [PostMedicalConditions(selectedConditions)] +
                  GoNextRequests(old(ctl.store.formData), old(ctl.store.currentStep), old(ctl.store.savedSteps), ctl.api.outcome, |old(ctl.api.log)| + 1) &&
                ctl.store.currentStep == Moved(old(ctl.store.currentStep), old(ctl.store.totalSteps), Next) &&
                ctl.store.savedSteps == GoNextSaved(old(ctl.store.formData), old(ctl.store.currentStep), old(ctl.store.savedSteps), ctl.api.outcome, |old(ctl.api.log)| + 1)
      ensures ctl.store.formData == old(ctl.store.formData)
      ensures CanSubmit() ==>
                ctl.store.State() == GoNextState(old(ctl.store.State()), ctl.api.outcome, |old(ctl.api.log)| + 1, now) &&
                ctl.syncTimer == if ctl.store.pendingSync != old(ctl.store.pendingSync) then None else old(ctl.syncTimer)
      ensures !CanSubmit() ==> ctl.store.State() == old(ctl.store.State())
      ensures old(ctl.TimerOnlyWhilePending()) ==> ctl.TimerOnlyWhilePending()
    {
      if !CanSubmit() {
        return Stay;
      }
      var _ := ctl.api.Send(PostMedicalConditions(selectedConditions));
      var _ := ctl.GoNext(now);
      nav := Push(NextRoute);
    }
  }
}
