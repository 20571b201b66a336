// The onboarding tour: a step index over the eight configured steps, an
// active flag, and a small record in local storage that says whether the
// tour was completed or skipped, for which version, and at which step.
//
// Haptic feedback, scrolling and step actions are left out; a navigation
// the tour asks the router for is returned instead of performed, with the
// router's current path as a parameter. Local storage is a field holding
// what `JSON.parse` would read back.

module Tour {
  import opened Wrappers

  const TourVersion := "1.2"
  const HomeRoute := "/home"

  datatype TourStep = TourStep(id: string, target: string, route: Option<string>)

  /** The configured steps, in order; every one is shown on the home route. */
  const TourSteps: seq<TourStep> := [
    TourStep("welcome", "body", Some(HomeRoute)),
    TourStep("connect-platform", "[data-tour=\"platform-button\"]", Some(HomeRoute)),
    TourStep("your-playlists", "[data-tour=\"home-tab\"]", Some(HomeRoute)),
    TourStep("shared-playlists-tab", "[data-tour=\"shared-tab\"]", Some(HomeRoute)),
    TourStep("friends-tab", "[data-tour=\"friends-tab\"]", Some(HomeRoute)),
    TourStep("profile-tab", "[data-tour=\"profile-tab\"]", Some(HomeRoute)),
    TourStep("notifications", "body", Some(HomeRoute)),
    TourStep("complete", "body", Some(HomeRoute))
  ]

  datatype TourState = TourState(completed: bool, skipped: bool, version: string, currentStep: int)

  /** A `Partial<TourState>`: the fields to overwrite. */
  datatype TourUpdate = TourUpdate(
    completed: Option<bool>, skipped: Option<bool>, version: Option<string>, currentStep: Option<int>)

  /** The storage slot: nothing (or an empty string), text `JSON.parse`
      rejects, or a saved state. */
  datatype Stored = Absent | Unparsable | Saved(state: TourState)

  const DefaultState := TourState(false, false, TourVersion, 0)

  /** `loadTourState`: the saved state, or the default when there is none or it does not parse. */
  function Load(stored: Stored): TourState
  {
    if stored.Saved? then stored.state else DefaultState
  }

  /** `{ ...current, ...update }`. */
  function Merge(current: TourState, u: TourUpdate): (r: TourState)
    ensures r.completed == (if u.completed.Some? then u.completed.value else current.completed)
    ensures r.skipped == (if u.skipped.Some? then u.skipped.value else current.skipped)
    ensures r.version == (if u.version.Some? then u.version.value else current.version)
    ensures r.currentStep == (if u.currentStep.Some? then u.currentStep.value else current.currentStep)
  {
    TourState(u.completed.GetOr(current.completed), u.skipped.GetOr(current.skipped),
              u.version.GetOr(current.version), u.currentStep.GetOr(current.currentStep))
  }

  /** `saveTourState`: the merged state replaces the slot. */
  function Save(stored: Stored, u: TourUpdate): Stored
  {
    Saved(Merge(Load(stored), u))
  }

  /** `hasSeenTour`. */
  predicate HasSeenTour(stored: Stored)
  {
    var s := Load(stored);
    (s.completed || s.skipped) && s.version == TourVersion
  }

  const SkipUpdate := TourUpdate(Some(false), Some(true), Some(TourVersion), None)
  const CompleteUpdate := TourUpdate(Some(true), Some(false), Some(TourVersion), None)

  function StepUpdate(i: int): TourUpdate { TourUpdate(None, None, None, Some(i)) }

  /** Saving only the step keeps whether the tour was seen; skipping or
      completing marks it seen, for the current version; clearing the slot
      forgets it. */
  lemma SeenAfterSaves(stored: Stored, i: int)
    ensures HasSeenTour(Save(stored, StepUpdate(i))) == HasSeenTour(stored)
    ensures Load(Save(stored, StepUpdate(i))).currentStep == i
    ensures HasSeenTour(Save(stored, SkipUpdate)) && Load(Save(stored, SkipUpdate)).skipped
    ensures HasSeenTour(Save(stored, CompleteUpdate)) && Load(Save(stored, CompleteUpdate)).completed
    ensures !HasSeenTour(Absent)
  {
  }

  /** `Math.round(p / q)`: the nearest integer, halves rounded up. */
  function RoundHalfUp(p: int, q: int): (r: int)
    requires q > 0
    ensures 2 * q * r <= 2 * p + q < 2 * q * r + 2 * q
  {
    (2 * p + q) / (2 * q)
  }

  /** `progress`, in percent. */
  function Progress(i: int): int
  {
    RoundHalfUp((i + 1) * 100, |TourSteps|)
  }

  /** Progress grows with the step and reaches 100 on the last one. */
  lemma ProgressRange(i: int, j: int)
    requires 0 <= i < j < |TourSteps|
    ensures 13 <= Progress(i) < Progress(j) <= 100
    ensures Progress(|TourSteps| - 1) == 100 && Progress(0) == 13
  {
  }

  function CurrentStep(i: int): Option<TourStep>
  {
    if 0 <= i < |TourSteps| then Some(TourSteps[i]) else None
  }

  class Tour {
    var isActive: bool
    var currentStepIndex: int
    var storage: Stored

    /** The index always names a step. */
    predicate Valid()
      reads this
    {
      0 <= currentStepIndex < |TourSteps|
    }

    constructor (storedAtStart: Stored)
      ensures Valid() && !isActive && currentStepIndex == 0 && storage == storedAtStart
    {
      isActive := false;
      currentStepIndex := 0;
      storage := storedAtStart;
    }

    function IsFirstStep(): bool
      reads this
    {
      currentStepIndex == 0
    }

    function IsLastStep(): bool
      reads this
    {
      currentStepIndex == |TourSteps| - 1
    }

    /** `startTour`: back to the first step, active, on its route. */
    method StartTour() returns (navigation: Option<string>)
      modifies this
      ensures Valid() && currentStepIndex == 0 && isActive
      ensures navigation == Some(HomeRoute)
      ensures storage == Save(old(storage), StepUpdate(0))
    {
      currentStepIndex := 0;
      isActive := true;
      var firstStep := TourSteps[0];
      navigation := firstStep.route;
      storage := Save(storage, StepUpdate(0));
    }

    /** `nextStep`: on the last step the tour completes and the index stays;
        otherwise the index moves on by one. */
    method NextStep(currentPath: string) returns (navigation: Option<string>)
      requires Valid()
      modifies this
      ensures Valid()
      ensures old(IsLastStep()) ==>
        currentStepIndex == old(currentStepIndex) && !isActive && navigation == None
        && storage == Save(old(storage), CompleteUpdate)
      ensures !old(IsLastStep()) ==>
        currentStepIndex == old(currentStepIndex) + 1 && isActive == old(isActive)
        && navigation == (if currentPath != HomeRoute then Some(HomeRoute) else None)
        && storage == Save(old(storage), StepUpdate(currentStepIndex))
    {
      if currentStepIndex == |TourSteps| - 1 {
        CompleteTour();
        return None;
      }
      currentStepIndex := currentStepIndex + 1;
      var step := TourSteps[currentStepIndex];
      navigation := None;
      if step.route.Some? && currentPath != step.route.value {
        navigation := step.route;
      }
      storage := Save(storage, StepUpdate(currentStepIndex));
    }

    /** `previousStep`: nothing on the first step, otherwise back by one. */
    method PreviousStep(currentPath: string) returns (navigation: Option<string>)
      requires Valid()
      modifies this
      ensures Valid() && isActive == old(isActive)
      ensures old(IsFirstStep()) ==> currentStepIndex == 0 && navigation == None && storage == old(storage)
      ensures !old(IsFirstStep()) ==>
        currentStepIndex == old(currentStepIndex) - 1
        && navigation == (if currentPath != HomeRoute then Some(HomeRoute) else None)
        && storage == Save(old(storage), StepUpdate(currentStepIndex))
    {
      if currentStepIndex == 0 {
        return None;
      }
      currentStepIndex := currentStepIndex - 1;
      var step := TourSteps[currentStepIndex];
      navigation := None;
      if step.route.Some? && currentPath != step.route.value {
        navigation := step.route;
      }
      storage := Save(storage, StepUpdate(currentStepIndex));
    }

    method SkipTour()
      modifies this
      ensures !isActive && currentStepIndex == old(currentStepIndex)
      ensures storage == Save(old(storage), SkipUpdate) && HasSeenTour(storage)
    {
      isActive := false;
      storage := Save(storage, SkipUpdate);
    }

    method CompleteTour()
      modifies this
      ensures !isActive && currentStepIndex == old(currentStepIndex)
      ensures storage == Save(old(storage), CompleteUpdate) && HasSeenTour(storage)
    {
      isActive := false;
      storage := Save(storage, CompleteUpdate);
    }

    method ResetTour()
      modifies this
      ensures Valid() && storage == Absent && currentStepIndex == 0 && !isActive
      ensures !HasSeenTour(storage)
    {
      storage := Absent;
      currentStepIndex := 0;
      isActive := false;
    }
  }

  /** Seven `nextStep` calls from the start reach the last step, and the
      eighth completes the tour. */
  method WalkThrough(tour: Tour)
    requires tour.Valid() && tour.currentStepIndex == 0
    modifies tour
    ensures !tour.isActive && tour.currentStepIndex == |TourSteps| - 1
    ensures HasSeenTour(tour.storage) && Load(tour.storage).completed
  {
    var calls := 0;
    while calls < |TourSteps| - 1
      invariant 0 <= calls <= |TourSteps| - 1
      invariant tour.Valid() && tour.currentStepIndex == calls
    {
      var _ := tour.NextStep(HomeRoute);
      calls := calls + 1;
    }
    var _ := tour.NextStep(HomeRoute);
  }
}
