/** The goal screens: the new-goal form, the edit form and the delete confirmation on a goal card.
    Each form keeps its text fields and its target-sessions stepper in place; its buttons are
    methods, and a button that is disabled in some state requires the state that enables it. */
module GoalsView {
  import opened Basics
  import opened Text
  import opened Models

  /** The largest target either stepper reaches. */
  const MaxTarget: int := 100

  /** The new-goal "-" button: down by one only while above 1. */
  function AddStepDown(target: int): (r: int)
    ensures r == target || r == target - 1
    ensures r < target <==> target > 1
    ensures 1 <= target <= MaxTarget ==> 1 <= r <= MaxTarget
  {
    if target > 1 then target - 1 else target
  }

  /** Either "+" button: up by one only while below 100. */
  function StepUp(target: int): (r: int)
    ensures r == target || r == target + 1
    ensures r > target <==> target < MaxTarget
    ensures target <= MaxTarget ==> r <= MaxTarget
  {
    if target < MaxTarget then target + 1 else target
  }

  /** The edit "-" button: down by one only while above both 1 and the sessions already done. */
  function EditStepDown(target: int, completed: int): (r: int)
    ensures r == target || r == target - 1
    ensures r < target <==> target > Max(1, completed)
    ensures target >= Max(1, completed) ==> r >= Max(1, completed)
  {
    if target > Max(1, completed) then target - 1 else target
  }

  function Max(a: int, b: int): int {
    if a >= b then a else b
  }

  /** A sequence of taps on the new-goal stepper: `true` is "+", `false` is "-". */
  function AddStepperAfter(target: int, taps: seq<bool>): int
    decreases |taps|
  {
    if taps == [] then target
    else AddStepperAfter(if taps[0] then StepUp(target) else AddStepDown(target), taps[1..])
  }

  /** Whatever the taps, the new-goal target that starts at 5 stays within [1, 100]. */
  lemma {:induction false} AddStepperStaysInRange(target: int, taps: seq<bool>)
    requires 1 <= target <= MaxTarget
    ensures 1 <= AddStepperAfter(target, taps) <= MaxTarget
    decreases |taps|
  {
    if taps != [] {
      AddStepperStaysInRange(if taps[0] then StepUp(target) else AddStepDown(target), taps[1..]);
    }
  }

  /** The goal "Save Changes" writes: the form's title, description and target on the edited goal,
      its id, session count and creation date kept, and completion recomputed from scratch. */
  function EditedGoal(goal: Goal, title: string, description: string, target: int): (r: Goal)
    ensures r.id == goal.id && r.completedSessions == goal.completedSessions && r.createdDate == goal.createdDate
    ensures r.title == title && r.description == description && r.targetSessions == target
    ensures r.isCompleted <==> goal.completedSessions >= target
  {
    var updated := goal.(title := title, description := description, targetSessions := target);
    if updated.completedSessions >= updated.targetSessions then updated.(isCompleted := true)
    else updated.(isCompleted := false)
  }

  /** After an edit with a positive target, the completion flag agrees with the progress bar being full. */
  lemma EditedGoalCompleteIffFull(goal: Goal, title: string, description: string, target: int)
    requires target > 0
    ensures EditedGoal(goal, title, description, target).isCompleted
      <==> ProgressPercentage(EditedGoal(goal, title, description, target)) == 1.0
  {
  }

  /** Raising the target above the sessions done turns a completed goal back into an open one. */
  lemma RaisingTargetReopens(goal: Goal, target: int)
    requires goal.isCompleted && goal.completedSessions < target
    ensures !EditedGoal(goal, goal.title, goal.description, target).isCompleted
  {
  }

  /** `AddGoalView`: the new-goal form. */
  class AddGoalView {
    const appData: AppData
    var title: string
    var description: string
    var targetSessions: int

    predicate Valid()
      reads this`targetSessions
    {
      1 <= targetSessions <= MaxTarget
    }

    /** The form as it opens: empty texts and a target of 5. */
    constructor (appData: AppData)
      ensures this.appData == appData
      ensures title == "" && description == "" && targetSessions == 5
      ensures Valid()
    {
      this.appData := appData;
      title, description, targetSessions := "", "", 5;
    }

    method Decrement()
      modifies this`targetSessions
      ensures targetSessions == AddStepDown(old(targetSessions))
      ensures old(Valid()) ==> Valid()
    {
      if targetSessions > 1 {
        targetSessions := targetSessions - 1;
      }
    }

    method Increment()
      modifies this`targetSessions
      ensures targetSessions == StepUp(old(targetSessions))
      ensures old(Valid()) ==> Valid()
    {
      if targetSessions < MaxTarget {
        targetSessions := targetSessions + 1;
      }
    }

    /** "Create Goal", enabled only when the title has content: appends a new goal with the form's
        values, no sessions and not completed; `id` and `now` stand for `UUID()` and `Date()`. */
    method CreateGoal(id: Uuid, now: Instant)
      requires HasContent(title)
      modifies appData
      ensures appData.State() == WithGoalAdded(old(appData.State()), NewGoal(id, title, now, description, targetSessions))
      ensures appData.defaults == Save(old(appData.defaults), appData.State())
    {
      var newGoal := NewGoal(id, title, now, description, targetSessions);
      appData.AddGoal(newGoal);
    }
  }

  /** `EditGoalView`: the edit form for one goal. */
  class EditGoalView {
    const goal: Goal
    const appData: AppData
    var title: string
    var description: string
    var targetSessions: int

    /** The form as it appears: its fields copied from the goal. */
    constructor (goal: Goal, appData: AppData)
      ensures this.goal == goal && this.appData == appData
      ensures title == goal.title && description == goal.description && targetSessions == goal.targetSessions
    {
      this.goal, this.appData := goal, appData;
      title, description, targetSessions := "", "", 5;
      new;
      OnAppear();
    }

    method OnAppear()
      modifies this`title, this`description, this`targetSessions
      ensures title == goal.title && description == goal.description && targetSessions == goal.targetSessions
    {
      title := goal.title;
      description := goal.description;
      targetSessions := goal.targetSessions;
    }

    method Decrement()
      modifies this`targetSessions
      ensures targetSessions == EditStepDown(old(targetSessions), goal.completedSessions)
    {
      if targetSessions > Max(1, goal.completedSessions) {
        targetSessions := targetSessions - 1;
      }
    }

    method Increment()
      modifies this`targetSessions
      ensures targetSessions == StepUp(old(targetSessions))
    {
      if targetSessions < MaxTarget {
        targetSessions := targetSessions + 1;
      }
    }

    /** "Save Changes", enabled only when the title has content: replaces the goal with the same id. */
    method SaveChanges()
      requires HasContent(title)
      modifies appData
      ensures appData.State() == WithGoalUpdated(old(appData.State()), EditedGoal(goal, title, description, targetSessions))
      ensures appData.defaults ==
        if IndexOfId(old(appData.goals), goal.id).Some? then Save(old(appData.defaults), appData.State())
        else old(appData.defaults)
    {
      var updatedGoal := goal;
      updatedGoal := updatedGoal.(title := title, description := description, targetSessions := targetSessions);
      if updatedGoal.completedSessions >= updatedGoal.targetSessions {
        updatedGoal := updatedGoal.(isCompleted := true);
      } else {
        updatedGoal := updatedGoal.(isCompleted := false);
      }
      appData.UpdateGoal(updatedGoal);
    }
  }

  /** The goal card's delete confirmation: only the destructive button deletes. */
  method RespondToDeleteAlert(appData: AppData, goal: Goal, choice: AlertChoice)
    modifies appData
    ensures choice == Cancel ==> appData.State() == old(appData.State()) && appData.defaults == old(appData.defaults)
    ensures choice == Destructive ==>
      appData.State() == WithGoalDeleted(old(appData.State()), goal)
      && appData.defaults == Save(old(appData.defaults), appData.State())
  {
    if choice == Destructive {
      appData.DeleteGoal(goal);
    }
  }
}
