/** The focus countdown: a timer that starts, pauses, resumes and resets, counts down once a second
    while it runs, and at zero raises the completion alert whose button records the session.
    The repeating one-second timer is the `timerScheduled` flag: `Tick` is its callback and
    may only happen while it is scheduled. */
module FocusSession {
  import opened Basics
  import opened Models

  /** `activeGoals`: the goals not yet completed, in list order. */
  function ActiveGoals(goals: seq<Goal>): (r: seq<Goal>)
    ensures forall i :: 0 <= i < |r| ==> !r[i].isCompleted && r[i] in goals
    ensures forall i :: 0 <= i < |goals| && !goals[i].isCompleted ==> goals[i] in r
  {
    Filter(goals, (g: Goal) => !g.isCompleted)
  }

  /** The active goals of a list made of two parts are those of the first part followed by those of
      the second: the selection never reorders goals. */
  lemma ActiveGoalsKeepOrder(a: seq<Goal>, b: seq<Goal>)
    ensures ActiveGoals(a + b) == ActiveGoals(a) + ActiveGoals(b)
  {
    FilterConcat(a, b, (g: Goal) => !g.isCompleted);
  }

  /** A goal credited up to its target leaves the active list. */
  lemma CompletedGoalNotActive(goals: seq<Goal>, goalId: Uuid, i: nat)
    requires IndexOfId(goals, goalId) == Some(i)
    requires goals[i].completedSessions + 1 >= goals[i].targetSessions
    ensures CreditGoal(goals, Some(goalId))[i] !in ActiveGoals(CreditGoal(goals, Some(goalId)))
  {
    var credited := CreditGoal(goals, Some(goalId));
    assert credited[i].isCompleted;
  }

  /** The minutes and seconds `timeString` shows for a number of seconds, before zero-padding. */
  function ClockParts(seconds: int): (sp: Split)
    ensures seconds >= 0 ==> sp.whole * 60 + sp.rest == seconds && 0 <= sp.rest < 60
  {
    SplitBySixty(seconds)
  }

  /** `FocusSessionView`'s timer state. */
  class FocusSessionView {
    const appData: AppData
    var timeRemaining: int
    var totalTime: int
    var isRunning: bool
    var isPaused: bool
    var showingCompletion: bool
    var selectedGoal: Option<Goal>
    /** Whether the repeating one-second timer is scheduled. */
    var timerScheduled: bool

    /** Running and paused exclude each other, the timer is scheduled exactly while running,
        and the countdown stays between 0 (once it started from a non-negative total) and the total. */
    predicate Valid()
      reads this`isRunning, this`isPaused, this`timerScheduled, this`timeRemaining, this`totalTime
    {
      !(isRunning && isPaused)
      && timerScheduled == isRunning
      && timeRemaining <= totalTime
      && (totalTime >= 0 ==> timeRemaining >= 0)
    }

    /** The view as it appears: idle, with the whole session still to run. */
    constructor (appData: AppData)
      ensures this.appData == appData
      ensures totalTime == appData.defaultTimerDuration * 60 && timeRemaining == totalTime
      ensures !isRunning && !isPaused && !showingCompletion && selectedGoal.None? && !timerScheduled
      ensures Valid()
    {
      this.appData := appData;
      timeRemaining, totalTime := 0, 0;
      isRunning, isPaused, showingCompletion := false, false, false;
      selectedGoal := None;
      timerScheduled := false;
      new;
      totalTime := appData.defaultTimerDuration * 60;
      timeRemaining := totalTime;
    }

    /** "Start" (shown while neither running nor paused) and "Resume" (shown while paused). */
    method StartTimer()
      requires Valid() && !isRunning
      modifies this`isRunning, this`isPaused, this`timerScheduled
      ensures isRunning && !isPaused && timerScheduled
      ensures Valid()
    {
      isRunning := true;
      isPaused := false;
      timerScheduled := true;
    }

    method ResumeTimer()
      requires Valid() && isPaused
      modifies this`isRunning, this`isPaused, this`timerScheduled
      ensures isRunning && !isPaused && timerScheduled
      ensures Valid()
    {
      StartTimer();
    }

    /** "Pause", shown while running: the timer is invalidated and the countdown keeps its value. */
    method PauseTimer()
      requires Valid() && isRunning
      modifies this`isRunning, this`isPaused, this`timerScheduled
      ensures !isRunning && isPaused && !timerScheduled
      ensures Valid()
    {
      isRunning := false;
      isPaused := true;
      timerScheduled := false;
    }

    /** "Reset", shown while running or paused: back to idle with the whole session to run. */
    method ResetTimer()
      requires Valid() && (isRunning || isPaused)
      modifies this`isRunning, this`isPaused, this`timerScheduled, this`timeRemaining
      ensures !isRunning && !isPaused && !timerScheduled && timeRemaining == totalTime
      ensures Valid()
    {
      isRunning := false;
      isPaused := false;
      timeRemaining := totalTime;
      timerScheduled := false;
    }

    /** `completeSession()`: both flags cleared, the timer invalidated and the alert raised. */
    method CompleteSession()
      requires Valid()
      modifies this`isRunning, this`isPaused, this`timerScheduled, this`showingCompletion
      ensures !isRunning && !isPaused && !timerScheduled && showingCompletion
      ensures Valid()
    {
      isRunning := false;
      isPaused := false;
      timerScheduled := false;
      showingCompletion := true;
    }

    /** The timer's callback: one second off while any remain, otherwise the session completes. */
    method Tick()
      requires Valid() && timerScheduled
      modifies this`isRunning, this`isPaused, this`timerScheduled, this`showingCompletion, this`timeRemaining
      ensures old(timeRemaining) > 0 ==>
        timeRemaining == old(timeRemaining) - 1 && isRunning && timerScheduled && showingCompletion == old(showingCompletion)
      ensures old(timeRemaining) <= 0 ==>
        timeRemaining == old(timeRemaining) && !isRunning && !isPaused && !timerScheduled && showingCompletion
      ensures old(timeRemaining) >= 0 ==> timeRemaining >= 0
      ensures Valid()
    {
      if timeRemaining > 0 {
        timeRemaining := timeRemaining - 1;
      } else {
        CompleteSession();
      }
    }

    /** The goal sheet: no goal, or one of the active goals. */
    method SelectGoal(choice: Option<Goal>)
      requires choice.Some? ==> choice.value in ActiveGoals(appData.goals)
      modifies this`selectedGoal
      ensures selectedGoal == choice
    {
      selectedGoal := choice;
    }

    /** The completion alert's button: records a session of the configured length, credited to the
        selected goal's id, at `now`. */
    method ConfirmCompletion(now: Instant)
      requires showingCompletion
      modifies this`showingCompletion, appData
      ensures !showingCompletion
      ensures appData.State() == AfterSession(old(appData.State()), old(appData.defaultTimerDuration),
        if selectedGoal.Some? then Some(selectedGoal.value.id) else None, now)
      ensures appData.defaults == Save(old(appData.defaults), appData.State())
    {
      showingCompletion := false;
      var goalId := if selectedGoal.Some? then Some(selectedGoal.value.id) else None;
      appData.CompleteFocusSession(appData.defaultTimerDuration, goalId, now);
    }
  }
}
