/** The dashboard: its preview of active goals, its rotating quote, and the timer-settings sheet
    whose stepper moves the session length in steps of 5 minutes. */
module Dashboard {
  import opened Basics
  import opened Models
  import opened FocusSession

  // ---------------------------------------------------------------- goal preview

  /** The goals the dashboard lists: the first two (or fewer) goals that are not completed. */
  function GoalPreview(goals: seq<Goal>): (r: seq<Goal>)
    ensures |r| <= 2
    ensures r <= ActiveGoals(goals)
    ensures |r| == 2 || r == ActiveGoals(goals)
  {
    var active := ActiveGoals(goals);
    if |active| <= 2 then active else active[..2]
  }

  /** The preview is empty exactly when no goal is open: with goals in the list, that is when the
      dashboard says all goals are completed. */
  lemma EmptyPreviewMeansAllCompleted(goals: seq<Goal>)
    ensures GoalPreview(goals) == [] <==> forall i :: 0 <= i < |goals| ==> goals[i].isCompleted
  {
  }

  // ---------------------------------------------------------------- quotes

  const Quotes: seq<string> := [
    "Success is the sum of small efforts repeated day in and day out.",
    "The way to get started is to quit talking and begin doing.",
    "Don't watch the clock; do what it does. Keep going.",
    "The future depends on what you do today.",
    "Excellence is never an accident. It is always the result of high intention."
  ]

  /** The quote shown after `steps` rotations starting from the first one. */
  function QuoteIndexAfter(steps: nat): (i: nat)
    ensures i < |Quotes|
  {
    if steps == 0 then 0 else (QuoteIndexAfter(steps - 1) + 1) % |Quotes|
  }

  /** The rotation walks through the quotes in order and comes back to the first after all five. */
  lemma {:induction false} QuoteRotationCycles(steps: nat)
    ensures QuoteIndexAfter(steps) == steps % |Quotes|
  {
    if steps > 0 {
      QuoteRotationCycles(steps - 1);
    }
  }

  /** The dashboard's quote state. */
  class DashboardView {
    const appData: AppData
    var currentQuoteIndex: int

    predicate Valid()
      reads this`currentQuoteIndex
    {
      0 <= currentQuoteIndex < |Quotes|
    }

    constructor (appData: AppData)
      ensures this.appData == appData && currentQuoteIndex == 0
      ensures Valid()
    {
      this.appData := appData;
      currentQuoteIndex := 0;
    }

    /** The rotation timer's callback: the next quote, wrapping after the last. */
    method RotateQuote()
      requires Valid()
      modifies this`currentQuoteIndex
      ensures currentQuoteIndex == (old(currentQuoteIndex) + 1) % |Quotes|
      ensures Valid()
    {
      currentQuoteIndex := (currentQuoteIndex + 1) % |Quotes|;
    }
  }

  // ---------------------------------------------------------------- timer settings

  const TimerOptions: seq<int> := [5, 10, 15, 20, 25, 30, 45, 60, 90]

  /** The shortest and longest session lengths the stepper reaches. */
  const MinDuration: int := 5
  const MaxDuration: int := 120

  /** A duration the stepper can show when it starts from 25: a multiple of 5 within [5, 120]. */
  predicate OnGrid(d: int) {
    MinDuration <= d <= MaxDuration && d % 5 == 0
  }

  /** The "-" button: 5 less while above 5. */
  function DurationDown(d: int): (r: int)
    ensures r == d || r == d - 5
    ensures r < d <==> d > MinDuration
    ensures OnGrid(d) ==> OnGrid(r)
  {
    if d > MinDuration then d - 5 else d
  }

  /** The "+" button: 5 more while below 120. */
  function DurationUp(d: int): (r: int)
    ensures r == d || r == d + 5
    ensures r > d <==> d < MaxDuration
    ensures OnGrid(d) ==> OnGrid(r)
  {
    if d < MaxDuration then d + 5 else d
  }

  /** Every quick-select option is a stepper value, and the default length is one of them. */
  lemma TimerOptionsOnGrid()
    ensures forall i :: 0 <= i < |TimerOptions| ==> OnGrid(TimerOptions[i])
    ensures DefaultTimerDuration in TimerOptions
  {
    assert TimerOptions[4] == DefaultTimerDuration;
  }

  /** `TimerSettingsView`: the duration being chosen. */
  class TimerSettingsView {
    const appData: AppData
    var selectedDuration: int

    /** The sheet as it appears: the stored session length. */
    constructor (appData: AppData)
      ensures this.appData == appData && selectedDuration == appData.defaultTimerDuration
    {
      this.appData := appData;
      selectedDuration := 25;
      new;
      selectedDuration := appData.defaultTimerDuration;
    }

    method Decrease()
      modifies this`selectedDuration
      ensures selectedDuration == DurationDown(old(selectedDuration))
      ensures old(OnGrid(selectedDuration)) ==> OnGrid(selectedDuration)
    {
      if selectedDuration > MinDuration {
        selectedDuration := selectedDuration - 5;
      }
    }

    method Increase()
      modifies this`selectedDuration
      ensures selectedDuration == DurationUp(old(selectedDuration))
      ensures old(OnGrid(selectedDuration)) ==> OnGrid(selectedDuration)
    {
      if selectedDuration < MaxDuration {
        selectedDuration := selectedDuration + 5;
      }
    }

    /** A quick-select button. */
    method QuickSelect(option: int)
      requires option in TimerOptions
      modifies this`selectedDuration
      ensures selectedDuration == option && OnGrid(selectedDuration)
    {
      TimerOptionsOnGrid();
      selectedDuration := option;
    }

    /** "Save Settings": the chosen length becomes the stored default. */
    method SaveSettings()
      modifies appData
      ensures appData.State() == WithTimerDuration(old(appData.State()), selectedDuration)
      ensures appData.defaults == Save(old(appData.defaults), appData.State())
    {
      appData.SetTimerDuration(selectedDuration);
    }
  }
}
