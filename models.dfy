/** The progress store of the app: the `Goal` record, the eight fields the
    `AppData` object keeps, the day-resolution streak rule, and the mapping of
    those fields to and from the key-value store (`UserDefaults`).

    The pure functions below state what each store operation does to the
    eight fields; the class `AppData` at the end performs the same operations
    in place, field by field, and is proved against them. */
module Models {
  import opened Basics

  /** A goal identifier (a UUID in the app); only equality matters. */
  type Uuid = nat

  /** An instant, in seconds from a fixed reference in local time. */
  type Instant = int

  const SecondsPerDay: int := 86400

  /** The calendar day an instant falls on (`Calendar.startOfDay`, as a day number). */
  function DayOf(t: Instant): (d: int)
    ensures d * SecondsPerDay <= t < d * SecondsPerDay + SecondsPerDay
  {
    t / SecondsPerDay
  }

  // ---------------------------------------------------------------- Goal

  datatype Goal = Goal(
    id: Uuid,
    title: string,
    description: string,
    isCompleted: bool,
    completedSessions: int,
    targetSessions: int,
    createdDate: Instant)

  /** `Goal(title:description:targetSessions:)`: a fresh id and creation date are supplied by the caller. */
  function NewGoal(id: Uuid, title: string, now: Instant, description: string := "", targetSessions: int := 1): (g: Goal)
    ensures g.id == id && g.title == title && g.description == description
    ensures g.targetSessions == targetSessions && g.createdDate == now
    ensures g.completedSessions == 0 && !g.isCompleted
  {
    Goal(id, title, description, false, 0, targetSessions, now)
  }

  /** Share of the target reached, capped at 1, and 0 for a non-positive target. */
  function ProgressPercentage(g: Goal): (p: real)
    ensures g.targetSessions <= 0 ==> p == 0.0
    ensures p <= 1.0
    ensures g.completedSessions >= 0 ==> 0.0 <= p
    ensures g.targetSessions > 0 ==> (p == 1.0 <==> g.completedSessions >= g.targetSessions)
  {
    if g.targetSessions <= 0 then 0.0
    else
      var ratio := g.completedSessions as real / g.targetSessions as real;
      assert g.completedSessions >= g.targetSessions <==> ratio >= 1.0 by {
        assert ratio * g.targetSessions as real == g.completedSessions as real;
      }
      if ratio < 1.0 then ratio else 1.0
  }

  /** One completed session credited to a goal; a goal is marked complete once it reaches its target
      and is never marked incomplete here. */
  function RecordSession(g: Goal): (r: Goal)
    ensures r.id == g.id && r.title == g.title && r.description == g.description
    ensures r.targetSessions == g.targetSessions && r.createdDate == g.createdDate
    ensures r.completedSessions == g.completedSessions + 1
    ensures r.isCompleted <==> g.isCompleted || r.completedSessions >= r.targetSessions
  {
    var bumped := g.(completedSessions := g.completedSessions + 1);
    if bumped.completedSessions >= bumped.targetSessions then bumped.(isCompleted := true) else bumped
  }

  /** `g` after `n` sessions credited to it. */
  function RecordSessions(g: Goal, n: nat): Goal {
    if n == 0 then g else RecordSession(RecordSessions(g, n - 1))
  }

  /** A new goal with a positive target is completed exactly when its session count reaches the target. */
  lemma {:induction false} CompletedExactlyAtTarget(g: Goal, n: nat)
    requires g.completedSessions == 0 && !g.isCompleted && g.targetSessions >= 1
    ensures RecordSessions(g, n).completedSessions == n
    ensures RecordSessions(g, n).isCompleted <==> n >= g.targetSessions
    ensures RecordSessions(g, n).targetSessions == g.targetSessions
  {
    if n > 0 {
      CompletedExactlyAtTarget(g, n - 1);
    }
  }

  // ---------------------------------------------------------------- goal list

  function HasId(id: Uuid): Goal -> bool {
    (g: Goal) => g.id == id
  }

  function LacksId(id: Uuid): Goal -> bool {
    (g: Goal) => g.id != id
  }

  /** Position of the first goal with this id. */
  function IndexOfId(goals: seq<Goal>, id: Uuid): (r: Option<nat>)
    ensures r.None? <==> forall i :: 0 <= i < |goals| ==> goals[i].id != id
    ensures r.Some? ==> r.value < |goals| && goals[r.value].id == id
    ensures r.Some? ==> forall i :: 0 <= i < r.value ==> goals[i].id != id
  {
    FirstIndexWhere(goals, HasId(id))
  }

  /** The goal list after a session credited to `goalId`: only the first goal with that id changes. */
  function CreditGoal(goals: seq<Goal>, goalId: Option<Uuid>): (r: seq<Goal>)
    ensures |r| == |goals|
    ensures forall i :: 0 <= i < |goals| && (goalId.None? || Some(i) != IndexOfId(goals, goalId.value)) ==>
      r[i] == goals[i]
    ensures goalId.Some? && IndexOfId(goals, goalId.value).Some? ==>
      var i := IndexOfId(goals, goalId.value).value; r[i] == RecordSession(goals[i])
    ensures goalId.None? || IndexOfId(goals, goalId.value).None? ==> r == goals
    ensures forall i :: 0 <= i < |goals| && goals[i].isCompleted ==> r[i].isCompleted
  {
    match goalId
    case None => goals
    case Some(id) =>
      match IndexOfId(goals, id)
      case None => goals
      case Some(i) => goals[i := RecordSession(goals[i])]
  }

  /** The goal list after `updateGoal(goal)`: the first goal with the same id is replaced in place. */
  function ReplaceGoal(goals: seq<Goal>, goal: Goal): (r: seq<Goal>)
    ensures |r| == |goals|
    ensures IndexOfId(goals, goal.id).Some? ==> r[IndexOfId(goals, goal.id).value] == goal
    ensures forall i :: 0 <= i < |goals| && Some(i) != IndexOfId(goals, goal.id) ==> r[i] == goals[i]
    ensures IndexOfId(goals, goal.id).None? ==> r == goals
  {
    match IndexOfId(goals, goal.id)
    case None => goals
    case Some(i) => goals[i := goal]
  }

  /** The goal list after `deleteGoal(goal)`: every goal with that id is removed. */
  function RemoveGoal(goals: seq<Goal>, id: Uuid): (r: seq<Goal>)
    ensures forall i :: 0 <= i < |r| ==> r[i].id != id && r[i] in goals
    ensures forall i :: 0 <= i < |goals| && goals[i].id != id ==> goals[i] in r
  {
    Filter(goals, LacksId(id))
  }

  /** Deleting an id no goal carries leaves the list as it was. */
  lemma RemoveMissingGoal(goals: seq<Goal>, id: Uuid)
    requires forall i :: 0 <= i < |goals| ==> goals[i].id != id
    ensures RemoveGoal(goals, id) == goals
  {
    FilterKeepsAll(goals, LacksId(id));
  }

  /** Deletion keeps the relative order of the remaining goals: it works piecewise on any split of the list. */
  lemma RemoveGoalSplits(a: seq<Goal>, b: seq<Goal>, id: Uuid)
    ensures RemoveGoal(a + b, id) == RemoveGoal(a, id) + RemoveGoal(b, id)
  {
    FilterConcat(a, b, LacksId(id));
  }

  /** Deleting twice is deleting once. */
  lemma RemoveGoalIdempotent(goals: seq<Goal>, id: Uuid)
    ensures RemoveGoal(RemoveGoal(goals, id), id) == RemoveGoal(goals, id)
  {
    FilterIdempotent(goals, LacksId(id));
  }

  /** A goal appended and then deleted by its id leaves the goals without that id. */
  lemma AddThenRemoveGoal(goals: seq<Goal>, goal: Goal)
    ensures RemoveGoal(goals + [goal], goal.id) == RemoveGoal(goals, goal.id)
  {
    RemoveGoalSplits(goals, [goal], goal.id);
    assert RemoveGoal([goal], goal.id) == [];
  }

  // ---------------------------------------------------------------- streak

  /** The streak after a session at `now`, given the streak and the last session date before it. */
  function NextStreak(streak: int, last: Option<Instant>, now: Instant): (r: int)
    ensures last.None? ==> r == 1
    ensures r == 1 || r == streak || r == streak + 1
  {
    match last
    case None => 1
    case Some(lastDate) =>
      var daysBetween := DayOf(now) - DayOf(lastDate);
      if daysBetween == 1 then streak + 1
      else if daysBetween > 1 then 1
      else streak
  }

  /** A session on a day before the last session's day (the clock was set back) keeps the streak:
      only a gap of one day grows it and only a gap of more than one resets it. */
  lemma ClockSetBackKeepsStreak(streak: int, last: Instant, now: Instant)
    requires DayOf(now) < DayOf(last)
    ensures NextStreak(streak, Some(last), now) == streak
  {
  }

  // ---------------------------------------------------------------- the store's fields

  /** The eight fields of `AppData`. */
  datatype Progress = Progress(
    hasCompletedOnboarding: bool,
    totalFocusTime: int,
    totalSessions: int,
    totalSparks: int,
    currentStreak: int,
    goals: seq<Goal>,
    lastSessionDate: Option<Instant>,
    defaultTimerDuration: int)

  const DefaultTimerDuration: int := 25

  /** The fields' initial values, before anything is loaded. */
  const Initial: Progress := Progress(false, 0, 0, 0, 0, [], None, DefaultTimerDuration)

  function Onboarded(p: Progress): Progress {
    p.(hasCompletedOnboarding := true)
  }

  /** The counters part of a completed session: the minutes, one session and one spark. */
  function Counted(p: Progress, minutes: int): Progress {
    p.(totalFocusTime := p.totalFocusTime + minutes,
       totalSessions := p.totalSessions + 1,
       totalSparks := p.totalSparks + 1)
  }

  /** The goal part of a completed session. */
  function Credited(p: Progress, goalId: Option<Uuid>): Progress {
    p.(goals := CreditGoal(p.goals, goalId))
  }

  /** The streak part of a completed session at `now`. */
  function Streaked(p: Progress, now: Instant): Progress {
    p.(currentStreak := NextStreak(p.currentStreak, p.lastSessionDate, now),
       lastSessionDate := Some(now))
  }

  /** `completeFocusSession(minutes:goalId:)` at instant `now`: counters, then the goal, then the streak. */
  function AfterSession(p: Progress, minutes: int, goalId: Option<Uuid>, now: Instant): (r: Progress)
    ensures r.totalFocusTime == p.totalFocusTime + minutes
    ensures r.totalSessions == p.totalSessions + 1 && r.totalSparks == p.totalSparks + 1
    ensures r.goals == CreditGoal(p.goals, goalId)
    ensures r.currentStreak == NextStreak(p.currentStreak, p.lastSessionDate, now) && r.lastSessionDate == Some(now)
    ensures r.hasCompletedOnboarding == p.hasCompletedOnboarding && r.defaultTimerDuration == p.defaultTimerDuration
  {
    Streaked(Credited(Counted(p, minutes), goalId), now)
  }

  function WithSparks(p: Progress, count: int): Progress {
    p.(totalSparks := p.totalSparks + count)
  }

  function WithGoalAdded(p: Progress, goal: Goal): Progress {
    p.(goals := p.goals + [goal])
  }

  function WithGoalUpdated(p: Progress, goal: Goal): Progress {
    p.(goals := ReplaceGoal(p.goals, goal))
  }

  function WithGoalDeleted(p: Progress, goal: Goal): Progress {
    p.(goals := RemoveGoal(p.goals, goal.id))
  }

  function WithTimerDuration(p: Progress, minutes: int): Progress {
    p.(defaultTimerDuration := minutes)
  }

  /** `resetProgress()`: everything back to its initial value except the onboarding flag. */
  function AfterReset(p: Progress): (r: Progress)
    ensures r == Initial.(hasCompletedOnboarding := p.hasCompletedOnboarding)
  {
    p.(totalFocusTime := 0, totalSessions := 0, totalSparks := 0, currentStreak := 0,
       goals := [], lastSessionDate := None, defaultTimerDuration := DefaultTimerDuration)
  }

  /** Completing onboarding twice is completing it once. */
  lemma OnboardingIdempotent(p: Progress)
    ensures Onboarded(Onboarded(p)) == Onboarded(p)
  {
  }

  /** Resetting twice is resetting once, and the onboarding flag survives it. */
  lemma ResetIdempotent(p: Progress)
    ensures AfterReset(AfterReset(p)) == AfterReset(p)
    ensures AfterReset(p).hasCompletedOnboarding == p.hasCompletedOnboarding
  {
  }

  // ---------------------------------------------------------------- sequences of sessions

  datatype Session = Session(minutes: int, goalId: Option<Uuid>, now: Instant)

  /** The fields after the sessions `es`, in order. */
  function Replay(p: Progress, es: seq<Session>): Progress
    decreases |es|
  {
    if es == [] then p
    else
      var e := es[|es| - 1];
      AfterSession(Replay(p, es[..|es| - 1]), e.minutes, e.goalId, e.now)
  }

  function TotalMinutes(es: seq<Session>): int
    decreases |es|
  {
    if es == [] then 0 else TotalMinutes(es[..|es| - 1]) + es[|es| - 1].minutes
  }

  /** The day of each session, in order. */
  function SessionDays(es: seq<Session>): (r: seq<int>)
    ensures |r| == |es|
    ensures forall i :: 0 <= i < |es| ==> r[i] == DayOf(es[i].now)
  {
    seq(|es|, i requires 0 <= i < |es| => DayOf(es[i].now))
  }

  predicate HadSessionOn(es: seq<Session>, day: int) {
    day in SessionDays(es)
  }

  /** Session days never go backwards: the clock is not set back across a day boundary. */
  predicate DaysInOrder(es: seq<Session>) {
    forall i, j :: 0 <= i < j < |es| ==> DayOf(es[i].now) <= DayOf(es[j].now)
  }

  /** After any run of sessions the counters have grown by the number of sessions and by the minutes,
      and the onboarding flag and timer duration are unchanged. */
  lemma {:induction false} ReplayCounts(p: Progress, es: seq<Session>)
    ensures Replay(p, es).totalSessions == p.totalSessions + |es|
    ensures Replay(p, es).totalFocusTime == p.totalFocusTime + TotalMinutes(es)
    ensures Replay(p, es).totalSparks == p.totalSparks + |es|
    ensures Replay(p, es).hasCompletedOnboarding == p.hasCompletedOnboarding
    ensures Replay(p, es).defaultTimerDuration == p.defaultTimerDuration
  {
    if es != [] {
      ReplayCounts(p, es[..|es| - 1]);
    }
  }

  /** In ordered sessions no session falls after the last one's day. */
  lemma NoSessionAfterLast(es: seq<Session>, day: int)
    requires es != [] && DaysInOrder(es)
    requires day > DayOf(es[|es| - 1].now)
    ensures !HadSessionOn(es, day)
  {
    forall i | 0 <= i < |es| ensures SessionDays(es)[i] < day {
      if i < |es| - 1 {
        assert DayOf(es[i].now) <= DayOf(es[|es| - 1].now);
      }
    }
  }

  /** The streak fields after the last of `es` depend only on the streak fields before it. */
  lemma ReplayLastStreak(p: Progress, es: seq<Session>)
    requires es != []
    ensures var q := Replay(p, es[..|es| - 1]);
      Replay(p, es).currentStreak == NextStreak(q.currentStreak, q.lastSessionDate, es[|es| - 1].now)
      && Replay(p, es).lastSessionDate == Some(es[|es| - 1].now)
  {
    var last := es[|es| - 1];
    assert Replay(p, es) == AfterSession(Replay(p, es[..|es| - 1]), last.minutes, last.goalId, last.now);
  }

  /** Streak `k` counts the consecutive session days ending on the day of the last of `es`:
      each of those `k` days had a session and the day before them had none. */
  predicate StreakCounts(es: seq<Session>, k: int)
    requires es != []
  {
    var lastDay := DayOf(es[|es| - 1].now);
    k >= 1
    && (forall day :: (lastDay - k < day <= lastDay ==> HadSessionOn(es, day)))
    && !HadSessionOn(es, lastDay - k)
  }

  /** One step of the streak argument: a streak that counted the session days up to the last session
      but one, advanced by the last session, counts them up to the last session. */
  lemma StreakStep(es: seq<Session>, k: int)
    requires |es| >= 2 && DaysInOrder(es)
    requires StreakCounts(es[..|es| - 1], k)
    ensures StreakCounts(es, NextStreak(k, Some(es[|es| - 2].now), es[|es| - 1].now))
  {
    var init := es[..|es| - 1];
    assert init[|init| - 1] == es[|es| - 2];
    var day := DayOf(es[|es| - 1].now);
    var prevDay := DayOf(es[|es| - 2].now);
    assert SessionDays(es) == SessionDays(init) + [day];
    assert prevDay <= day;
    if day - prevDay == 0 {
      forall x | day - k < x <= day ensures HadSessionOn(es, x) {
        assert HadSessionOn(init, x);
      }
    } else if day - prevDay == 1 {
      forall x | day - (k + 1) < x <= day ensures HadSessionOn(es, x) {
        if x < day {
          assert HadSessionOn(init, x);
        }
      }
    } else {
      assert DaysInOrder(init) by {
        forall i, j | 0 <= i < j < |init| ensures DayOf(init[i].now) <= DayOf(init[j].now) {
          assert init[i] == es[i] && init[j] == es[j];
        }
      }
      NoSessionAfterLast(init, day - 1);
    }
  }

  /** The streak counts consecutive calendar days with a session: starting without a last session date,
      and with session days that never go backwards, the streak after the sessions is `StreakCounts`. */
  lemma {:induction false} StreakCountsConsecutiveDays(p: Progress, es: seq<Session>)
    requires p.lastSessionDate.None?
    requires es != [] && DaysInOrder(es)
    ensures Replay(p, es).lastSessionDate == Some(es[|es| - 1].now)
    ensures StreakCounts(es, Replay(p, es).currentStreak)
  {
    var init := es[..|es| - 1];
    ReplayLastStreak(p, es);
    if init == [] {
      assert SessionDays(es) == [DayOf(es[0].now)];
    } else {
      assert DaysInOrder(init) by {
        forall i, j | 0 <= i < j < |init| ensures DayOf(init[i].now) <= DayOf(init[j].now) {
          assert init[i] == es[i] && init[j] == es[j];
        }
      }
      StreakCountsConsecutiveDays(p, init);
      assert init[|init| - 1] == es[|es| - 2];
      StreakStep(es, Replay(p, init).currentStreak);
    }
  }

  /** A worked run: a fresh store, one goal-less session of 25 minutes, then a goal with target 2
      credited twice. */
  lemma FirstSessionsScenario(id: Uuid, t0: Instant, g: Goal)
    requires g == NewGoal(id, "Read", t0, targetSessions := 2)
    ensures AfterSession(Initial, 25, None, t0) ==
      Initial.(totalFocusTime := 25, totalSessions := 1, totalSparks := 1, currentStreak := 1, lastSessionDate := Some(t0))
    ensures
      var p1 := WithGoalAdded(AfterSession(Initial, 25, None, t0), g);
      var p3 := AfterSession(AfterSession(p1, 25, Some(id), t0), 25, Some(id), t0);
      p3.goals[0].completedSessions == 2 && p3.goals[0].isCompleted && p3.totalSessions == 3
      && p3.currentStreak == 1
  {
    var p1 := WithGoalAdded(AfterSession(Initial, 25, None, t0), g);
    assert p1.goals == [g];
    var p2 := AfterSession(p1, 25, Some(id), t0);
    assert IndexOfId(p1.goals, id) == Some(0);
    assert p2.goals[0] == RecordSession(g);
    assert IndexOfId(p2.goals, id) == Some(0);
  }

  // ---------------------------------------------------------------- persistence

  /** The goals list as the JSON encoder writes it; bytes that do not decode are `Undecodable`. */
  datatype Blob = GoalsJson(goals: seq<Goal>) | Undecodable

  /** A value as the key-value store holds it. */
  datatype Value = BoolValue(b: bool) | IntValue(i: int) | DateValue(t: Instant) | DataValue(blob: Blob)

  /** The key strings `saveData` writes. */
  const FixedNames: set<string> := {
    "hasCompletedOnboarding", "totalFocusTime", "totalSessions", "totalSparks",
    "currentStreak", "defaultTimerDuration", "goals", "lastSessionDate"}

  /** A key string other than the store's own. */
  type OtherName = name: string | name !in FixedNames witness "other"

  /** The keys the store uses; `Other` stands for any key some other part of the app may use. */
  datatype Key =
    | OnboardingKey | FocusTimeKey | SessionsKey | SparksKey | StreakKey | DurationKey | GoalsKey | LastSessionKey
    | Other(name: OtherName)
  {
    /** The key string as written in the key-value store. */
    function Name(): string {
      match this
      case OnboardingKey => "hasCompletedOnboarding"
      case FocusTimeKey => "totalFocusTime"
      case SessionsKey => "totalSessions"
      case SparksKey => "totalSparks"
      case StreakKey => "currentStreak"
      case DurationKey => "defaultTimerDuration"
      case GoalsKey => "goals"
      case LastSessionKey => "lastSessionDate"
      case Other(name) => name
    }
  }

  /** Different keys have different key strings, so the map from keys models the store keyed by string. */
  lemma KeyNamesDistinct(k1: Key, k2: Key)
    ensures k1.Name() == k2.Name() ==> k1 == k2
  {
    assert k1.Other? ==> k1.Name() !in FixedNames;
    assert k2.Other? ==> k2.Name() !in FixedNames;
  }

  /** The key-value store. */
  type Defaults = map<Key, Value>

  /** The keys the store writes on every save; the last session date is written only when there is one. */
  const AlwaysSaved: set<Key> :=
    {OnboardingKey, FocusTimeKey, SessionsKey, SparksKey, StreakKey, DurationKey, GoalsKey}

  function EncodeGoals(goals: seq<Goal>): Blob {
    GoalsJson(goals)
  }

  function DecodeGoals(b: Blob): Option<seq<Goal>> {
    match b
    case GoalsJson(goals) => Some(goals)
    case Undecodable => None
  }

  /** `bool(forKey:)`: false when the key is missing or holds something else. */
  function ReadBool(d: Defaults, key: Key): bool {
    if key in d && d[key].BoolValue? then d[key].b else false
  }

  /** `integer(forKey:)`: 0 when the key is missing or holds something else. */
  function ReadInt(d: Defaults, key: Key): int {
    if key in d && d[key].IntValue? then d[key].i else 0
  }

  /** `object(forKey:) as? Date`. */
  function ReadDate(d: Defaults, key: Key): Option<Instant> {
    if key in d && d[key].DateValue? then Some(d[key].t) else None
  }

  /** `data(forKey:)` followed by the JSON decoder. */
  function ReadGoals(d: Defaults): Option<seq<Goal>> {
    if GoalsKey in d && d[GoalsKey].DataValue? then DecodeGoals(d[GoalsKey].blob) else None
  }

  /** `saveData()`: every field written under its key; a missing last session date writes nothing. */
  function Save(d: Defaults, p: Progress): (r: Defaults)
    ensures AlwaysSaved <= r.Keys
    ensures r[OnboardingKey] == BoolValue(p.hasCompletedOnboarding)
    ensures r[FocusTimeKey] == IntValue(p.totalFocusTime) && r[SessionsKey] == IntValue(p.totalSessions)
    ensures r[SparksKey] == IntValue(p.totalSparks) && r[StreakKey] == IntValue(p.currentStreak)
    ensures r[DurationKey] == IntValue(p.defaultTimerDuration)
    ensures r[GoalsKey] == DataValue(EncodeGoals(p.goals)) && DecodeGoals(r[GoalsKey].blob) == Some(p.goals)
    ensures p.lastSessionDate.Some? ==> LastSessionKey in r && r[LastSessionKey] == DateValue(p.lastSessionDate.value)
  {
    var written := d[OnboardingKey := BoolValue(p.hasCompletedOnboarding)]
                    [FocusTimeKey := IntValue(p.totalFocusTime)]
                    [SessionsKey := IntValue(p.totalSessions)]
                    [SparksKey := IntValue(p.totalSparks)]
                    [StreakKey := IntValue(p.currentStreak)]
                    [DurationKey := IntValue(p.defaultTimerDuration)]
                    [GoalsKey := DataValue(EncodeGoals(p.goals))];
    match p.lastSessionDate
    case Some(t) => written[LastSessionKey := DateValue(t)]
    case None => written
  }

  /** `loadData()` run on the initial field values: missing values read as false/0/empty/absent,
      a stored duration of 0 reads as 25, and goals that are missing or do not decode read as empty. */
  function Load(d: Defaults): (p: Progress)
    ensures p.defaultTimerDuration != 0
    ensures ReadGoals(d).None? ==> p.goals == []
    ensures DurationKey !in d ==> p.defaultTimerDuration == DefaultTimerDuration
  {
    var duration := ReadInt(d, DurationKey);
    Progress(
      ReadBool(d, OnboardingKey),
      ReadInt(d, FocusTimeKey),
      ReadInt(d, SessionsKey),
      ReadInt(d, SparksKey),
      ReadInt(d, StreakKey),
      match ReadGoals(d) case Some(goals) => goals case None => [],
      ReadDate(d, LastSessionKey),
      if duration == 0 then DefaultTimerDuration else duration)
  }

  /** Saving writes the seven fixed keys and, only when there is a last session date, that date;
      every other key, and an old date when there is no new one, stays as it was. */
  lemma SaveTouchesOnlyItsKeys(d: Defaults, p: Progress)
    ensures Save(d, p).Keys == d.Keys + AlwaysSaved + (if p.lastSessionDate.Some? then {LastSessionKey} else {})
    ensures forall k :: k in d && k !in AlwaysSaved && k != LastSessionKey ==> Save(d, p)[k] == d[k]
    ensures p.lastSessionDate.None? && LastSessionKey in d ==> Save(d, p)[LastSessionKey] == d[LastSessionKey]
  {
  }

  /** Loading an empty store gives the initial field values. */
  lemma LoadEmpty()
    ensures Load(map[]) == Initial
  {
  }

  /** Load after save gives back every field, with two exceptions: a saved duration of 0 comes back
      as 25, and an absent last session date comes back as whatever date the store held before. */
  lemma LoadAfterSave(d: Defaults, p: Progress)
    ensures Load(Save(d, p)) == p.(
      defaultTimerDuration := if p.defaultTimerDuration == 0 then DefaultTimerDuration else p.defaultTimerDuration,
      lastSessionDate := if p.lastSessionDate.Some? then p.lastSessionDate else Load(d).lastSessionDate)
  {
    var r := Save(d, p);
    assert ReadGoals(r) == Some(p.goals);
    assert ReadDate(r, LastSessionKey) == if p.lastSessionDate.Some? then p.lastSessionDate else ReadDate(d, LastSessionKey);
  }

  /** Where neither exception applies, load after save is the identity. */
  lemma LoadAfterSaveExact(d: Defaults, p: Progress)
    requires p.defaultTimerDuration != 0
    requires p.lastSessionDate.Some? || ReadDate(d, LastSessionKey).None?
    ensures Load(Save(d, p)) == p
  {
    LoadAfterSave(d, p);
  }

  /** Saving after a reset leaves the stored last session date in place, so a relaunch sees the reset
      counters with the old date; a session on that same day then leaves the streak at 0, where
      the same session without the relaunch starts it at 1. */
  lemma ResetThenRelaunchKeepsOldDate(d: Defaults, p: Progress, t: Instant, minutes: int, now: Instant)
    requires p.lastSessionDate == Some(t) && DayOf(now) == DayOf(t)
    ensures var reloaded := Load(Save(Save(d, p), AfterReset(p)));
      reloaded.currentStreak == 0 && reloaded.lastSessionDate == Some(t)
      && AfterSession(reloaded, minutes, None, now).currentStreak == 0
    ensures AfterSession(AfterReset(p), minutes, None, now).currentStreak == 1
  {
    LoadAfterSave(Save(d, p), AfterReset(p));
    LoadAfterSave(d, p);
  }

  // ---------------------------------------------------------------- the store object

  /** `AppData`: the eight fields, updated in place and written to `defaults` after each change. */
  class AppData {
    var hasCompletedOnboarding: bool
    var totalFocusTime: int
    var totalSessions: int
    var totalSparks: int
    var currentStreak: int
    var goals: seq<Goal>
    var lastSessionDate: Option<Instant>
    var defaultTimerDuration: int
    /** The key-value store the fields are saved to (`UserDefaults.standard`). */
    var defaults: Defaults

    /** The eight fields as one value; the key-value store is not part of it. */
    function State(): Progress
      reads this`hasCompletedOnboarding, this`totalFocusTime, this`totalSessions, this`totalSparks,
            this`currentStreak, this`goals, this`lastSessionDate, this`defaultTimerDuration
    {
      Progress(hasCompletedOnboarding, totalFocusTime, totalSessions, totalSparks, currentStreak,
               goals, lastSessionDate, defaultTimerDuration)
    }

    /** `init()`: the initial field values, then everything loaded from `stored`. */
    constructor (stored: Defaults)
      ensures State() == Load(stored) && defaults == stored
    {
      hasCompletedOnboarding, totalFocusTime, totalSessions, totalSparks, currentStreak := false, 0, 0, 0, 0;
      goals, lastSessionDate, defaultTimerDuration := [], None, DefaultTimerDuration;
      defaults := stored;
      new;
      LoadData();
    }

    method CompleteOnboarding()
      modifies this
      ensures State() == Onboarded(old(State()))
      ensures defaults == Save(old(defaults), State())
    {
      hasCompletedOnboarding := true;
      SaveData();
    }

    method CompleteFocusSession(minutes: int, goalId: Option<Uuid>, now: Instant)
      modifies this
      ensures State() == AfterSession(old(State()), minutes, goalId, now)
      ensures defaults == Save(old(defaults), State())
    {
      ghost var before := State();
      totalFocusTime := totalFocusTime + minutes;
      totalSessions := totalSessions + 1;
      totalSparks := totalSparks + 1;
      ghost var counted := State();
      assert counted == Counted(before, minutes);
      CreditSessionToGoal(goalId);
      ghost var credited := State();
      assert credited == Credited(counted, goalId);
      UpdateStreak(now);
      assert State() == Streaked(credited, now);
      SaveData();
    }

    /** The goal part of `completeFocusSession`: the first goal with `goalId` gets one more completed
        session and is marked complete once it reaches its target. */
    method CreditSessionToGoal(goalId: Option<Uuid>)
      modifies this`goals
      ensures goals == CreditGoal(old(goals), goalId)
    {
      if goalId.Some? {
        var goalIndex := IndexOfId(goals, goalId.value);
        if goalIndex.Some? {
          var i := goalIndex.value;
          goals := goals[i := goals[i].(completedSessions := goals[i].completedSessions + 1)];
          if goals[i].completedSessions >= goals[i].targetSessions {
            goals := goals[i := goals[i].(isCompleted := true)];
          }
          assert goals[i] == RecordSession(old(goals)[i]);
        }
      }
    }

    method AddSparks(count: int)
      modifies this
      ensures State() == WithSparks(old(State()), count)
      ensures defaults == Save(old(defaults), State())
    {
      totalSparks := totalSparks + count;
      SaveData();
    }

    method AddGoal(goal: Goal)
      modifies this
      ensures State() == WithGoalAdded(old(State()), goal)
      ensures defaults == Save(old(defaults), State())
    {
      goals := goals + [goal];
      SaveData();
    }

    /** Replaces the goal with the same id; when there is none nothing changes and nothing is saved. */
    method UpdateGoal(goal: Goal)
      modifies this
      ensures State() == WithGoalUpdated(old(State()), goal)
      ensures defaults == if IndexOfId(old(goals), goal.id).Some? then Save(old(defaults), State()) else old(defaults)
    {
      var index := IndexOfId(goals, goal.id);
      if index.Some? {
        goals := goals[index.value := goal];
        SaveData();
      }
    }

    method DeleteGoal(goal: Goal)
      modifies this
      ensures State() == WithGoalDeleted(old(State()), goal)
      ensures defaults == Save(old(defaults), State())
    {
      goals := RemoveGoal(goals, goal.id);
      SaveData();
    }

    method SetTimerDuration(minutes: int)
      modifies this
      ensures State() == WithTimerDuration(old(State()), minutes)
      ensures defaults == Save(old(defaults), State())
    {
      defaultTimerDuration := minutes;
      SaveData();
    }

    method ResetProgress()
      modifies this
      ensures State() == AfterReset(old(State()))
      ensures defaults == Save(old(defaults), State())
    {
      totalFocusTime := 0;
      totalSessions := 0;
      totalSparks := 0;
      currentStreak := 0;
      goals := [];
      lastSessionDate := None;
      defaultTimerDuration := DefaultTimerDuration;
      SaveData();
    }

    /** `updateStreak()` with the clock read once, at `now`. */
    method UpdateStreak(now: Instant)
      modifies this`currentStreak, this`lastSessionDate
      ensures currentStreak == NextStreak(old(currentStreak), old(lastSessionDate), now)
      ensures lastSessionDate == Some(now)
    {
      var today := DayOf(now);
      match lastSessionDate {
        case Some(lastDate) =>
          var daysBetween := today - DayOf(lastDate);
          if daysBetween == 1 {
            currentStreak := currentStreak + 1;
          } else if daysBetween > 1 {
            currentStreak := 1;
          }
        case None =>
          currentStreak := 1;
      }
      lastSessionDate := Some(now);
    }

    method SaveData()
      modifies this`defaults
      ensures defaults == Save(old(defaults), State())
    {
      defaults := defaults[OnboardingKey := BoolValue(hasCompletedOnboarding)];
      defaults := defaults[FocusTimeKey := IntValue(totalFocusTime)];
      defaults := defaults[SessionsKey := IntValue(totalSessions)];
      defaults := defaults[SparksKey := IntValue(totalSparks)];
      defaults := defaults[StreakKey := IntValue(currentStreak)];
      defaults := defaults[DurationKey := IntValue(defaultTimerDuration)];
      defaults := defaults[GoalsKey := DataValue(EncodeGoals(goals))];
      if lastSessionDate.Some? {
        defaults := defaults[LastSessionKey := DateValue(lastSessionDate.value)];
      }
    }

    /** Reads every field back; goals that are missing or do not decode leave `goals` as it was. */
    method LoadData()
      modifies this
      ensures defaults == old(defaults)
      ensures State() == Load(defaults).(goals := if ReadGoals(defaults).Some? then ReadGoals(defaults).value else old(goals))
    {
      hasCompletedOnboarding := ReadBool(defaults, OnboardingKey);
      totalFocusTime := ReadInt(defaults, FocusTimeKey);
      totalSessions := ReadInt(defaults, SessionsKey);
      totalSparks := ReadInt(defaults, SparksKey);
      currentStreak := ReadInt(defaults, StreakKey);
      defaultTimerDuration := ReadInt(defaults, DurationKey);
      if defaultTimerDuration == 0 {
        defaultTimerDuration := DefaultTimerDuration;
      }

      var loadedGoals := ReadGoals(defaults);
      if loadedGoals.Some? {
        goals := loadedGoals.value;
      }

      lastSessionDate := ReadDate(defaults, LastSessionKey);
    }
  }
}
