/** The achievements screen: six achievements derived from the store's counters, each unlocked at a
    threshold and showing its progress towards it, capped at the threshold. */
module Achievements {
  import opened Basics
  import opened Text
  import opened Models

  datatype Achievement = Achievement(
    title: string,
    description: string,
    iconName: string,
    isUnlocked: bool,
    requirement: string,
    progress: int,
    maxProgress: int)

  function Min(a: int, b: int): int {
    if a <= b then a else b
  }

  /** The `achievements` list for the store's fields, in display order. */
  function AchievementsFor(p: Progress): (r: seq<Achievement>)
    ensures |r| == 6
  {
    [
      Achievement("First Spark", "Complete your first focus session", "flame.fill",
        p.totalSessions >= 1, "1 session", Min(p.totalSessions, 1), 1),
      Achievement("Momentum Builder", "Complete 5 focus sessions", "bolt.fill",
        p.totalSessions >= 5, "5 sessions", Min(p.totalSessions, 5), 5),
      Achievement("Focus Master", "Complete 25 focus sessions", "target",
        p.totalSessions >= 25, "25 sessions", Min(p.totalSessions, 25), 25),
      Achievement("Time Warrior", "Focus for 5 hours total", "clock.fill",
        p.totalFocusTime >= 300, "5 hours", Min(p.totalFocusTime, 300), 300),
      Achievement("Streak Champion", "Maintain a 7-day streak", "calendar",
        p.currentStreak >= 7, "7 days", Min(p.currentStreak, 7), 7),
      Achievement("Spark Collector", "Collect 100 Momentum Sparks", "star.fill",
        p.totalSparks >= 100, "100 sparks", Min(p.totalSparks, 100), 100)
    ]
  }

  /** The counter the `i`-th achievement measures. */
  function Counter(p: Progress, i: nat): int
    requires i < 6
  {
    if i < 3 then p.totalSessions
    else if i == 3 then p.totalFocusTime
    else if i == 4 then p.currentStreak
    else p.totalSparks
  }

  /** The unlock thresholds, in display order. */
  const Thresholds: seq<int> := [1, 5, 25, 300, 7, 100]

  /** Each achievement is unlocked exactly when its counter reaches its threshold; its maximum is that
      threshold and its progress is the counter capped at it. Hence progress never exceeds the maximum
      and an achievement is unlocked exactly when its progress is full. */
  lemma AchievementRules(p: Progress)
    ensures forall i :: 0 <= i < 6 ==>
      var a := AchievementsFor(p)[i];
      && a.maxProgress == Thresholds[i]
      && (a.isUnlocked <==> Counter(p, i) >= Thresholds[i])
      && a.progress == Min(Counter(p, i), Thresholds[i])
      && a.progress <= a.maxProgress
      && (a.isUnlocked <==> a.progress == a.maxProgress)
  {
  }

  /** The six titles, in display order. */
  lemma AchievementTitles(p: Progress)
    ensures |AchievementsFor(p)| == 6
    ensures AchievementsFor(p)[0].title == "First Spark" && AchievementsFor(p)[1].title == "Momentum Builder"
    ensures AchievementsFor(p)[2].title == "Focus Master" && AchievementsFor(p)[3].title == "Time Warrior"
    ensures AchievementsFor(p)[4].title == "Streak Champion" && AchievementsFor(p)[5].title == "Spark Collector"
  {
  }

  /** Counters that are at least as high never lock an unlocked achievement. */
  lemma HigherCountersKeepUnlocks(p: Progress, q: Progress)
    requires p.totalSessions <= q.totalSessions && p.totalFocusTime <= q.totalFocusTime
    requires p.currentStreak <= q.currentStreak && p.totalSparks <= q.totalSparks
    ensures forall i :: 0 <= i < 6 && AchievementsFor(p)[i].isUnlocked ==> AchievementsFor(q)[i].isUnlocked
  {
    AchievementRules(p);
    AchievementRules(q);
  }

  /** A completed session never locks an achievement other than the streak one, whose counter
      can fall back to 1 after a missed day. */
  lemma SessionKeepsUnlocks(p: Progress, minutes: int, goalId: Option<Uuid>, now: Instant)
    requires minutes >= 0
    ensures forall i :: 0 <= i < 6 && i != 4 && AchievementsFor(p)[i].isUnlocked ==>
      AchievementsFor(AfterSession(p, minutes, goalId, now))[i].isUnlocked
  {
    var q := AfterSession(p, minutes, goalId, now);
    assert q.totalSessions == p.totalSessions + 1 && q.totalFocusTime == p.totalFocusTime + minutes;
    assert q.totalSparks == p.totalSparks + 1;
  }

  /** The text under a card: "UNLOCKED", or "progress/maxProgress" while locked. */
  function CardLabel(a: Achievement): (s: string)
    ensures s == "UNLOCKED" <==> a.isUnlocked
    ensures !a.isUnlocked ==>
      exists k :: 0 <= k < |s| && s[k] == '/' && ShowsInt(s[..k], a.progress) && ShowsInt(s[k + 1..], a.maxProgress)
  {
    if a.isUnlocked then "UNLOCKED"
    else
      var num := IntToString(a.progress);
      var den := IntToString(a.maxProgress);
      var s := num + "/" + den;
      assert s[0] == num[0];
      assert s[..|num|] == num && s[|num| + 1..] == den;
      s
  }

  /** A locked card's text determines its progress and maximum, for the non-negative counts the
      store keeps. */
  lemma LockedLabelsDetermineProgress(a: Achievement, b: Achievement)
    requires !a.isUnlocked && !b.isUnlocked
    requires a.progress >= 0 && a.maxProgress >= 0 && b.progress >= 0 && b.maxProgress >= 0
    requires CardLabel(a) == CardLabel(b)
    ensures a.progress == b.progress && a.maxProgress == b.maxProgress
  {
    var na, nb := NatToString(a.progress), NatToString(b.progress);
    var da, db := NatToString(a.maxProgress), NatToString(b.maxProgress);
    assert CardLabel(a) == na + ['/'] + da;
    assert CardLabel(b) == nb + ['/'] + db;
    SplitAfterDigits(na, da, nb, db, '/');
    NatToStringInjective(a.progress, b.progress);
    NatToStringInjective(a.maxProgress, b.maxProgress);
  }
}
