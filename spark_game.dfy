/** The spark mini-game: a 30-second round in which sparks appear, expire or are caught for a point;
    at the end the results alert adds the score to the spark total. The game timer and the spawn
    timer are scheduled and invalidated together (`timersScheduled`); `GameTick` and `SpawnSpark`
    are their callbacks, and `ExpireSpark` is the delayed removal each spawn arranges. */
module SparkGame {
  import opened Basics
  import opened Models

  datatype GameState = Ready | Playing | Finished

  /** A spark on screen; its position, creation time and lifetime only affect drawing and timing. */
  datatype Spark = Spark(id: Uuid)

  /** The length of a round, in seconds. */
  const RoundSeconds: int := 30

  /** `removeAll { $0.id == id }` on the spark list. */
  function WithoutSpark(sparks: seq<Spark>, id: Uuid): (r: seq<Spark>)
    ensures forall i :: 0 <= i < |r| ==> r[i].id != id && r[i] in sparks
    ensures forall i :: 0 <= i < |sparks| && sparks[i].id != id ==> sparks[i] in r
    ensures |r| <= |sparks|
  {
    Filter(sparks, (s: Spark) => s.id != id)
  }

  /** Removing a spark that is on screen shortens the list. */
  lemma {:induction false} WithoutPresentSparkShrinks(sparks: seq<Spark>, id: Uuid)
    requires exists i :: 0 <= i < |sparks| && sparks[i].id == id
    ensures |WithoutSpark(sparks, id)| < |sparks|
  {
    var keep := (s: Spark) => s.id != id;
    if sparks[0].id == id {
      assert |Filter(sparks[1..], keep)| <= |sparks| - 1;
    } else {
      var i :| 0 <= i < |sparks| && sparks[i].id == id;
      assert sparks[1..][i - 1].id == id;
      WithoutPresentSparkShrinks(sparks[1..], id);
    }
  }

  /** `scoreMessage(for:)`: five messages by score band; anything outside 0...20 is the top message. */
  function ScoreMessage(score: int): (s: string)
    ensures s == Messages[ScoreBand(score)]
  {
    if 0 <= score <= 5 then Messages[0]
    else if 6 <= score <= 10 then Messages[1]
    else if 11 <= score <= 15 then Messages[2]
    else if 16 <= score <= 20 then Messages[3]
    else Messages[4]
  }

  const Messages: seq<string> := [
    "Keep practicing! Your reflexes are warming up.",
    "Good start! Your focus is building momentum.",
    "Impressive! Your concentration is sharp.",
    "Excellent! You're in the flow state.",
    "Outstanding! You're a true Spark Master!"
  ]

  /** The band of a score, computed arithmetically: five points per band above the first,
      which also holds 0, and everything else in the last band. */
  function ScoreBand(score: int): (b: nat)
    ensures b < 5
  {
    if score < 0 || score > 20 then 4
    else if score == 0 then 0
    else (score - 1) / 5
  }

  /** Two scores get the same message exactly when they fall in the same band, so the five bands
      neither overlap nor share a message. */
  lemma ScoreMessageByBand(s: int, t: int)
    ensures ScoreMessage(s) == ScoreMessage(t) <==> ScoreBand(s) == ScoreBand(t)
  {
    MessagesDistinct();
  }

  lemma MessagesDistinct()
    ensures forall i, j :: 0 <= i < j < |Messages| ==> Messages[i] != Messages[j]
  {
  }

  /** `SparkGameView`'s game state. */
  class SparkGameView {
    const appData: AppData
    var gameState: GameState
    var timeRemaining: int
    var score: int
    var sparks: seq<Spark>
    var showingResults: bool
    /** Whether the game timer and the spawn timer are scheduled. */
    var timersScheduled: bool

    /** The clock stays within the round, the score is never negative, the timers run only during
        play, and sparks are on screen only while the timers run. */
    predicate Valid()
      reads this`gameState, this`timeRemaining, this`score, this`sparks, this`timersScheduled
    {
      0 <= timeRemaining <= RoundSeconds
      && score >= 0
      && (timersScheduled ==> gameState == Playing)
      && (!timersScheduled ==> sparks == [])
    }

    /** The view as it appears: ready, a full round on the clock, no score. */
    constructor (appData: AppData)
      ensures this.appData == appData
      ensures gameState == Ready && timeRemaining == RoundSeconds && score == 0 && sparks == []
      ensures !showingResults && !timersScheduled
      ensures Valid()
    {
      this.appData := appData;
      gameState, timeRemaining, score, sparks := Ready, RoundSeconds, 0, [];
      showingResults, timersScheduled := false, false;
    }

    /** The ready screen's start button. */
    method StartGame()
      requires Valid() && gameState == Ready
      modifies this`gameState, this`timeRemaining, this`score, this`sparks, this`timersScheduled
      ensures gameState == Playing && timeRemaining == RoundSeconds && score == 0 && sparks == []
      ensures timersScheduled
      ensures Valid()
    {
      gameState := Playing;
      timeRemaining := RoundSeconds;
      score := 0;
      sparks := [];
      timersScheduled := true;
    }

    /** The game timer's callback: one second off while any remain, otherwise the game finishes. */
    method GameTick()
      requires Valid() && timersScheduled
      modifies this`gameState, this`timeRemaining, this`sparks, this`timersScheduled, this`showingResults
      ensures old(timeRemaining) > 0 ==>
        timeRemaining == old(timeRemaining) - 1 && gameState == Playing && timersScheduled
        && sparks == old(sparks) && showingResults == old(showingResults)
      ensures old(timeRemaining) == 0 ==>
        gameState == Finished && !timersScheduled && sparks == [] && showingResults && timeRemaining == 0
      ensures Valid()
    {
      if timeRemaining > 0 {
        timeRemaining := timeRemaining - 1;
      } else {
        FinishGame();
      }
    }

    /** The spawn timer's callback: one new spark at the end of the list; `id` stands for `UUID()`. */
    method SpawnSpark(id: Uuid)
      requires Valid() && timersScheduled
      modifies this`sparks
      ensures sparks == old(sparks) + [Spark(id)]
      ensures Valid()
    {
      sparks := sparks + [Spark(id)];
    }

    /** The delayed removal a spawn arranges; it runs even after the round has ended. */
    method ExpireSpark(id: Uuid)
      requires Valid()
      modifies this`sparks
      ensures sparks == WithoutSpark(old(sparks), id)
      ensures Valid()
    {
      sparks := Filter(sparks, (s: Spark) => s.id != id);
    }

    /** Tapping a spark on screen: one point, and every spark with its id leaves the screen. */
    method CatchSpark(spark: Spark)
      requires Valid() && spark in sparks
      modifies this`score, this`sparks
      ensures score == old(score) + 1
      ensures sparks == WithoutSpark(old(sparks), spark.id)
      ensures |sparks| < |old(sparks)|
      ensures Valid()
    {
      WithoutPresentSparkShrinks(sparks, spark.id);
      score := score + 1;
      sparks := Filter(sparks, (s: Spark) => s.id != spark.id);
    }

    /** `finishGame()`: finished, timers invalidated, screen cleared and the results alert raised. */
    method FinishGame()
      requires Valid()
      modifies this`gameState, this`sparks, this`timersScheduled, this`showingResults
      ensures gameState == Finished && !timersScheduled && sparks == [] && showingResults
      ensures Valid()
    {
      gameState := Finished;
      EndGame();
      showingResults := true;
    }

    /** `endGame()`: both timers invalidated and the screen cleared; also what closing the view does. */
    method EndGame()
      modifies this`sparks, this`timersScheduled
      ensures !timersScheduled && sparks == []
      ensures Valid() <==> 0 <= timeRemaining <= RoundSeconds && score >= 0
    {
      timersScheduled := false;
      sparks := [];
    }

    /** "Play Again" on the results screen, reachable once the modal results alert is dismissed:
        back to ready, with the score left for `StartGame` to clear. */
    method RestartGame()
      requires Valid() && gameState == Finished && !showingResults
      modifies this`gameState
      ensures gameState == Ready
      ensures Valid()
    {
      gameState := Ready;
    }

    /** The results alert's button: the round's score is added to the spark total. */
    method ConfirmResults()
      requires showingResults
      modifies this`showingResults, appData
      ensures !showingResults
      ensures appData.State() == WithSparks(old(appData.State()), score)
      ensures appData.defaults == Save(old(appData.defaults), appData.State())
    {
      showingResults := false;
      appData.AddSparks(score);
    }
  }
}
