/**
 * The run/progress tracker shared by every round: score, coins, lives, the
 * round number, deaths in the current round and the completion bonuses.
 * `GameState` is the mutable object the scenes hold; `RunData` is its value,
 * and the functions on `RunData` say what each operation does to it.
 */
module Progress {
  import opened Config

  datatype RunData = RunData(score: int, coins: int, lives: int, currentRound: int,
                             roundsCompleted: seq<int>, totalCoinsCollected: int,
                             totalEnemiesDefeated: int, deathsThisRound: int)

  /** What `getData` hands to the HUD. */
  datatype Summary = Summary(score: int, coins: int, lives: int, round: int)

  /** The state of a new run. */
  function NewRun(): RunData {
    RunData(0, 0, StartLives, 1, [], 0, 0, 0)
  }

  function Scored(d: RunData, points: int): RunData {
    d.(score := d.score + points)
  }

  function WithCoin(d: RunData): RunData {
    Scored(d.(coins := d.coins + 1, totalCoinsCollected := d.totalCoinsCollected + 1), CoinValue)
  }

  function WithEnemyDefeated(d: RunData): RunData {
    Scored(d.(totalEnemiesDefeated := d.totalEnemiesDefeated + 1), EnemyDefeatValue)
  }

  function LifeLost(d: RunData): RunData {
    d.(lives := d.lives - 1, deathsThisRound := d.deathsThisRound + 1)
  }

  /** The answer `loseLife` gives about the state it leaves behind. */
  predicate HasLivesLeft(d: RunData) {
    d.lives > 0
  }

  /** The score a completed round earns. */
  function RoundBonus(deathsThisRound: int, allCoinsCollected: bool): int {
    RoundCompleteBonus
      + (if deathsThisRound == 0 then NoDeathBonus else 0)
      + (if allCoinsCollected then AllCoinsBonus else 0)
  }

  function RoundCompleted(d: RunData, allCoinsCollected: bool): RunData {
    d.(roundsCompleted := d.roundsCompleted + [d.currentRound],
       score := d.score + RoundBonus(d.deathsThisRound, allCoinsCollected),
       deathsThisRound := 0)
  }

  function RoundAdvanced(d: RunData): RunData {
    d.(currentRound := d.currentRound + 1)
  }

  function SummaryOf(d: RunData): Summary {
    Summary(d.score, d.coins, d.lives, d.currentRound)
  }

  /** `n` calls of `loseLife` in a row. */
  function LivesLost(d: RunData, n: nat): RunData {
    if n == 0 then d else LifeLost(LivesLost(d, n - 1))
  }

  class GameState {
    var score: int
    var coins: int
    var lives: int
    var currentRound: int
    var roundsCompleted: seq<int>
    var totalCoinsCollected: int
    var totalEnemiesDefeated: int
    var deathsThisRound: int

    function Data(): RunData
      reads this
    {
      RunData(score, coins, lives, currentRound, roundsCompleted, totalCoinsCollected,
              totalEnemiesDefeated, deathsThisRound)
    }

    constructor ()
      ensures Data() == NewRun()
    {
      score, coins, lives, currentRound := 0, 0, StartLives, 1;
      roundsCompleted := [];
      totalCoinsCollected, totalEnemiesDefeated, deathsThisRound := 0, 0, 0;
    }

    method Reset()
      modifies this
      ensures Data() == NewRun()
    {
      score := 0;
      coins := 0;
      lives := StartLives;
      currentRound := 1;
      roundsCompleted := [];
      totalCoinsCollected := 0;
      totalEnemiesDefeated := 0;
      deathsThisRound := 0;
    }

    method AddScore(points: int)
      modifies this
      ensures Data() == Scored(old(Data()), points)
    {
      score := score + points;
    }

    method AddCoin()
      modifies this
      ensures Data() == WithCoin(old(Data()))
    {
      coins := coins + 1;
      totalCoinsCollected := totalCoinsCollected + 1;
      AddScore(CoinValue);
    }

    method DefeatEnemy()
      modifies this
      ensures Data() == WithEnemyDefeated(old(Data()))
    {
      totalEnemiesDefeated := totalEnemiesDefeated + 1;
      AddScore(EnemyDefeatValue);
    }

    method LoseLife() returns (livesRemain: bool)
      modifies this
      ensures Data() == LifeLost(old(Data()))
      ensures livesRemain == HasLivesLeft(Data())
    {
      lives := lives - 1;
      deathsThisRound := deathsThisRound + 1;
      livesRemain := lives > 0;
    }

    method CompleteRound(allCoinsCollected: bool)
      modifies this
      ensures Data() == RoundCompleted(old(Data()), allCoinsCollected)
    {
      roundsCompleted := roundsCompleted + [currentRound];
      AddScore(RoundCompleteBonus);
      if deathsThisRound == 0 {
        AddScore(NoDeathBonus);
      }
      if allCoinsCollected {
        AddScore(AllCoinsBonus);
      }
      deathsThisRound := 0;
    }

    method NextRound()
      modifies this
      ensures Data() == RoundAdvanced(old(Data()))
    {
      currentRound := currentRound + 1;
    }

    /** Exactly the score, coins, lives and round, nothing else. */
    function GetData(): (s: Summary)
      reads this
      ensures s.score == score && s.coins == coins && s.lives == lives && s.round == currentRound
    {
      Summary(score, coins, lives, currentRound)
    }
  }

  // ----- properties of the run state -----

  /** A new run: no score, no coins, three lives, round 1, nothing completed. */
  lemma NewRunIsEmpty()
    ensures var d := NewRun();
      d.score == 0 && d.coins == 0 && d.lives == 3 && d.currentRound == 1 && d.roundsCompleted == []
      && d.totalCoinsCollected == 0 && d.totalEnemiesDefeated == 0 && d.deathsThisRound == 0
  {
  }

  /** A coin adds one coin and 50 points and touches nothing else. */
  lemma CoinChangesOnlyCoinsAndScore(d: RunData)
    ensures var e := WithCoin(d);
      e.coins == d.coins + 1 && e.totalCoinsCollected == d.totalCoinsCollected + 1 && e.score == d.score + 50
      && e.(coins := d.coins, totalCoinsCollected := d.totalCoinsCollected, score := d.score) == d
  {
  }

  /** A defeated enemy adds one to the total and 100 points and touches nothing else. */
  lemma EnemyChangesOnlyTotalAndScore(d: RunData)
    ensures var e := WithEnemyDefeated(d);
      e.totalEnemiesDefeated == d.totalEnemiesDefeated + 1 && e.score == d.score + 100
      && e.(totalEnemiesDefeated := d.totalEnemiesDefeated, score := d.score) == d
  {
  }

  /** Every operation leaves the score where it was or raises it (addScore is only given positive amounts). */
  lemma ScoreNeverDecreases(d: RunData, points: nat, allCoinsCollected: bool)
    ensures Scored(d, points).score >= d.score
    ensures WithCoin(d).score > d.score
    ensures WithEnemyDefeated(d).score > d.score
    ensures LifeLost(d).score == d.score
    ensures RoundCompleted(d, allCoinsCollected).score > d.score
    ensures RoundAdvanced(d).score == d.score
  {
  }

  /**
   * The completion bonus is 200, plus 500 exactly when the round had no
   * deaths, plus 300 exactly when every coin was taken; the death counter is
   * then cleared and the round is recorded.
   */
  lemma RoundBonusBreakdown(d: RunData, allCoinsCollected: bool)
    ensures var e := RoundCompleted(d, allCoinsCollected);
      && 200 <= e.score - d.score <= 1000
      && (e.score - d.score >= 700 <==> d.deathsThisRound == 0)
      && ((e.score - d.score) % 500 == 0 <==> allCoinsCollected)
      && e.deathsThisRound == 0
      && e.roundsCompleted == d.roundsCompleted + [d.currentRound]
      && e.lives == d.lives && e.coins == d.coins && e.currentRound == d.currentRound
  {
  }

  /** Losing `n` lives takes exactly `n` lives and adds `n` deaths; lives are never floored at zero. */
  lemma {:induction false} LivesLostCounts(d: RunData, n: nat)
    ensures LivesLost(d, n).lives == d.lives - n
    ensures LivesLost(d, n).deathsThisRound == d.deathsThisRound + n
    ensures LivesLost(d, n).score == d.score && LivesLost(d, n).currentRound == d.currentRound
  {
    if n > 0 {
      LivesLostCounts(d, n - 1);
    }
  }

  /** From a new run, the first two losses leave lives and the third does not. */
  lemma ThirdLossEndsTheRun()
    ensures HasLivesLeft(LivesLost(NewRun(), 1))
    ensures HasLivesLeft(LivesLost(NewRun(), 2))
    ensures !HasLivesLeft(LivesLost(NewRun(), 3)) && LivesLost(NewRun(), 3).lives == 0
    ensures !HasLivesLeft(LivesLost(NewRun(), 4)) && LivesLost(NewRun(), 4).lives == -1
  {
    LivesLostCounts(NewRun(), 1);
    LivesLostCounts(NewRun(), 2);
    LivesLostCounts(NewRun(), 3);
    LivesLostCounts(NewRun(), 4);
  }

  /** `nextRound` moves the round on by exactly one, and the summary reports the four HUD numbers. */
  lemma NextRoundAndSummary(d: RunData)
    ensures RoundAdvanced(d).currentRound == d.currentRound + 1
    ensures RoundAdvanced(d).(currentRound := d.currentRound) == d
    ensures SummaryOf(d) == Summary(d.score, d.coins, d.lives, d.currentRound)
  {
  }

  /**
   * The end-to-end run: a coin gives 50 points; three losses end the run
   * (the first answers "lives remain", the third does not); and a round
   * completed before any death with every coin taken earns 200 + 500 + 300.
   */
  lemma EndToEndScenario()
    ensures var d1 := WithCoin(NewRun());
      d1.coins == 1 && d1.score == 50
      && HasLivesLeft(LifeLost(d1)) && LifeLost(d1).lives == 2
      && !HasLivesLeft(LifeLost(LifeLost(LifeLost(d1)))) && LifeLost(LifeLost(LifeLost(d1))).lives == 0
      && RoundCompleted(d1, true).score == d1.score + RoundCompleteBonus + NoDeathBonus + AllCoinsBonus
  {
  }

  /**
   * The local-storage high score rule: the stored value is replaced only by a
   * strictly greater score, so the stored value becomes the larger of the two.
   */
  function HighScoreAfter(stored: int, score: int): (r: int)
    ensures r >= stored && r >= score
    ensures r == stored || r == score
    ensures r != stored ==> score > stored
  {
    if score > stored then score else stored
  }

  /** The persisted high score (browser local storage). */
  class HighScoreStore {
    var highScore: int

    constructor (initial: int)
      ensures highScore == initial
    {
      highScore := initial;
    }

    /** Save `score` if it beats the stored value. */
    method Save(score: int)
      modifies this
      ensures highScore == HighScoreAfter(old(highScore), score)
    {
      if score > highScore {
        highScore := score;
      }
    }
  }
}
