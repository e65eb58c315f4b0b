/**
 * The screen between two rounds: it shows the round's coin tally, the bonus
 * labels the player earned, and a button that starts the next round, or the
 * boss round after round 4.
 */
module Transition {
  import opened Config
  import opened Progress

  /** What the finished round hands over when it launches this screen. */
  datatype TransitionData = TransitionData(round: int, coinsCollected: int, totalCoins: int,
                                           score: int, nextRound: int)

  /** The scene the continue button starts. */
  datatype Next = StartBoss | StartLevel(levelIndex: int)

  /** The parts of the screen that depend on the data: labels and the button. */
  datatype Screen = Screen(allCoinsMark: bool, noDeathsLabel: bool, allCoinsLabel: bool,
                           bossWarning: bool, buttonText: string)

  const BossRound: int := 5

  /**
   * The screen for `d`; the no-death label reads the run's live
   * `deathsThisRound`, not a value carried in `d`.
   */
  function ScreenOf(d: TransitionData, deathsThisRound: int): (s: Screen)
    ensures s.allCoinsMark <==> d.coinsCollected == d.totalCoins
    ensures s.allCoinsLabel <==> d.coinsCollected == d.totalCoins
    ensures s.noDeathsLabel <==> deathsThisRound == 0
    ensures s.bossWarning <==> d.nextRound == BossRound
    ensures s.buttonText == "BOSS ROUND!" <==> d.nextRound == BossRound
    ensures s.buttonText == "CONTINUE" <==> d.nextRound != BossRound
  {
    var allCoins := d.coinsCollected == d.totalCoins;
    var boss := d.nextRound == BossRound;
    Screen(allCoins, deathsThisRound == 0, allCoins, boss, if boss then "BOSS ROUND!" else "CONTINUE")
  }

  /** The continue button: the boss scene for round 5, otherwise the round scene at index nextRound - 1. */
  function Route(d: TransitionData): (n: Next)
    ensures n == StartBoss <==> d.nextRound == BossRound
    ensures n.StartLevel? ==> n.levelIndex + 1 == d.nextRound
  {
    if d.nextRound == BossRound then StartBoss else StartLevel(d.nextRound - 1)
  }

  // ----- properties of the transition screen -----

  /**
   * The round's own `completeRound` clears `deathsThisRound` before this
   * screen reads it, so the no-death label shows after every completed
   * round, also after a round in which the player died.
   */
  lemma NoDeathLabelAlwaysShows(run: RunData, allCoinsCollected: bool, d: TransitionData)
    ensures ScreenOf(d, RoundAdvanced(RoundCompleted(run, allCoinsCollected)).deathsThisRound).noDeathsLabel
    ensures run.deathsThisRound > 0 ==>
              RoundCompleted(run, allCoinsCollected).score - run.score < RoundCompleteBonus + NoDeathBonus
  {
  }

  /**
   * Finishing round r (1 to 4) hands over nextRound = r + 1: rounds 1 to 3
   * lead to the level whose own round number is r + 1, and round 4 leads to
   * the boss round, which is round 5.
   */
  lemma RoundsLeadToTheBoss(d: TransitionData)
    requires 1 <= d.round <= 4 && d.nextRound == d.round + 1
    ensures d.round < 4 ==> Route(d).StartLevel? && Levels[Route(d).levelIndex].round == d.nextRound
    ensures d.round == 4 <==> Route(d) == StartBoss
    ensures Route(d) == StartBoss ==> BossLevel.round == d.nextRound && ScreenOf(d, 0).bossWarning
  {
    if d.round < 4 {
      LevelsAreNumbered();
    }
  }
}
