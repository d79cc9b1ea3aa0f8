/** The state of the game screen and the two operations on it:
    `validateScore(for:)` when a move button is tapped and `refresh()`. */
module Game {
  import opened Moves
  import opened Rules

  /** One pair of random values: the generator's choice for `Move.random`
      and the outcome of `Bool.random()`. */
  datatype Draw = Draw(movePick: nat, shouldWin: bool)

  /** The screen's state: score, the app's move, the round's objective and
      whether the "You lose!" alert is up. */
  datatype GameState = GameState(
    currentScore: int,
    appMove: Move,
    playerShouldWin: bool,
    shouldPresentAlert: bool)

  /** What every reachable state satisfies: the score is never negative and
      the alert is only up after the score was reset. */
  predicate Inv(s: GameState)
  {
    s.currentScore >= 0 && (s.shouldPresentAlert ==> s.currentScore == 0)
  }

  /** The state at launch: score zero, no alert, a random move and objective. */
  function Init(d: Draw): (s: GameState)
    ensures Inv(s) && !s.shouldPresentAlert && s.currentScore == 0
    ensures s.appMove == RandomMove(d.movePick) && s.playerShouldWin == d.shouldWin
  {
    GameState(0, RandomMove(d.movePick), d.shouldWin, false)
  }

  /** `refresh()`: a new app move and a new objective; nothing else changes. */
  function Refresh(s: GameState, d: Draw): (r: GameState)
    ensures r.currentScore == s.currentScore
    ensures r.shouldPresentAlert == s.shouldPresentAlert
    ensures r.appMove == RandomMove(d.movePick) && r.playerShouldWin == d.shouldWin
    ensures Inv(s) ==> Inv(r)
  {
    s.(appMove := RandomMove(d.movePick), playerShouldWin := d.shouldWin)
  }

  /** `validateScore(for:)`: score the tapped move, then either raise the alert
      (score is zero) or start the next round at once (score is not zero). */
  function ValidateScore(s: GameState, option: Move, d: Draw): (r: GameState)
    ensures r.currentScore ==
              if Scores(option, s.appMove, s.playerShouldWin) then s.currentScore + 1 else 0
    ensures r.currentScore == 0 ==>
              r.shouldPresentAlert && r.appMove == s.appMove && r.playerShouldWin == s.playerShouldWin
    ensures r.currentScore != 0 ==>
              r.shouldPresentAlert == s.shouldPresentAlert
              && r.appMove == RandomMove(d.movePick) && r.playerShouldWin == d.shouldWin
    ensures s.currentScore >= 0 && !s.shouldPresentAlert ==>
              (r.shouldPresentAlert <==> !Scores(option, s.appMove, s.playerShouldWin))
    ensures Inv(s) && !s.shouldPresentAlert ==> Inv(r)
  {
    var scored := s.(currentScore := NewScore(option, s.appMove, s.playerShouldWin, s.currentScore));
    if scored.currentScore == 0 then scored.(shouldPresentAlert := true)
    else Refresh(scored, d)
  }

  /** Pressing OK on the alert: SwiftUI dismisses it (clearing the flag) and the
      button's action runs `refresh()`. */
  function Acknowledge(s: GameState, d: Draw): (r: GameState)
    ensures !r.shouldPresentAlert && r.currentScore == s.currentScore
    ensures r.appMove == RandomMove(d.movePick) && r.playerShouldWin == d.shouldWin
    ensures Inv(s) ==> Inv(r)
  {
    Refresh(s.(shouldPresentAlert := false), d)
  }

  /** "WIN" or "LOSE", as the prompt and the alert message spell the objective. */
  function ObjectiveLabel(shouldWin: bool): (r: string)
    ensures r == "WIN" <==> shouldWin
    ensures r == "LOSE" <==> !shouldWin
  {
    if shouldWin then "WIN" else "LOSE"
  }

  /** The alert's message, read from the state while the alert is up. */
  function AlertMessage(s: GameState): (r: string)
    ensures r == "You had to WIN the round." <==> s.playerShouldWin
    ensures r == "You had to LOSE the round." <==> !s.playerShouldWin
  {
    "You had to " + ObjectiveLabel(s.playerShouldWin) + " the round."
  }

  /** A missed round raises the alert without redrawing, so the message names
      the objective of the round the player just missed, and the two objectives
      give different messages. */
  lemma MissedRoundMessage(s: GameState, option: Move, d: Draw)
    requires !Scores(option, s.appMove, s.playerShouldWin)
    ensures ValidateScore(s, option, d).shouldPresentAlert
    ensures AlertMessage(ValidateScore(s, option, d)) == AlertMessage(s)
    // The last two only spell out the literal text for each objective.
    ensures s.playerShouldWin ==> AlertMessage(s) == "You had to WIN the round."
    ensures !s.playerShouldWin ==> AlertMessage(s) == "You had to LOSE the round."
  {
  }

  /** Scenario: a winning rock against scissors from score 0 scores and redraws. */
  lemma ScenarioWinScores(d: Draw)
    ensures var r := ValidateScore(GameState(0, Scissors, true, false), Rock, d);
            r.currentScore == 1 && !r.shouldPresentAlert
            && r.appMove == RandomMove(d.movePick) && r.playerShouldWin == d.shouldWin
  {
  }

  /** Scenario: a tie from score 5 with objective WIN resets and raises the alert. */
  lemma ScenarioTieResets(d: Draw)
    ensures var r := ValidateScore(GameState(5, Rock, true, false), Rock, d);
            r.currentScore == 0 && r.shouldPresentAlert && AlertMessage(r) == "You had to WIN the round."
  {
  }

  /** Scenario: with objective LOSE, scissors against rock loses to the app's
      move as required, so it scores. */
  lemma ScenarioMustLoseScores(d: Draw)
    ensures var r := ValidateScore(GameState(2, Rock, false, false), Scissors, d);
            r.currentScore == 3 && !r.shouldPresentAlert && r.appMove == RandomMove(d.movePick)
  {
  }

  /** Scenario: with objective LOSE, rock against scissors beats the app's move,
      so it misses and raises the alert naming LOSE. */
  lemma ScenarioMustLoseMissed(d: Draw)
    ensures var r := ValidateScore(GameState(2, Scissors, false, false), Rock, d);
            r.currentScore == 0 && r.shouldPresentAlert && AlertMessage(r) == "You had to LOSE the round."
  {
  }
}
