# Rock-paper-scissors round engine

A Dafny model of the game rule inside the single SwiftUI screen of
`RockPaperScissors/ContentView.swift`. The app shows a random move of its own
and a random objective, which is either WIN or LOSE. The player taps Rock, Paper or Scissors.
If the tapped move meets the objective, the score goes up by one and a new app move and
objective are drawn straight away. Otherwise the score drops to zero and a "You lose!"
alert comes up. Pressing its OK button draws the new round.

Modules:

- `Optionals` (`optionals.dfy`): Swift's `Optional`, with `Coalesce` playing the part of `??`.
- `Moves` (`moves.dfy`): the `Move` enum, its display label `AsString`, and
  `Move.random`. Here the generator's choice is a supplied `pick`.
- `Rules` (`rules.dfy`): the `Beats` relation, and `Scores`, which says whether a move meets the
  objective. It also holds `NewScore`, written as the source's six-branch table (three moves, two objectives each)
  and proved equal to the rule stated through `Beats`.
- `Game` (`game.dfy`): the screen's state `GameState`, which holds `currentScore`, `appMove`,
  `playerShouldWin` and `shouldPresentAlert`. It also holds `ValidateScore` (`validateScore(for:)`),
  `Refresh` (`refresh()`), `Acknowledge` (the alert's OK button) and the alert message.
- `Session` (`session.dfy`): sequences of user events. The alert is modal: move
  buttons do nothing while it is up, and OK exists only while it is up. This module proves
  that the invariant holds along any session and that the score equals the current winning streak.

Randomness is an input. A `Draw` carries the generator's choice for
`randomElement()` and the value of `Bool.random()`. `randomElement()` on a
non-empty array returns the element at `pick % count`.

## Model

| member | source | states |
|---|---|---|
| Moves.AsString | RockPaperScissors/ContentView.swift:20-29 | Each label is the enum case's raw value with its first letter capitalised, so the labels are "Rock", "Paper" and "Scissors". The raw values are the lower-case case names Swift derives for `enum Move: String` (lines 10-13), given by `Moves.RawValue`. |
| Moves.ParseLabel | RockPaperScissors/ContentView.swift:20-29 | Inverts `asString`: a string maps back to a move exactly when it is that move's label. So the labels identify the moves. |
| Moves.AsStringInjective | RockPaperScissors/ContentView.swift:20-29 | Distinct moves have distinct labels. |
| Optionals.Optional.Coalesce | RockPaperScissors/ContentView.swift:17 | Swift's `??`: the wrapped value when there is one, and the default (`.rock` here) only when there is none. |
| Moves.RandomElement | RockPaperScissors/ContentView.swift:17 | `randomElement()` returns nothing exactly when the array is empty, and otherwise returns an element of the array. |
| Moves.RandomElementReaches | RockPaperScissors/ContentView.swift:17 | Every element of a non-empty array is the result of some generator choice. |
| Moves.RandomMove | RockPaperScissors/ContentView.swift:15-18 | `Move.random` always returns the element the draw selected from `[.rock, .paper, .scissors]`. The `?? .rock` fallback never fires. |
| Moves.PickOf | RockPaperScissors/ContentView.swift:15-18 | Of the three possible generator outcomes, each move is drawn by exactly one. |
| Rules.BeatsTrichotomy | RockPaperScissors/ContentView.swift:100-119 | For any two moves exactly one holds: a tie, the first beats the second, or the second beats the first. |
| Rules.Defeater | RockPaperScissors/ContentView.swift:100-119 | Exactly one move beats a given move: the move that scores in a must-win round. |
| Rules.Victim | RockPaperScissors/ContentView.swift:100-119 | A given move beats exactly one move: the move that scores in a must-lose round. |
| Rules.NewScore | RockPaperScissors/ContentView.swift:100-119 | Must-win: the score becomes old+1 exactly when the player's move beats the app's move. Must-lose: old+1 exactly when the app's move beats the player's. Every other case gives 0. A non-negative score stays non-negative, and from a non-negative score the result is 0 exactly when the round missed. |
| Rules.TieNeverScores | RockPaperScissors/ContentView.swift:100-119 | A tie never scores under either objective, so it resets the score to 0. |
| Rules.ScoringMove | RockPaperScissors/ContentView.swift:100-119 | For every app move and objective, exactly one of the three player moves scores. |
| Rules.ObjectivesDisagree | RockPaperScissors/ContentView.swift:100-119 | The scoring move for WIN differs from the one for LOSE, and neither is the app's own move. |
| Game.Init | RockPaperScissors/ContentView.swift:35-39 | The launch state has score 0, no alert and a randomly drawn move and objective, and it satisfies the invariant. |
| Game.Refresh | RockPaperScissors/ContentView.swift:128-131 | `refresh()` redraws only `appMove` and `playerShouldWin`. The score and the alert flag stay as they were, and the invariant is kept. |
| Game.ValidateScore | RockPaperScissors/ContentView.swift:99-126 | The score becomes old+1 when the objective is met and 0 otherwise. When it is 0, the alert is raised and the round is not redrawn. Otherwise the round is redrawn at once and the alert flag is left alone. Starting with no alert and a score of at least 0, the alert is up afterwards exactly when the round missed. |
| Game.Acknowledge | RockPaperScissors/ContentView.swift:83-86 | OK dismisses the alert and redraws the round. The score is unchanged and the invariant is kept. |
| Game.ObjectiveLabel | RockPaperScissors/ContentView.swift:68 | The objective is spelled "WIN" exactly when the player must win and "LOSE" exactly when the player must lose. |
| Game.AlertMessage | RockPaperScissors/ContentView.swift:88 | The alert's message is "You had to WIN the round." exactly when the current objective is WIN, and "You had to LOSE the round." exactly when it is LOSE. |
| Game.MissedRoundMessage | RockPaperScissors/ContentView.swift:83-89 | After a missed round the alert is up. Its message reads "You had to WIN the round." or "You had to LOSE the round.", naming the objective of the round that was just missed, because that round is not redrawn before the alert shows. |
| Game.ScenarioWinScores | RockPaperScissors/ContentView.swift:99-126 | Must-win, Rock against Scissors, from score 0: the score becomes 1 with no alert, and the round is redrawn. |
| Game.ScenarioTieResets | RockPaperScissors/ContentView.swift:99-126 | Must-win, a Rock-against-Rock tie, from score 5: the score becomes 0 and the alert names WIN. |
| Game.ScenarioMustLoseScores | RockPaperScissors/ContentView.swift:99-126 | Must-lose, Scissors against the app's Rock, from score 2: the score becomes 3 with no alert. |
| Game.ScenarioMustLoseMissed | RockPaperScissors/ContentView.swift:99-126 | Must-lose, Rock against the app's Scissors: the score becomes 0 and the alert names LOSE. |
| Session.Handle | RockPaperScissors/ContentView.swift:75-86 | A move tap made while no alert is up runs `validateScore(for:)`: the score becomes old+1 when the objective is met and 0 otherwise. From a score of at least 0, the alert is up afterwards exactly when the round missed. The round is redrawn exactly when the new score is not 0. Pressing OK while the alert is up clears it, keeps the score and redraws the round. Taps while the alert is up, and OK while it is down, change nothing. Every event keeps the invariant. |
| Session.Run | RockPaperScissors/ContentView.swift:34-86 | Along any sequence of events, the score stays at least 0 and the alert is only up while the score is 0. |
| Session.ScoreIsStreak | RockPaperScissors/ContentView.swift:99-126 | After any session, the score is the number of rounds scored since the last missed round. If no round was missed, it is the starting score plus the number of rounds played. |
| Session.AcknowledgeOnce | RockPaperScissors/ContentView.swift:83-86 | Pressing OK twice in a row has the effect of pressing it once. |

## A must-lose round worth noting

Under must-lose, Scissors against the app's Rock scores (ContentView.swift:116-117),
because Rock beats Scissors. `Game.ScenarioMustLoseScores` states it: from score 2
the score becomes 3. `Game.ScenarioMustLoseMissed` gives a must-lose round that misses.

## Left out

- The SwiftUI view body: layout, colours, materials, fonts, the "Score:" and
  prompt texts, and `ContentView_Previews` (lines 41-97, 134-138). These are presentation only.
- `currentChoice` (line 34): no logic reads or writes it.
- The `@State` and alert-binding machinery. The alert is a boolean field. SwiftUI's
  dismissal of the alert when OK is pressed is modelled as clearing that field. The
  alert's modality is modelled in `Session.Handle`. The alert modifier is attached
  once per button, three times in all, but all three share one binding, which the model
  treats as a single alert.
- The distribution of `randomElement()` and `Bool.random()`, whose uniformity is a statistical
  claim. Their results are supplied as a `Draw`. `Moves.PickOf` states only that
  each move belongs to exactly one of the three generator outcomes.
- Rules.NewScore: the score is an unbounded integer. Swift's `Int` addition would trap
  at `Int.max` after 2^63 - 1 consecutive scoring rounds, and the model does not include that.
