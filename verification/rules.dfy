/** The scoring rule of one round: which move beats which, when the player's
    move meets the round's objective, and the score that results. */
module Rules {
  import opened Moves

  /** `a` beats `b`: rock blunts scissors, paper covers rock, scissors cut paper. */
  predicate Beats(a: Move, b: Move)
  {
    match (a, b)
    case (Rock, Scissors) => true
    case (Paper, Rock) => true
    case (Scissors, Paper) => true
    case _ => false
  }

  /** For any two moves exactly one holds: they tie, the first wins, or the second wins. */
  lemma BeatsTrichotomy(a: Move, b: Move)
    ensures a == b ==> !Beats(a, b) && !Beats(b, a)
    ensures a != b ==> (Beats(a, b) <==> !Beats(b, a))
  {
  }

  /** The one move that beats `m`. */
  function Defeater(m: Move): (r: Move)
    ensures Beats(r, m)
    ensures forall x :: Beats(x, m) ==> x == r
  {
    match m
    case Rock => Paper
    case Paper => Scissors
    case Scissors => Rock
  }

  /** The one move that `m` beats. */
  function Victim(m: Move): (r: Move)
    ensures Beats(m, r)
    ensures forall x :: Beats(m, x) ==> x == r
  {
    match m
    case Rock => Scissors
    case Paper => Rock
    case Scissors => Paper
  }

  /** The player's move meets the objective: with `shouldWin` it must beat the
      app's move, otherwise the app's move must beat it. */
  predicate Scores(player: Move, app: Move, shouldWin: bool)
  {
    if shouldWin then Beats(player, app) else Beats(app, player)
  }

  /** The score after one round, written as the case table of `validateScore(for:)`:
      one more than before when the objective is met, zero otherwise. */
  function NewScore(option: Move, app: Move, shouldWin: bool, score: int): (r: int)
    ensures Scores(option, app, shouldWin) ==> r == score + 1
    ensures !Scores(option, app, shouldWin) ==> r == 0
    ensures score >= 0 ==> r >= 0
    ensures score >= 0 ==> (r == 0 <==> !Scores(option, app, shouldWin))
  {
    match option
    case Rock =>
      if shouldWin then (if app == Scissors then score + 1 else 0)
      else (if app == Paper then score + 1 else 0)
    case Paper =>
      if shouldWin then (if app == Rock then score + 1 else 0)
      else (if app == Scissors then score + 1 else 0)
    case Scissors =>
      if shouldWin then (if app == Paper then score + 1 else 0)
      else (if app == Rock then score + 1 else 0)
  }

  /** A tie never scores, whatever the objective, so it resets the score. */
  lemma TieNeverScores(m: Move, shouldWin: bool, score: int)
    ensures !Scores(m, m, shouldWin)
    ensures NewScore(m, m, shouldWin, score) == 0
  {
  }

  /** The one move that scores against `app` under the objective: for every
      situation exactly one of the three buttons scores. */
  function ScoringMove(app: Move, shouldWin: bool): (r: Move)
    ensures Scores(r, app, shouldWin)
    ensures forall o :: Scores(o, app, shouldWin) ==> o == r
  {
    if shouldWin then Defeater(app) else Victim(app)
  }

  /** The two objectives never agree on a move: the move that scores when the
      player must win loses when the player must lose, and vice versa. */
  lemma ObjectivesDisagree(app: Move)
    ensures ScoringMove(app, true) != ScoringMove(app, false)
    ensures ScoringMove(app, true) != app && ScoringMove(app, false) != app
  {
  }
}
