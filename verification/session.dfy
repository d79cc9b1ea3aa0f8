/** A session of the game screen: the user's taps and alert acknowledgements,
    delivered one at a time, with the alert modal while it is up. */
module Session {
  import opened Moves
  import opened Rules
  import opened Game

  /** A user action together with the random values the app would draw after it. */
  datatype Event =
    | Tap(option: Move, draw: Draw)   // a move button
    | Ok(draw: Draw)                  // the alert's OK button

  /** Delivers one event: move buttons only react while no alert is up, and
      the OK button only exists while the alert is up. */
  function Handle(s: GameState, e: Event): (r: GameState)
    ensures Inv(s) ==> Inv(r)
    ensures e.Ok? ==> !r.shouldPresentAlert
    ensures r.currentScore != s.currentScore ==> e.Tap? && !s.shouldPresentAlert
    ensures s.shouldPresentAlert && e.Tap? ==> r == s
    ensures !s.shouldPresentAlert && e.Ok? ==> r == s
    ensures Delivered(s, e) ==>
              r.currentScore ==
                if Scores(e.option, s.appMove, s.playerShouldWin) then s.currentScore + 1 else 0
    ensures Delivered(s, e) && s.currentScore >= 0 ==>
              (r.shouldPresentAlert <==> !Scores(e.option, s.appMove, s.playerShouldWin))
    ensures Delivered(s, e) && r.currentScore == 0 ==>
              r.appMove == s.appMove && r.playerShouldWin == s.playerShouldWin
    ensures Delivered(s, e) && r.currentScore != 0 ==>
              r.appMove == RandomMove(e.draw.movePick) && r.playerShouldWin == e.draw.shouldWin
    ensures e.Ok? && s.shouldPresentAlert ==>
              r.currentScore == s.currentScore
              && r.appMove == RandomMove(e.draw.movePick) && r.playerShouldWin == e.draw.shouldWin
  {
    match e
    case Tap(option, d) => if s.shouldPresentAlert then s else ValidateScore(s, option, d)
    case Ok(d) => if s.shouldPresentAlert then Acknowledge(s, d) else s
  }

  /** The state after delivering `evs` in order, starting from `s`. */
  function Run(s: GameState, evs: seq<Event>): (r: GameState)
    ensures Inv(s) ==> Inv(r)
    decreases |evs|
  {
    if evs == [] then s
    else Handle(Run(s, evs[..|evs| - 1]), evs[|evs| - 1])
  }

  /** True when `e` is a move tap that reaches `validateScore(for:)` in state `s`. */
  predicate Delivered(s: GameState, e: Event)
  {
    e.Tap? && !s.shouldPresentAlert
  }

  /** The outcome of each round played in `evs`, in order: whether the tapped
      move met the objective of its round. */
  function Rounds(s: GameState, evs: seq<Event>): seq<bool>
    decreases |evs|
  {
    if evs == [] then []
    else
      var init := evs[..|evs| - 1];
      var prev := Run(s, init);
      var e := evs[|evs| - 1];
      Rounds(s, init)
      + (if Delivered(prev, e) then [Scores(e.option, prev.appMove, prev.playerShouldWin)] else [])
  }

  /** The number of rounds at the end of `xs` that all scored. */
  function TrailingWins(xs: seq<bool>): nat
  {
    if xs == [] then 0
    else if xs[|xs| - 1] then 1 + TrailingWins(xs[..|xs| - 1])
    else 0
  }

  lemma TrailingWinsSnoc(xs: seq<bool>, b: bool)
    ensures TrailingWins(xs + [b]) == if b then 1 + TrailingWins(xs) else 0
  {
    assert (xs + [b])[..|xs|] == xs;
  }

  /** The score shown is the current winning streak: the number of rounds
      scored since the last missed round, or, if no round was missed, the
      starting score plus every round played. */
  lemma {:induction false} ScoreIsStreak(s: GameState, evs: seq<Event>)
    ensures var rs := Rounds(s, evs);
            Run(s, evs).currentScore ==
              if false in rs then TrailingWins(rs) else s.currentScore + |rs|
    decreases |evs|
  {
    if evs != [] {
      var init := evs[..|evs| - 1];
      var prev := Run(s, init);
      var e := evs[|evs| - 1];
      var rs0 := Rounds(s, init);
      ScoreIsStreak(s, init);
      if Delivered(prev, e) {
        var b := Scores(e.option, prev.appMove, prev.playerShouldWin);
        TrailingWinsSnoc(rs0, b);
        assert Rounds(s, evs) == rs0 + [b];
        assert false in rs0 + [b] <==> false in rs0 || !b;
      } else {
        assert Rounds(s, evs) == rs0;
      }
    }
  }

  /** Pressing OK a second time does nothing: the alert, and with it the
      button, is already gone. */
  lemma AcknowledgeOnce(s: GameState, d1: Draw, d2: Draw)
    ensures Handle(Handle(s, Ok(d1)), Ok(d2)) == Handle(s, Ok(d1))
  {
  }
}
