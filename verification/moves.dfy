/** The `Move` enum of the game: three moves, their display labels and the
    random draw of a move. */
module Moves {
  import opened Optionals

  /** `enum Move: String { case rock, paper, scissors }` */
  datatype Move = Rock | Paper | Scissors

  /** The array `[.rock, .paper, .scissors]` that `Move.random` draws from. */
  const AllMoves: seq<Move> := [Rock, Paper, Scissors]

  /** The raw value Swift derives from each case name of a `String` enum. */
  function RawValue(m: Move): string
  {
    match m
    case Rock => "rock"
    case Paper => "paper"
    case Scissors => "scissors"
  }

  /** Upper-cases an ASCII lower-case letter and leaves every other character alone. */
  function UpperAscii(c: char): (u: char)
    ensures 'a' <= c <= 'z' ==> 'A' <= u <= 'Z' && u as int == c as int - 32
    ensures !('a' <= c <= 'z') ==> u == c
  {
    if 'a' <= c <= 'z' then (c as int - 'a' as int + 'A' as int) as char else c
  }

  /** A word with its first letter upper-cased. */
  function Capitalized(s: string): string
  {
    if |s| == 0 then s else [UpperAscii(s[0])] + s[1..]
  }

  /** The display label `asString`, shown on the move buttons and for the app's move. */
  function AsString(m: Move): (r: string)
    ensures r == Capitalized(RawValue(m))
    ensures |r| > 0 && 'A' <= r[0] <= 'Z'
  {
    match m
    case Rock => "Rock"
    case Paper => "Paper"
    case Scissors => "Scissors"
  }

  /** The inverse of `AsString`: the move whose label is `s`, if any. */
  function ParseLabel(s: string): (r: Optional<Move>)
    ensures r.Some? ==> AsString(r.value) == s
    ensures forall m :: AsString(m) == s ==> r == Some(m)
  {
    if s == "Rock" then Some(Rock)
    else if s == "Paper" then Some(Paper)
    else if s == "Scissors" then Some(Scissors)
    else None
  }

  /** Distinct moves have distinct labels. */
  lemma AsStringInjective(a: Move, b: Move)
    ensures AsString(a) == AsString(b) ==> a == b
  {
    if AsString(a) == AsString(b) {
      assert ParseLabel(AsString(a)) == Some(a);
      assert ParseLabel(AsString(b)) == Some(b);
    }
  }

  /** Swift's `randomElement()` on an array, with the generator's choice supplied
      as `pick`: nothing for an empty array, otherwise the element at `pick`
      reduced to the array's index range. */
  function RandomElement<T>(a: seq<T>, pick: nat): (r: Optional<T>)
    ensures r.None? <==> |a| == 0
    ensures r.Some? ==> r.value in a
  {
    if |a| == 0 then None else Some(a[pick % |a|])
  }

  /** Every element of a non-empty array is some pick's result. */
  lemma RandomElementReaches<T>(a: seq<T>, i: nat)
    requires i < |a|
    ensures RandomElement(a, i) == Some(a[i])
  {
  }

  /** `Move.random`: `[.rock, .paper, .scissors].randomElement() ?? .rock`. */
  function RandomMove(pick: nat): (m: Move)
    ensures RandomElement(AllMoves, pick) == Some(m)
  {
    RandomElement(AllMoves, pick).Coalesce(Rock)
  }

  /** The one pick below three that draws `m`: each move is drawn by exactly
      one of the three outcomes of the generator. */
  function PickOf(m: Move): (pick: nat)
    ensures pick < |AllMoves| && RandomMove(pick) == m
    ensures forall i: nat :: i < |AllMoves| && RandomMove(i) == m ==> i == pick
  {
    match m
    case Rock => 0
    case Paper => 1
    case Scissors => 2
  }
}
