/** The three moves, their display names and the "beats" relation exactly as
    the engine evaluates it: with `===` on possibly-null choices. */
module Moves {
  import opened Wrappers

  datatype Move = Rock | Paper | Scissors

  /** The lower-case name the engine uses for a move (the button's
      `data-choice` value, also the text written into history). */
  function Name(m: Move): (r: string)
    ensures r in {"rock", "paper", "scissors"}
  {
    match m
    case Rock => "rock"
    case Paper => "paper"
    case Scissors => "scissors"
  }

  /** How a possibly-null choice appears inside a template string: a null
      choice prints as "null". */
  function Show(c: Option<Move>): (r: string)
    ensures c.None? <==> r == "null"
    ensures c.Some? ==> r == Name(c.value)
  {
    match c
    case None => "null"
    case Some(m) => Name(m)
  }

  /** The disjunction the engine writes out for "the first choice beats the
      second". A null choice is strictly equal to no move name, so it takes
      part in no disjunct. */
  predicate Beats(a: Option<Move>, b: Option<Move>)
    ensures Beats(a, b) ==> a.Some? && b.Some? && a != b
  {
    || (a == Some(Rock) && b == Some(Scissors))
    || (a == Some(Paper) && b == Some(Rock))
    || (a == Some(Scissors) && b == Some(Paper))
  }

  /** Position of a move on the rock -> paper -> scissors cycle. */
  function Index(m: Move): (r: int)
    ensures 0 <= r < 3
  {
    match m
    case Rock => 0
    case Paper => 1
    case Scissors => 2
  }

  /** Reference definition: a move beats the one just before it on the cycle. */
  predicate CyclicBeats(x: Move, y: Move)
  {
    (Index(x) - Index(y)) % 3 == 1
  }

  lemma NameInjective(x: Move, y: Move)
    ensures Name(x) == Name(y) <==> x == y
  {
  }

  /** The written-out disjunction agrees with the cyclic reference relation on
      every ordered pair of moves. */
  lemma BeatsIsCyclic(x: Move, y: Move)
    ensures Beats(Some(x), Some(y)) <==> CyclicBeats(x, y)
  {
  }

  /** No move beats itself. */
  lemma BeatsIrreflexive(x: Move)
    ensures !Beats(Some(x), Some(x))
  {
  }

  /** For two different moves exactly one beats the other. */
  lemma BeatsExactlyOne(x: Move, y: Move)
    requires x != y
    ensures Beats(Some(x), Some(y)) != Beats(Some(y), Some(x))
  {
  }

  /** A null choice neither beats nor is beaten. */
  lemma NullBeatsNothing(c: Option<Move>)
    ensures !Beats(None, c) && !Beats(c, None)
  {
  }
}
