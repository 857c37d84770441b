/**
 * Moves, outcomes and the resolution rule. The controller resolves a round
 * with one of two hand-written tables, depending on which player moved
 * last; `Referee` is the rule both tables are meant to implement.
 */
module Rps {
  import opened Wrappers

  datatype Choice = Rock | Paper | Scissors

  datatype Outcome = WinLeft | WinRight | Draw

  /** Rock beats scissors, scissors beats paper, paper beats rock. */
  predicate Beats(a: Choice, b: Choice) {
    (a == Rock && b == Scissors) || (a == Scissors && b == Paper) || (a == Paper && b == Rock)
  }

  /** The reference rule: equal choices draw, otherwise the dominant side wins. */
  function Referee(left: Choice, right: Choice): (o: Outcome)
    ensures o == Draw <==> left == right
    ensures o == WinLeft <==> Beats(left, right)
    ensures o == WinRight <==> Beats(right, left)
  {
    if left == right then Draw else if Beats(left, right) then WinLeft else WinRight
  }

  /** The same outcome with the sides exchanged. */
  function Mirror(o: Outcome): (m: Outcome) {
    match o
    case WinLeft => WinRight
    case WinRight => WinLeft
    case Draw => Draw
  }

  /**
   * The table used when the left player moves last: `choice` is the new
   * left move and `playRight` the stored right move.
   */
  function LeftTable(choice: Choice, playRight: Choice): (o: Outcome)
    ensures o == Referee(choice, playRight)
  {
    match choice
    case Rock =>
      if playRight == Paper then WinRight else if playRight == Scissors then WinLeft else Draw
    case Paper =>
      if playRight == Scissors then WinRight else if playRight == Rock then WinLeft else Draw
    case Scissors =>
      if playRight == Rock then WinRight else if playRight == Paper then WinLeft else Draw
  }

  /**
   * The table used when the right player moves last: `choice` is the new
   * right move and `playLeft` the stored left move.
   */
  function RightTable(choice: Choice, playLeft: Choice): (o: Outcome)
    ensures o == Referee(playLeft, choice)
  {
    match choice
    case Rock =>
      if playLeft == Paper then WinLeft else if playLeft == Scissors then WinRight else Draw
    case Paper =>
      if playLeft == Scissors then WinLeft else if playLeft == Rock then WinRight else Draw
    case Scissors =>
      if playLeft == Rock then WinLeft else if playLeft == Paper then WinRight else Draw
  }

  /** Both tables compute the same function of (left move, right move). */
  lemma TablesAgree(left: Choice, right: Choice)
    ensures LeftTable(left, right) == RightTable(right, left)
  {
  }

  /** Exchanging the sides exchanges the winner and keeps a draw. */
  lemma RefereeSymmetric(left: Choice, right: Choice)
    ensures Referee(right, left) == Mirror(Referee(left, right))
  {
  }

  /** Each choice beats exactly one other choice and loses to exactly one. */
  lemma BeatsIsCyclic(a: Choice)
    ensures exists b :: Beats(a, b)
    ensures forall b, c :: Beats(a, b) && Beats(a, c) ==> b == c
    ensures exists b :: Beats(b, a)
    ensures forall b, c :: Beats(b, a) && Beats(c, a) ==> b == c
    ensures forall b :: !(Beats(a, b) && Beats(b, a))
  {
    match a
    case Rock => assert Beats(Rock, Scissors) && Beats(Paper, Rock);
    case Paper => assert Beats(Paper, Rock) && Beats(Scissors, Paper);
    case Scissors => assert Beats(Scissors, Paper) && Beats(Rock, Scissors);
  }

  /** The word a move is spelled with in a request body and in the store. */
  function Word(c: Choice): (w: string) {
    match c
    case Rock => "rock"
    case Paper => "paper"
    case Scissors => "scissors"
  }

  /**
   * The decoded `choice` field of a move request: absent (the form rejects
   * the body) or not one of the three words gives no move.
   */
  function ParseChoice(body: Option<string>): (r: Option<Choice>)
    ensures r.Some? <==> body.Some? && body.value in {"rock", "paper", "scissors"}
    ensures r.Some? ==> Word(r.value) == body.value
  {
    match body
    case None => None
    case Some(s) =>
      if s == "rock" then Some(Rock)
      else if s == "paper" then Some(Paper)
      else if s == "scissors" then Some(Scissors)
      else None
  }

  /** A blank choice is refused, like any other word that is not a move. */
  lemma BlankIsRefused()
    ensures ParseChoice(Some("")) == None
    ensures ParseChoice(None) == None
  {
  }

  lemma ParseWord(c: Choice)
    ensures ParseChoice(Some(Word(c))) == Some(c)
  {
  }
}
