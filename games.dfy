/**
 * The Game entity and its lifecycle: pending (only the creator seated),
 * ongoing (both seats filled), finished (both moves known, result frozen).
 */
module Games {
  import opened Wrappers
  import opened Rps

  datatype State = Pending | Ongoing | Finished

  /** A stored game; players are user ids. */
  datatype Game = Game(
    id: nat,
    state: State,
    playerLeft: nat,
    playerRight: Option<nat>,
    playLeft: Option<Choice>,
    playRight: Option<Choice>,
    result: Option<Outcome>)

  /**
   * The lifecycle invariant every handler keeps: pending exactly while the
   * right seat is empty, no move before the game starts, finished exactly
   * when both moves are known, a result exactly when finished, and that
   * result is the one the resolution rule gives.
   */
  predicate Valid(g: Game) {
    && (g.state == Pending <==> g.playerRight.None?)
    && (g.state == Pending ==> g.playLeft.None? && g.playRight.None?)
    && (g.state == Finished <==> g.playLeft.Some? && g.playRight.Some?)
    && (g.state == Finished <==> g.result.Some?)
    && (g.result.Some? ==> g.result.value == Referee(g.playLeft.value, g.playRight.value))
  }

  /** A user seated on either side of the game. */
  predicate IsParticipant(g: Game, user: nat) {
    g.playerLeft == user || g.playerRight == Some(user)
  }

  /** A freshly created game: pending, with only the creator seated. */
  function NewGame(id: nat, creator: nat): (g: Game)
    ensures Valid(g)
  {
    Game(id, Pending, creator, None, None, None, None)
  }

  /** The effect of seating an opponent on the right. */
  function Join(g: Game, opponent: nat): (h: Game)
    requires Valid(g) && g.state == Pending
    ensures Valid(h) && h.state == Ongoing && h.playerRight == Some(opponent)
    ensures h.id == g.id && h.playerLeft == g.playerLeft
    ensures h.playLeft == g.playLeft && h.playRight == g.playRight && h.result == g.result
  {
    g.(playerRight := Some(opponent), state := Ongoing)
  }

  /**
   * The effect of a move by the player on the left seat (`leftSeat`) or the
   * right seat of an ongoing game, stated with the reference rule.
   */
  function Move(g: Game, leftSeat: bool, c: Choice): (h: Game)
    requires Valid(g) && g.state == Ongoing
    ensures Valid(h)
    ensures h.id == g.id && h.playerLeft == g.playerLeft && h.playerRight == g.playerRight
    ensures leftSeat ==> h.playLeft == Some(c) && h.playRight == g.playRight
    ensures !leftSeat ==> h.playRight == Some(c) && h.playLeft == g.playLeft
    ensures h.state == Finished <==> (if leftSeat then g.playRight.Some? else g.playLeft.Some?)
    ensures h.state != Finished ==> h.state == Ongoing && h.result == None
  {
    if leftSeat then
      if g.playRight.Some? then
        g.(playLeft := Some(c), result := Some(Referee(c, g.playRight.value)), state := Finished)
      else
        g.(playLeft := Some(c))
    else
      if g.playLeft.Some? then
        g.(playRight := Some(c), result := Some(Referee(g.playLeft.value, c)), state := Finished)
      else
        g.(playRight := Some(c))
  }

  /**
   * The outcome of a round does not depend on which player moved last:
   * both orders of the two moves lead to the same finished game.
   */
  lemma MoveOrderIrrelevant(g: Game, left: Choice, right: Choice)
    requires Valid(g) && g.state == Ongoing && g.playLeft.None? && g.playRight.None?
    ensures Move(g, true, left).state == Ongoing && Move(g, false, right).state == Ongoing
    ensures Move(Move(g, true, left), false, right) == Move(Move(g, false, right), true, left)
    ensures Move(Move(g, true, left), false, right).result == Some(Referee(left, right))
  {
  }

  /** A second move by the same side only replaces that side's move. */
  lemma MoveOverwrites(g: Game, leftSeat: bool, first: Choice, second: Choice)
    requires Valid(g) && g.state == Ongoing && g.playLeft.None? && g.playRight.None?
    ensures Move(g, leftSeat, first).state == Ongoing
    ensures Move(Move(g, leftSeat, first), leftSeat, second) == Move(g, leftSeat, second)
  {
  }
}
