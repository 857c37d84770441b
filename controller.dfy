/**
 * The game controller over a store of games keyed by id. Each handler is
 * the source's chain of guards, in the source's order, followed by the
 * update of the store; the response stands for the HTTP status and body.
 */
module Controller {
  import opened Wrappers
  import opened Ids
  import opened Rps
  import opened Games

  const UserNotFound := "User not found"
  const GameNotFound := "Game not found"
  const GameAlreadyStarted := "Game already started"
  const SelfPlay := "You can't play against yourself"
  const NotAPlayer := "You are not a player of this game"
  const GameNotStarted := "Game not started"
  const InvalidChoice := "Invalid choice"

  /**
   * 200 with a game, 201 with a new game, 204 without a body, an error
   * status with its message, or the fatal error PHP raises on a method
   * call on null.
   */
  datatype Response =
    | Ok(game: Game)
    | Created(game: Game)
    | NoContent
    | Err(status: nat, message: string)
    | Crash

  class GameStore {
    /** The ids of the existing users; nothing here changes them. */
    const users: set<nat>
    /** The stored games, by id. */
    var games: map<nat, Game>
    /** The next id the storage assigns to a new game. */
    var nextId: nat

    ghost predicate Valid()
      reads this
    {
      forall k | k in games ::
        && k < nextId
        && games[k].id == k
        && Games.Valid(games[k])
        && games[k].playerLeft in users
        && (games[k].playerRight.Some? ==> games[k].playerRight.value in users)
    }

    constructor (users: set<nat>)
      ensures Valid()
      ensures this.users == users && games == map[] && nextId == 1
    {
      this.users := users;
      games := map[];
      nextId := 1;
    }

    /** POST /games: the caller opens a new pending game. */
    method CreateGame(caller: Option<string>) returns (r: Response)
      requires Valid()
      modifies this
      ensures Valid()
      ensures
        var user := HeaderId(caller);
        if user.None? || user.value !in users then
          r == Err(401, UserNotFound) && games == old(games) && nextId == old(nextId)
        else
          && old(nextId) !in old(games)
          && r == Created(NewGame(old(nextId), user.value))
          && games == old(games)[old(nextId) := r.game]
          && nextId > old(nextId)
    {
      if caller.None? {
        return Err(401, UserNotFound);
      }
      if !CtypeDigit(caller.value) {
        return Err(401, UserNotFound);
      }
      var user := DigitsValue(caller.value);
      if user !in users {
        return Err(401, UserNotFound);
      }
      var game := Game(nextId, Pending, user, None, None, None, None);
      games := games[nextId := game];
      nextId := nextId + 1;
      r := Created(game);
    }

    /** GET /game/{gameId}: a lookup; nothing changes. */
    function FetchGame(gameId: string): (r: Response)
      reads this
      ensures r.Ok? <==> PathId(gameId).Some? && PathId(gameId).value in games
      ensures r.Ok? ==> r.game == games[PathId(gameId).value]
      ensures !r.Ok? ==> r == Err(404, GameNotFound)
    {
      if !CtypeDigit(gameId) then Err(404, GameNotFound)
      else if DigitsValue(gameId) !in games then Err(404, GameNotFound)
      else Ok(games[DigitsValue(gameId)])
    }

    /**
     * PATCH /game/{gameId}/add/{invitee}: seats the invitee on the right.
     * The caller is compared with the invitee, not with the game's creator,
     * and is never required to be the creator.
     */
    method InviteRightUser(caller: Option<string>, gameId: string, invitee: string) returns (r: Response)
      requires Valid()
      modifies this`games
      ensures Valid()
      ensures !r.Ok? ==> games == old(games)
      ensures
        var user, gid, rid := HeaderId(caller), PathId(gameId), PathId(invitee);
        if PhpEmpty(caller) || user.None? then r == Err(401, UserNotFound)
        else if gid.None? then r == Err(404, GameNotFound)
        else if rid.None? then r == Err(404, UserNotFound)
        else if user.value !in users then r == Err(401, UserNotFound)
        else if gid.value !in old(games) then r == Err(404, GameNotFound)
        else if old(games)[gid.value].state != Pending then r == Err(409, GameAlreadyStarted)
        else if rid.value !in users then r == Err(404, UserNotFound)
        else if user.value == rid.value then r == Err(409, SelfPlay)
        else
          && r == Ok(Join(old(games)[gid.value], rid.value))
          && games == old(games)[gid.value := r.game]
    {
      if PhpEmpty(caller) {
        return Err(401, UserNotFound);
      }
      if !CtypeDigit(caller.value) {
        return Err(401, UserNotFound);
      }
      if !CtypeDigit(gameId) {
        return Err(404, GameNotFound);
      }
      if !CtypeDigit(invitee) {
        return Err(404, UserNotFound);
      }
      var playerLeft := DigitsValue(caller.value);
      if playerLeft !in users {
        return Err(401, UserNotFound);
      }
      var id := DigitsValue(gameId);
      if id !in games {
        return Err(404, GameNotFound);
      }
      var game := games[id];
      if game.state == Ongoing || game.state == Finished {
        return Err(409, GameAlreadyStarted);
      }
      var playerRight := DigitsValue(invitee);
      if playerRight !in users {
        return Err(404, UserNotFound);
      }
      if playerLeft == playerRight {
        return Err(409, SelfPlay);
      }
      game := game.(playerRight := Some(playerRight));
      game := game.(state := Ongoing);
      games := games[id := game];
      r := Ok(game);
    }

    /**
     * PATCH /game/{gameId}: the caller submits a move. The left seat takes
     * precedence when the caller holds both seats. When the opposing move is
     * already stored, the round is resolved with the table for the side that
     * moved last and the game is finished.
     */
    method Play(caller: Option<string>, gameId: string, body: Option<string>) returns (r: Response)
      requires Valid()
      modifies this`games
      ensures Valid()
      ensures !r.Ok? ==> games == old(games)
      ensures r.Ok? ==> r.game.id in old(games) && old(games)[r.game.id].state == Ongoing
      ensures
        var user, gid := HeaderId(caller), PathId(gameId);
        if user.None? || user.value !in users then r == Err(401, UserNotFound)
        else if gid.None? || gid.value !in old(games) then r == Err(404, GameNotFound)
        else
          var g := old(games)[gid.value];
          if g.playerLeft != user.value && g.playerRight.None? then r == Crash
          else if !IsParticipant(g, user.value) then r == Err(403, NotAPlayer)
          else if g.state != Ongoing then r == Err(409, GameNotStarted)
          else if ParseChoice(body).None? then r == Err(400, InvalidChoice)
          else
            && r == Ok(Move(g, g.playerLeft == user.value, ParseChoice(body).value))
            && games == old(games)[gid.value := r.game]
    {
      if caller.None? || !CtypeDigit(caller.value) {
        return Err(401, UserNotFound);
      }
      var user := DigitsValue(caller.value);
      if user !in users {
        return Err(401, UserNotFound);
      }
      if !CtypeDigit(gameId) {
        return Err(404, GameNotFound);
      }
      var id := DigitsValue(gameId);
      if id !in games {
        return Err(404, GameNotFound);
      }
      var game := games[id];
      if game.playerLeft != user {
        if game.playerRight.None? {
          return Crash;
        }
        if game.playerRight.value != user {
          return Err(403, NotAPlayer);
        }
      }
      var userIsPlayerLeft := game.playerLeft == user;
      if game.state == Finished || game.state == Pending {
        return Err(409, GameNotStarted);
      }
      var choice := ParseChoice(body);
      if choice.None? {
        return Err(400, InvalidChoice);
      }
      var c := choice.value;
      if userIsPlayerLeft {
        game := game.(playLeft := Some(c));
        if game.playRight.Some? {
          game := game.(result := Some(LeftTable(c, game.playRight.value)));
          game := game.(state := Finished);
        }
        games := games[id := game];
        return Ok(game);
      }
      game := game.(playRight := Some(c));
      if game.playLeft.Some? {
        game := game.(result := Some(RightTable(c, game.playLeft.value)));
        game := game.(state := Finished);
      }
      games := games[id := game];
      r := Ok(game);
    }

    /**
     * DELETE /game/{id}: a participant removes the game, whatever its state.
     * A missing game and a game of other players are both refused with 403.
     */
    method DeleteGame(caller: Option<string>, gameId: string) returns (r: Response)
      requires Valid()
      modifies this`games
      ensures Valid()
      ensures
        var user, gid := HeaderId(caller), PathId(gameId);
        if user.None? || user.value !in users then
          r == Err(401, UserNotFound) && games == old(games)
        else if gid.None? then
          r == Err(404, GameNotFound) && games == old(games)
        else if gid.value in old(games) && IsParticipant(old(games)[gid.value], user.value) then
          r == NoContent && games == old(games) - {gid.value}
        else
          r == Err(403, GameNotFound) && games == old(games)
    {
      if caller.None? || !CtypeDigit(caller.value) {
        return Err(401, UserNotFound);
      }
      var player := DigitsValue(caller.value);
      if player !in users {
        return Err(401, UserNotFound);
      }
      if !CtypeDigit(gameId) {
        return Err(404, GameNotFound);
      }
      var id := DigitsValue(gameId);
      var found: Option<Game> := None;
      if id in games && games[id].playerLeft == player {
        found := Some(games[id]);
      }
      if found.None? && id in games && games[id].playerRight == Some(player) {
        found := Some(games[id]);
      }
      if found.None? {
        return Err(403, GameNotFound);
      }
      games := games - {id};
      r := NoContent;
    }
  }

  /**
   * Fetching by any spelling of an id (its decimal digits after any number
   * of zeros) gives the game stored under that id, or 404 when there is none.
   */
  lemma FetchStored(store: GameStore, z: nat, k: nat)
    ensures store.FetchGame(Zeros(z) + Decimal(k))
      == if k in store.games then Ok(store.games[k]) else Err(404, GameNotFound)
  {
    PathIdSpellings(Zeros(z) + Decimal(k), k);
  }
}
