/**
 * Client runs of the controller on a store with users 1, 2 and 3: the
 * results are derived from the handlers' contracts alone.
 */
module Scenarios {
  import opened Wrappers
  import opened Rps
  import opened Games
  import opened Controller

  /** Creates game 1 for user 1 and seats user 2 against them. */
  method StartedGame() returns (store: GameStore)
    ensures fresh(store) && store.Valid() && store.users == {1, 2, 3}
    ensures store.games == map[1 := Game(1, Ongoing, 1, Some(2), None, None, None)]
  {
    store := new GameStore({1, 2, 3});
    assert Ids.HeaderId(Some("1")) == Some(1);
    var created := store.CreateGame(Some("1"));
    assert created == Created(Game(1, Pending, 1, None, None, None, None));
    assert Ids.PathId("2") == Some(2);
    var invited := store.InviteRightUser(Some("1"), "1", "2");
    assert invited.Ok?;
  }

  /** Left plays rock, right plays scissors: left wins. */
  method RockBeatsScissors() returns (first: Response, second: Response)
    ensures first == Ok(Game(1, Ongoing, 1, Some(2), Some(Rock), None, None))
    ensures second == Ok(Game(1, Finished, 1, Some(2), Some(Rock), Some(Scissors), Some(WinLeft)))
  {
    var store := StartedGame();
    assert Ids.HeaderId(Some("2")) == Some(2);
    first := store.Play(Some("1"), "1", Some("rock"));
    second := store.Play(Some("2"), "1", Some("scissors"));
  }

  /** Both play paper: a draw. */
  method PaperDraw() returns (second: Response)
    ensures second == Ok(Game(1, Finished, 1, Some(2), Some(Paper), Some(Paper), Some(Draw)))
  {
    var store := StartedGame();
    assert Ids.HeaderId(Some("2")) == Some(2);
    var first := store.Play(Some("1"), "1", Some("paper"));
    second := store.Play(Some("2"), "1", Some("paper"));
  }

  /** A creator inviting themselves is refused and the game stays pending. */
  method SelfInviteRefused() returns (r: Response, after: Response)
    ensures r == Err(409, SelfPlay)
    ensures after == Ok(Game(1, Pending, 1, None, None, None, None))
  {
    var store := new GameStore({1, 2, 3});
    assert Ids.HeaderId(Some("1")) == Some(1);
    var created := store.CreateGame(Some("1"));
    r := store.InviteRightUser(Some("1"), "1", "1");
    after := store.FetchGame("1");
  }

  /**
   * User 2 seats the creator, user 1, on the right of user 1's own game:
   * the self-play guard compares the caller with the invitee, so both
   * seats end up with the same user.
   */
  method CreatorSeatedTwice() returns (r: Response)
    ensures r.Ok? && r.game.playerLeft == 1 && r.game.playerRight == Some(1)
  {
    var store := new GameStore({1, 2, 3});
    assert Ids.HeaderId(Some("1")) == Some(1);
    var created := store.CreateGame(Some("1"));
    assert Ids.HeaderId(Some("2")) == Some(2);
    r := store.InviteRightUser(Some("2"), "1", "1");
  }

  /** An outsider cannot delete the game, which can still be fetched. */
  method OutsiderDeleteRefused() returns (r: Response, after: Response)
    ensures r == Err(403, GameNotFound)
    ensures after.Ok? && after.game.id == 1
  {
    var store := StartedGame();
    assert Ids.HeaderId(Some("3")) == Some(3);
    r := store.DeleteGame(Some("3"), "1");
    after := store.FetchGame("1");
  }

  /** Header "0" names user 0 everywhere except for the invite, which uses `empty`. */
  method ZeroCallerRefusedByInviteOnly() returns (created: Response, invited: Response)
    ensures created == Created(Game(1, Pending, 0, None, None, None, None))
    ensures invited == Err(401, UserNotFound)
  {
    var store := new GameStore({0, 1});
    assert Ids.HeaderId(Some("0")) == Some(0);
    created := store.CreateGame(Some("0"));
    invited := store.InviteRightUser(Some("0"), "1", "1");
  }

  /** A move on a pending game by someone other than the creator dereferences the empty right seat. */
  method PendingMoveByOtherCrashes() returns (byOther: Response, byCreator: Response)
    ensures byOther == Crash
    ensures byCreator == Err(409, GameNotStarted)
  {
    var store := new GameStore({1, 2, 3});
    assert Ids.HeaderId(Some("1")) == Some(1);
    var created := store.CreateGame(Some("1"));
    assert Ids.HeaderId(Some("2")) == Some(2);
    byOther := store.Play(Some("2"), "1", Some("rock"));
    byCreator := store.Play(Some("1"), "1", Some("rock"));
  }
}
