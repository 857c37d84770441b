# Rock-paper-scissors game controller, modelled in Dafny

This project models the game state machine of a small REST backend for two-player
rock-paper-scissors (`src/Controller/GameController.php`). It covers five handlers:

- create a game,
- fetch a game,
- invite an opponent,
- play a move,
- delete a game.

The handlers work on a store of games keyed by integer id. The project also covers the two
hand-written tables that resolve a round.

Modules:

- `Wrappers`: `Option`, the stand-in for PHP's `null`.
- `Ids`: `ctype_digit` and `empty` on caller ids and path segments. Also the integer key a
  digit string selects. The lemma `DecimalRoundTrip` proves that every id has a spelling
  the guards accept.
- `Rps`: choices and outcomes. `Referee` is the reference rule (equal choices draw; rock
  beats scissors, scissors beats paper, paper beats rock). `LeftTable` and `RightTable`
  transcribe the two switch blocks, and each one's contract says it equals `Referee`.
  `ParseChoice` decodes the submitted `choice`.
- `Games`: the `Game` record and its lifecycle invariant `Valid`. Pending means the right
  seat is empty. Finished means both moves are present and a result is set, and the result
  is the one `Referee` gives. Also the transition functions `NewGame`, `Join` and `Move`.
- `Controller`: the class `GameStore`. It holds `games: map<nat, Game>`, the set of existing
  user ids and the next id to assign. Its handler methods run the source's guards in the
  source's order, then update the map. Each method's `ensures` gives the response and the
  whole new store for every branch, and keeps `Valid()`.
- `Scenarios`: client methods that run the handlers on a fresh store. Their results follow
  from the handlers' contracts alone.

Responses are `Ok(game)` (200), `Created(game)` (201), `NoContent` (204),
`Err(status, message)` (with the source's status codes and messages) and `Crash`. `Crash`
is the fatal error PHP raises when a method is called on `null`.

Modelling choices:

- The `X-User-Id` header is an `Option<string>`. A path segment is a `string`.
- A digit string selects the id equal to its decimal value, so `"007"` and `"7"` name the
  same row. `Ids.PathIdSpellings` proves that the spellings of an id are exactly its
  decimal digits after any number of zeros.
- A new game gets the store's next id (ids start at 1), the way an auto-increment column does.
- The decoded request body is an `Option<string>` carrying the `choice` field. `None` stands
  for every body the form rejects.

## Quirks of the code

The model follows the code in each of these four places.

- Invite compares the caller with the invitee, not with the game's `playerLeft`. It never
  checks that the caller created the game. So a third user can seat the creator on both
  sides of their own game, although the two players of a game are meant to be distinct
  (`Scenarios.CreatorSeatedTwice`). That game can never finish: the creator's moves always
  go to the left seat.
- Invite tests the header with `empty`, so the caller id `"0"` gets 401 there. The other
  handlers accept `"0"` (`Ids.EmptyRejectsOnlyZeroAmongIds`,
  `Scenarios.ZeroCallerRefusedByInviteOnly`).
- `play` tests participation before the state. On a pending game, a caller who is not
  `playerLeft` dereferences the empty right seat. The result is a `Crash`, where a 409
  "Game not started" would be expected (`Scenarios.PendingMoveByOtherCrashes`).
- Delete answers 403 "Game not found", not 404, both for a missing game and for a game
  of other players.

## Model

| member | source | states |
|---|---|---|
| Ids.PathIdSpellings | src/Controller/GameController.php:65-69 | a path segment passes `ctype_digit` and selects id `n` if and only if it is the decimal spelling of `n` after any number of zeros |
| Ids.HeaderIdSpellings | src/Controller/GameController.php:146-150 | a header names user `n` if and only if it is present and spells `n` in decimal after any number of zeros; an absent header names no one (`ctype_digit(null)` is false) |
| Ids.EmptyRejectsOnlyZeroAmongIds | src/Controller/GameController.php:86-92 | among headers that name a user id, `empty` rejects exactly `"0"` |
| Ids.DecimalRoundTrip | src/Controller/GameController.php:36-40 | the decimal spelling of every id passes the digit guard and selects that id, for paths and for headers |
| Rps.Referee | src/Controller/GameController.php:207-235 | the outcome is a draw iff the choices are equal, and a side wins iff its choice beats the other's |
| Rps.LeftTable | src/Controller/GameController.php:207-235 | the table used when the left player moves last equals the reference rule on (new left move, stored right move) |
| Rps.RightTable | src/Controller/GameController.php:250-278 | the table used when the right player moves last equals the reference rule on (stored left move, new right move) |
| Rps.TablesAgree | src/Controller/GameController.php:207-278 | the two tables compute the same outcome for every pair of moves |
| Rps.RefereeSymmetric | src/Controller/GameController.php:207-278 | exchanging the sides exchanges `winLeft` and `winRight` and keeps `draw` |
| Rps.BeatsIsCyclic | src/Controller/GameController.php:207-235 | each choice beats exactly one other and loses to exactly one other, and no two choices beat each other |
| Rps.ParseChoice | src/Controller/GameController.php:187-199 | a move is accepted exactly when the decoded choice is one of `rock`, `paper`, `scissors`, and the move is the one that word names |
| Rps.BlankIsRefused | src/Controller/GameController.php:179-193 | a missing choice and a blank choice give no move |
| Rps.ParseWord | src/Controller/GameController.php:197-202 | each move's word is parsed back to that move |
| Games.NewGame | src/Controller/GameController.php:46-48 | a new game (pending, only the creator seated) satisfies the lifecycle invariant |
| Games.Join | src/Controller/GameController.php:130-131 | seating an opponent on a pending game gives an ongoing game that keeps the invariant, with the invitee in the right seat and the id, left player, moves and result unchanged |
| Games.Move | src/Controller/GameController.php:201-282 | a move writes only the mover's side and keeps the players; the game finishes exactly when the opposing move is present, with the reference result; otherwise it stays ongoing without a result |
| Games.MoveOrderIrrelevant | src/Controller/GameController.php:201-282 | from an ongoing game without moves, both orders of the two moves give the same finished game, with the reference result |
| Games.MoveOverwrites | src/Controller/GameController.php:202-245 | a second move by the same side before the opponent moves replaces the first |
| Controller.GameStore.CreateGame | src/Controller/GameController.php:28-59 | an absent, non-numeric or unknown caller gets 401 and nothing changes; otherwise exactly one game is added under a fresh id (pending, caller on the left, everything else unset), all other games unchanged, 201 with that game |
| Controller.FetchStored | src/Controller/GameController.php:63-79 | fetching by any spelling of an id (zeros, then its decimal digits) gives 200 with the game stored under it, or 404 when there is none |
| Controller.GameStore.InviteRightUser | src/Controller/GameController.php:82-139 | guards in source order: empty or non-numeric caller 401, bad game id 404, bad invitee id 404, unknown caller 401, missing game 404, started game 409 (before the invitee lookup), unknown invitee 404, caller equal to invitee 409; on success only `playerRight := invitee` and `state := ongoing`; every rejection leaves the store unchanged |
| Controller.GameStore.Play | src/Controller/GameController.php:142-287 | guards in source order: bad or unknown caller 401, bad or missing game 404, non-creator on an empty right seat crashes, non-participant 403, pending or finished 409, invalid choice 400; on success the store holds `Move` of the game for the caller's seat (left first); only an ongoing game accepts a move; every rejection leaves the store unchanged |
| Controller.GameStore.DeleteGame | src/Controller/GameController.php:290-321 | bad or unknown caller 401, bad id 404; the game is removed with 204 iff it exists and the caller is either player, whatever its state; otherwise 403 and the store is unchanged |
| Scenarios.RockBeatsScissors | src/Controller/GameController.php:201-237 | after create and invite, rock by the left player leaves the game ongoing, and scissors by the right player finishes it with `winLeft` |
| Scenarios.PaperDraw | src/Controller/GameController.php:245-281 | paper against paper finishes the game with `draw` |
| Scenarios.SelfInviteRefused | src/Controller/GameController.php:126-128 | a creator inviting themselves gets 409 and the game is still pending |
| Scenarios.CreatorSeatedTwice | src/Controller/GameController.php:103-131 | another user can seat the creator on the right of their own game |
| Scenarios.OutsiderDeleteRefused | src/Controller/GameController.php:307-315 | a user who is not a player gets 403 on delete and the game can still be fetched |
| Scenarios.ZeroCallerRefusedByInviteOnly | src/Controller/GameController.php:86-88 | header `"0"` creates game 1, pending, for user 0, but the invite refuses it with 401 |
| Scenarios.PendingMoveByOtherCrashes | src/Controller/GameController.php:166-177 | on a pending game a non-creator's move crashes, and the creator's move gets 409 |

## Left out

- `getListOfGames` (src/Controller/GameController.php:17-25) returns every stored game unfiltered: a read of the whole map, with no logic to state.
- Routing, JSON encoding of responses and response headers are HTTP plumbing. A response is a status with a game or a message.
- The Doctrine entity manager (`find`, `findOneBy`, `persist`, `flush`, `remove`) is a map from id to game. The intermediate `flush` between writing a move and writing the result cannot be observed by a sequential model: the method builds the updated game and stores it once.
- The Symfony form, its `NotBlank` constraint and `json_decode` are library code. The decoded `choice` is an optional string. The form's trimming of surrounding whitespace is not modelled: a padded word such as `" rock"` is refused here.
- Ids.PathId: digit strings too long for the database's integer column are not modelled; any digit string selects its unbounded decimal value.
- Users are ids with an existence check (a fixed set). No other user data takes part.
- Concurrent requests and last-write-wins races are not modelled. The source has no coordination between requests.
