# Game-service engine of the Transcendence project, in Dafny

This project models the core of the project's game service and one helper of its profile page:

- **The ball-and-paddle simulation.** Paddles move and are clamped to the field. The ball moves and bounces off the paddles and the walls. A point is scored when the ball leaves through the left or right edge, and a game finishes at the winning score with one (winner, loser) row appended to the result store.
- **The matchmaking queue.** Players wait in a queue and are paired first-in first-out into matches. Each match starts after a countdown and ticks until its game finishes. A finish is retained for a while, and each player's status and each match's state can be looked up.
- **The four-slot elimination bracket.** Its stages run waiting → semifinal 1 → semifinal 2 → final → completed.
- **The tournament orchestrator.** It keeps one bracket, a registry of player names and the one game being played. It decides each game's winner by score and carries the champion's name forward.
- **The profile page's avatar URL check.**

Modules, one concept each:

- `Constants`: the tuning values of the engine, as arbitrary positive constants.
- `Physics`: one game as values.
  - Datatypes for paddle, ball and game.
  - A function for each step of the engine: `MovePaddle`, `MoveBall`, `Collide`, `CheckScore` and `Step`.
  - `Consistent`, the invariant of every reachable game, and lemmas about runs of steps.
- `GameLogic`: the classes `Paddle`, `Ball` and `Game`, which update their fields in place. Each method is proved to perform the `Physics` function of the same name, through `State()`.
- `Shared`: result shapes, direction parsing, the decimal text of an id, and the winner-by-score rule.
- `TournamentLogic`: the class `Tournament`, with its validity invariant (`Valid`).
- `TournamentServiceCore`: the class `TournamentService`. The countdown and tick timers are the event methods `CountdownElapsed` and `Tick`.
- `Matchmaking`: the queue's bookkeeping as values.
  - The lobby, its invariant `LobbyInv`, and pairing (`PairNext`, `PairAll`).
  - Joining (`Enqueue`), starting (`Start`), retiring (`Retire`) and the status lookup (`StatusOf`).
  - The move checks (`MoveVerdict`) and the retention rules (`ExpireEntry`, `ExpireRecord`).
- `GameServiceCore`: the class `GameService`, which holds the queue's module-level state as fields. Its methods are proved to perform the `Matchmaking` functions. The countdown, tick and retention timers are the event methods `CountdownElapsed`, `Tick` and `RetentionElapsed`.
- `ProfileUtils`: `IsValidImageUrl` and its properties.

Inputs the engine draws from outside become parameters:

- The two coin flips that launch a ball become a `Heading`. For the queue this is `draw(id)`, the heading of match `id`.
- A match's random UUID becomes the value of a counter.
- `Date.now()` becomes the parameter `now`.
- The constant values come from a constants module that is not part of this model.

## Model

| member | source | states |
|---|---|---|
| Physics.ClampToField | game-service/src/logic/game-logic/Paddle.ts:23-25 | the clamped centre lies in [height/2, 100 − height/2]; a centre already there is kept; one below or above is moved to that bound |
| Physics.MovePaddle | game-service/src/logic/game-logic/Paddle.ts:18-26 | x and both flags are unchanged and y ends in the field; with only up set, y is the clamp of y − speed; with only down set, the clamp of y + speed; with neither or both set, a y in the field is unchanged |
| Physics.Launch | game-service/src/logic/game-logic/Ball.ts:10-20 | the ball is at the given (x, y), each velocity component is ±speed, and its sign is the coin flip drawn for that axis |
| Physics.ResetBall | game-service/src/logic/game-logic/Ball.ts:27-37 | the ball is back at (50, 50) with both velocity components of magnitude BALL_SPEED |
| Physics.BounceOffLeft | game-service/src/logic/game-logic/Game.ts:47-67 | position kept, speed magnitudes kept; no contact leaves the ball unchanged; xSpeed is flipped only from moving left to moving right, and always when touching while moving left; ySpeed is flipped only above the paddle while moving down, or below it while moving up |
| Physics.BounceOffRight | game-service/src/logic/game-logic/Game.ts:69-87 | position kept, speed magnitudes kept; no contact leaves the ball unchanged; xSpeed is flipped only from moving right to moving left; ySpeed is flipped only above the paddle while moving down, and a ball below the paddle keeps its ySpeed (the empty branch) |
| Physics.BounceOffWalls | game-service/src/logic/game-logic/Game.ts:89-95 | only ySpeed may change, and only in sign; a ball between the walls is unchanged; past the top wall ySpeed ends ≥ 0, past the bottom wall ≤ 0 |
| Physics.Collide | game-service/src/logic/game-logic/Game.ts:42-96 | the collision step keeps the position and both speed magnitudes, so a ball at game speed stays at game speed; without paddle contact only the walls act |
| Physics.CheckScore | game-service/src/logic/game-logic/Game.ts:143-161 | a ball past the left edge gives player two exactly one point and a reset ball; past x = 100, player one; in between nothing changes; at most one point per call; finished exactly when it was finished or the scorer reached WINNING_SCORE; exactly one (winner, loser) row appended at that moment |
| Physics.NewGame | game-service/src/logic/game-logic/Game.ts:28-36 | a new game has the given ids, zero scores, is unfinished, has stored no result, and is consistent |
| Physics.Step | game-service/src/logic/game-logic/Game.ts:163-171 | a finished game is unchanged; ids are kept; scores never decrease and rise by at most one point in total; paddles in the field stay there and a ball at game speed keeps it; the result log only grows, by at most one row |
| Physics.CheckScoreKeepsConsistent | game-service/src/logic/game-logic/Game.ts:143-161 | scoring an unfinished consistent game never passes the winning score and finishes it exactly when a player reaches it, with its one result |
| Physics.StepKeepsConsistent | game-service/src/logic/game-logic/Game.ts:163-171 | one `updateGame` keeps a game consistent |
| Physics.FinishedHasStrictWinner | game-service/src/logic/game-logic/Game.ts:143-161 | a finished consistent game has unequal scores, and its stored row names the higher scorer as winner |
| Physics.RunKeepsConsistent | game-service/src/logic/game-logic/Game.ts:163-171 | any number of ticks keeps a game consistent |
| Physics.RunIsMonotone | game-service/src/logic/game-logic/Game.ts:143-171 | over any run, scores never decrease and rise by at most one point per tick; a finished game never changes; the result log only grows; ids are kept |
| Physics.FinishedNeverReverts | game-service/src/logic/game-logic/Game.ts:163-164 | once a prefix of a run has finished the game, the whole run ends finished in that same state |
| Physics.PlayedGameIsConsistent | game-service/src/logic/game-logic/Game.ts:28-36 | every game that is built and ticked is consistent and, once finished, has stored exactly one result |
| GameLogic.Steered | game-service/src/logic/game-logic/Game.ts:98-125 | a setter keeps the paddle's position; Up sets only up, Down sets only down, Stop clears both, so the two flags are never both set |
| GameLogic.Paddle.constructor | game-service/src/logic/game-logic/Paddle.ts:13-16 | a paddle at the given position with both flags clear |
| GameLogic.Paddle.Move | game-service/src/logic/game-logic/Paddle.ts:18-26 | the paddle's fields become MovePaddle of the old ones, so the paddle ends in the field |
| GameLogic.Paddle.SetUp | game-service/src/logic/game-logic/Paddle.ts:28-30 | only the up flag changes, to the given value |
| GameLogic.Paddle.SetDown | game-service/src/logic/game-logic/Paddle.ts:32-34 | only the down flag changes, to the given value |
| GameLogic.Ball.constructor | game-service/src/logic/game-logic/Ball.ts:10-20 | the ball's fields are Launch(x, y, speed, heading) |
| GameLogic.Ball.Move | game-service/src/logic/game-logic/Ball.ts:22-25 | the fields become MoveBall of the old ones; the velocity is unchanged |
| GameLogic.Ball.Reset | game-service/src/logic/game-logic/Ball.ts:27-37 | the fields become ResetBall(heading): centre position, game speed |
| GameLogic.Game.constructor | game-service/src/logic/game-logic/Game.ts:28-36 | the new game's state is NewGame(firstId, secondId, heading), with three fresh parts |
| GameLogic.Game.SetFirstPaddleUp | game-service/src/logic/game-logic/Game.ts:98-101 | paddle one has up set and down cleared; nothing else in the game changes |
| GameLogic.Game.SetSecondPaddleUp | game-service/src/logic/game-logic/Game.ts:102-105 | paddle two has up set and down cleared; nothing else in the game changes |
| GameLogic.Game.SetFirstPaddleDown | game-service/src/logic/game-logic/Game.ts:107-110 | paddle one has down set and up cleared; nothing else in the game changes |
| GameLogic.Game.SetSecondPaddleDown | game-service/src/logic/game-logic/Game.ts:112-115 | paddle two has down set and up cleared; nothing else in the game changes |
| GameLogic.Game.SetSecondPaddleNeutral | game-service/src/logic/game-logic/Game.ts:117-120 | paddle two has both flags cleared; nothing else in the game changes |
| GameLogic.Game.SetFirstPaddleNeutral | game-service/src/logic/game-logic/Game.ts:122-125 | paddle one has both flags cleared; nothing else in the game changes |
| GameLogic.Game.HandleCollision | game-service/src/logic/game-logic/Game.ts:42-96 | the ball's fields become Collide of the old ball and the paddles; only the ball changes, and its speed magnitudes are kept |
| GameLogic.Game.BounceOffPaddleOne | game-service/src/logic/game-logic/Game.ts:43-67 | the ball's fields become BounceOffLeft of the old ball and paddle one |
| GameLogic.Game.BounceOffPaddleTwo | game-service/src/logic/game-logic/Game.ts:69-87 | the ball's fields become BounceOffRight of the old ball and paddle two |
| GameLogic.Game.BounceOffWallsOfField | game-service/src/logic/game-logic/Game.ts:89-95 | the ball's fields become BounceOffWalls of the old ball |
| GameLogic.Game.CheckScore | game-service/src/logic/game-logic/Game.ts:143-161 | the game's state becomes Physics.CheckScore of the old state, and an unfinished valid game stays valid |
| GameLogic.Game.UpdateGame | game-service/src/logic/game-logic/Game.ts:163-171 | the game's state becomes Step of the old state, and it stays valid; the result is the new finished flag; a finished game returns true and is unchanged |
| Shared.ParseDirection | game-service/src/core/tournament_service.ts:206-208 | exactly "UP", "DOWN" and "STOP" are directions, each mapped to its own command |
| Shared.IdToString | game-service/src/core/tournament_service.ts:29 | the text of an id is never empty, so it always counts as present in a slot |
| Shared.NatToStringUnsigned | game-service/src/core/tournament_service.ts:29 | the decimal text of a natural number never starts with a minus sign |
| Shared.IdToStringRoundTrip | game-service/src/core/tournament_service.ts:29 | reading back the text of any id gives that id again |
| Shared.IdToStringInjective | game-service/src/core/tournament_service.ts:45 | two ids have the same text exactly when they are equal, so the registry and slots, keyed by that text, never confuse two players |
| Shared.ScoreWinner | game-service/src/core/tournament_service.ts:124-131 | the strictly higher scorer wins, and equal scores give the tie value |
| TournamentLogic.Tournament.constructor | game-service/src/logic/tournament-logic/tournament.ts:14-24 | a valid bracket in the waiting stage, with only slot 1 filled and no winners; previousWinner is the given one, or "Chuck Norris" when none is given |
| TournamentLogic.Tournament.Join | game-service/src/logic/tournament-logic/tournament.ts:31-56 | outside waiting, the result is "Tournament is not in waiting state"; for a player already in a slot, "Player already in tournamnet"; a refusal changes nothing; otherwise the first empty slot among 2, 3 and 4 is filled, and only filling slot 4 starts semifinal 1; validity (waiting ⇔ slot 4 empty, distinct slots) is kept |
| TournamentLogic.SeatFirstEmpty | game-service/src/logic/tournament-logic/tournament.ts:47-55 | the first empty slot among 2, 3 and 4 takes the player, and every other slot is kept |
| TournamentLogic.Tournament.GetCurrentMatch | game-service/src/logic/tournament-logic/tournament.ts:60-98 | none in waiting or completed; (slot 1, slot 2, "Semifinal 1"); (slot 3, slot 4, "Semifinal 2"); (semifinal 1 winner, semifinal 2 winner, "Final") |
| TournamentLogic.Tournament.GetTournamentInfo | game-service/src/logic/tournament-logic/tournament.ts:100-128 | reports the status, the previous winner and the players; semifinal 1 is slots 1–2 with its winner, semifinal 2 is slots 3–4 with its winner, and the final is played between the two semifinal winners, with the final winner |
| TournamentLogic.Tournament.RecordWinner | game-service/src/logic/tournament-logic/tournament.ts:133-159 | exactly one stage forward, writing only that stage's winner, with the winner not checked; in waiting or completed, "Error in recordWinner()" and nothing changes; validity is kept |
| TournamentLogic.Tournament.IsComplete | game-service/src/logic/tournament-logic/tournament.ts:161-163 | true exactly in the completed stage, and then a winner is known |
| TournamentLogic.Tournament.GetWinner | game-service/src/logic/tournament-logic/tournament.ts:165-170 | the final's winner when completed, otherwise none |
| TournamentLogic.Tournament.GetPlayers | game-service/src/logic/tournament-logic/tournament.ts:176-185 | at most four names; the result is exactly `Filled` of the four slots (each filled, non-empty slot listed once, in slot order, empty ones skipped); a name is listed iff some slot holds it; slot 1 comes first, and each present slot's player comes before the player of any later present slot |
| TournamentLogic.FilledKeepsOrder | game-service/src/logic/tournament-logic/tournament.ts:176-185 | listing the present slots keeps slot order: a present slot's player comes before that of any later present slot |
| TournamentLogic.Tournament.IsFull | game-service/src/logic/tournament-logic/tournament.ts:187-194 | all four slots are filled; for a valid bracket, exactly when it has left waiting |
| TournamentLogic.Tournament.Reset | game-service/src/logic/tournament-logic/tournament.ts:196-206 | the final's winner becomes the previous winner, and the bracket returns to the waiting shape around the new slot 1 |
| TournamentServiceCore.RegisteringKeeps | game-service/src/core/tournament_service.ts:52-53 | registering a player under the text of its id keeps every slot registered and registers the player's own slot |
| TournamentServiceCore.TournamentService.constructor | game-service/src/core/tournament_service.ts:17-22 | no bracket, no current game, an empty registry and no previous winner |
| TournamentServiceCore.TournamentService.CreateTournament | game-service/src/core/tournament_service.ts:24-38 | while an uncompleted bracket exists, "Tournament already active" and nothing changes; otherwise a fresh bracket with the creator in slot 1, seeded with the previous winner's name, a registry holding only the creator, and no current game |
| TournamentServiceCore.TournamentService.JoinTournament | game-service/src/core/tournament_service.ts:40-61 | may change only the service and the bracket, so the current game is never touched; with no bracket, "No active tournament"; a rejoin returns the bracket info with the service and bracket unchanged; outside waiting, the bracket's refusal with the service and bracket unchanged; otherwise the player takes the first empty slot among 2, 3 and 4 with the other slots, the bracket's previous winner and the stage kept (only the fourth join starts semifinal 1), and is registered; the service's previous-winner name is always kept; the join that fills the bracket creates exactly one new unstarted "Semifinal 1" game between slots 1 and 2 |
| TournamentServiceCore.TournamentService.Seat | game-service/src/core/tournament_service.ts:52-58 | for a player not yet in the bracket: outside waiting, the refusal with the service and bracket unchanged; otherwise the first empty slot among 2, 3 and 4 takes the player, who is registered, and the join that fills the bracket builds a new unstarted "Semifinal 1" game between slots 1 and 2 from the given heading |
| TournamentServiceCore.TournamentService.AddPlayer | game-service/src/core/tournament_service.ts:52-53 | the bracket seats the new player in the first empty slot among 2, 3 and 4, keeping the other slots and the previous winner, and only the fourth join starts semifinal 1; the registry records the player under the text of its id; outside waiting, refused with nothing changed |
| TournamentServiceCore.TournamentService.Register | game-service/src/core/tournament_service.ts:53 | only the registry changes, by the one entry, and every slot is then registered |
| TournamentServiceCore.TournamentService.StartNextMatch | game-service/src/core/tournament_service.ts:63-94 | with no bracket, a current game, or no stage being played, nothing changes; otherwise the current game becomes a new unstarted game of the stage's pairing, between the registered players |
| TournamentServiceCore.TournamentService.BuildMatch | game-service/src/core/tournament_service.ts:70-89 | the current game is a new unstarted game with the pairing's match type and registered players |
| TournamentServiceCore.TournamentService.CountdownElapsed | game-service/src/core/tournament_service.ts:95-99 | the game starts only if it is still the current one; otherwise nothing changes |
| TournamentServiceCore.TournamentService.Tick | game-service/src/core/tournament_service.ts:101-108 | a tick of a current, started game steps it once; a step that does not finish the game leaves the current match, the bracket and the previous-winner name unchanged; a game that is not current or not started is untouched; the registry is kept; when the step finishes the game, the stage is won by the score winner (a tie goes to player one) as StageWon states: one stage on, only that stage's winner written, slots kept; after the final the champion's registered name (or raw id) becomes the previous winner and no game is current; after a semifinal the next stage's game is a new unstarted game of its pairing |
| TournamentServiceCore.TournamentService.StepCurrent | game-service/src/core/tournament_service.ts:102 | the current game's state becomes Step of its old state; the bracket is untouched |
| TournamentServiceCore.TournamentService.HandleMatchComplete | game-service/src/core/tournament_service.ts:117-156 | the higher scorer wins, and a tie goes to player one; the bracket moves one stage on, writes only that stage's winner and keeps its slots; after the final the champion's registered name, or else its raw id, becomes the previous winner of service and bracket, and no game is current; after a semifinal the previous winner is kept and the current game is a new, unstarted game of the next pairing between its registered players |
| TournamentServiceCore.TournamentService.ConcludeStage | game-service/src/core/tournament_service.ts:137-155 | a completed bracket crowns its champion and leaves no game current; otherwise the previous winner is kept and the current game is a new, unstarted game of the next stage's pairing between its registered players; the bracket's stage, slots and winners are untouched |
| TournamentServiceCore.TournamentService.AdvanceBracket | game-service/src/core/tournament_service.ts:133 | the stage being played records the given winner and the bracket advances one stage; the slots, the other stages' winners and the previous winner are kept |
| TournamentServiceCore.TournamentService.CrownChampion | game-service/src/core/tournament_service.ts:144-148 | the champion's registered name, or else its raw id, becomes the previous winner of the service and of the bracket |
| TournamentServiceCore.TournamentService.GetStatus | game-service/src/core/tournament_service.ts:158-196 | "no_tournament" exactly when there is no bracket; otherwise the bracket info, and a live view exactly when a game is current, reported running exactly when started, with its match type, both players' ids, names and paddle heights, the ball position and the scores |
| TournamentServiceCore.TournamentService.ApplyMove | game-service/src/core/tournament_service.ts:202-225 | checked in order: no current game, not started, a direction other than UP/DOWN/STOP, a caller who is neither player; a refusal changes nothing; a valid direction from either player of the started game always succeeds and sets only the caller's paddle flags; the game's other fields, its ball, the other paddle and the bracket are unchanged, and the service's own fields cannot change |
| Matchmaking.PairNext | game-service/src/core/game_service.ts:30-46 | the two oldest waiting players leave the queue and sit in a new unstarted match under the next id |
| Matchmaking.PairNextKeepsInv | game-service/src/core/game_service.ts:30-46 | one pairing keeps the lobby consistent: distinct queued ids, none of them mapped, every mapped player seated in its match |
| Matchmaking.PairAllKeepsInv | game-service/src/core/game_service.ts:30-47 | the whole pairing loop keeps the lobby consistent |
| Matchmaking.PairAllLeavesOne | game-service/src/core/game_service.ts:30 | the loop stops with fewer than two waiting, the youngest odd player left over, and one id used per pair |
| Matchmaking.PairAllIsFifo | game-service/src/core/game_service.ts:30-46 | existing matches are kept, and the k-th new match seats the (2k)-th and (2k+1)-th oldest waiting players: first in, first out |
| Matchmaking.PairAllMapsPlayers | game-service/src/core/game_service.ts:45-46 | both players of every new match are mapped to it, and earlier mappings are kept |
| Matchmaking.AppendKeepsInv | game-service/src/core/game_service.ts:116-118 | appending a player who is neither mapped nor waiting keeps the lobby consistent |
| Matchmaking.EnqueueKeepsInv | game-service/src/core/game_service.ts:109-120 | joining keeps the lobby consistent with at most one waiting; no id is both waiting and mapped; the joiner ends waiting or in a match |
| Matchmaking.Start | game-service/src/core/game_service.ts:51-55 | the countdown marks only that match started, if it is still active, and keeps the lobby consistent |
| Matchmaking.Retire | game-service/src/core/game_service.ts:95-97 | a finished match leaves the active set, and both of its players are unmapped |
| Matchmaking.RetireKeepsInv | game-service/src/core/game_service.ts:95-97 | retiring keeps the lobby consistent, and every other player's mapping is kept |
| Matchmaking.StatusOf | game-service/src/core/game_service.ts:123-175 | in order: a mapped match gives "starting" with both names, or "running"; a missing match gives "error"; then "waiting"; then "finished" with the retained match id; else "idle" |
| Matchmaking.StatusNeverErrs | game-service/src/core/game_service.ts:130-133 | in a consistent lobby the safety check never fires, and a queued player is reported waiting |
| Matchmaking.JoinerIsNotIdle | game-service/src/core/game_service.ts:109-175 | right after joining, a player is reported waiting, starting or running |
| Matchmaking.MoveVerdict | game-service/src/core/game_service.ts:177-220 | "no_match" without a mapping or a match, then "not_started", then "invalid_direction", then "not_in_match"; ok only for a player of a started match with a valid direction |
| Matchmaking.MoveNeverNotInMatch | game-service/src/core/game_service.ts:196-213 | in a consistent lobby "not_in_match" never happens, and a started match accepts every valid direction from either player |
| Matchmaking.ExpireEntry | game-service/src/core/game_service.ts:78-86 | a player's finished entry is removed only while it still carries the same match and finish time; nothing else is touched |
| Matchmaking.ExpireRecord | game-service/src/core/game_service.ts:89-92 | a match's finished record is removed only while it still carries the same finish time; nothing else is touched |
| Matchmaking.LaterFinishSurvives | game-service/src/core/game_service.ts:76-93 | the retention of an earlier finish never removes a player's later finish |
| Matchmaking.ActiveBelow | game-service/src/core/game_service.ts:270-283 | exactly the active matches below the counter, each once, oldest first, with both names and the started flag |
| GameServiceCore.GamesOkUpdate | game-service/src/core/game_service.ts:57-58 | replacing a game by a playable game between the same players keeps every match playable |
| GameServiceCore.GamesOkWithout | game-service/src/core/game_service.ts:95 | removing a match together with its game keeps the others playable |
| GameServiceCore.PairAllGamesIsFifo | game-service/src/core/game_service.ts:33-43 | games already running are kept, and the k-th new match gets a new game between the (2k)-th and (2k+1)-th oldest waiting players |
| GameServiceCore.GameService.constructor | game-service/src/core/game_service.ts:16-26 | empty queue and empty maps |
| GameServiceCore.GameService.PairOnce | game-service/src/core/game_service.ts:31-46 | the lobby becomes PairNext of the old one, and the new match gets a new game between its players |
| GameServiceCore.GameService.SeatPair | game-service/src/core/game_service.ts:31-46 | the two queue shifts, the new match and both mappings are exactly PairNext, under the old counter value |
| GameServiceCore.GameService.TryStartMatch | game-service/src/core/game_service.ts:29-106 | the loop's effect is PairAll of the old lobby, with at most one left waiting; the games are those PairAllGames gives; the finished maps are untouched |
| GameServiceCore.GameService.JoinQueue | game-service/src/core/game_service.ts:109-120 | a mapped player changes nothing; anyone else is appended unless already waiting, and the queue is paired off (Enqueue); the joiner ends waiting or in a match |
| GameServiceCore.GameService.CountdownElapsed | game-service/src/core/game_service.ts:51-55 | the lobby becomes Start of the old lobby: a missing match is ignored; games are untouched |
| GameServiceCore.GameService.Tick | game-service/src/core/game_service.ts:57-100 | a started match's game takes one Step; an unfinished game is stored back; a finished one retires the match, stamps both players and the match with `now`, and records the higher scorer's name as winner (a tie gives "", which a finished game never has) |
| GameServiceCore.GameService.Finish | game-service/src/core/game_service.ts:63-97 | both players and the match are stamped finished at `now` with the score winner; the match and both mappings are removed |
| GameServiceCore.GameService.RecordFinish | game-service/src/core/game_service.ts:63-74 | the per-player and per-match finished entries, with the winner always one of the two players |
| GameServiceCore.GameService.RemoveMatch | game-service/src/core/game_service.ts:95-97 | the lobby becomes Retire of the old one and the match's game is dropped |
| GameServiceCore.GameService.RetentionElapsed | game-service/src/core/game_service.ts:76-93 | each finished entry is removed only if it still carries this match and finish time (ExpireEntry, ExpireRecord) |
| GameServiceCore.GameService.GetGameStatus | game-service/src/core/game_service.ts:123-175 | the status lookup StatusOf, which never reports the safety error in a consistent service |
| GameServiceCore.GameService.GetActiveMatchIds | game-service/src/core/game_service.ts:270-283 | oldest first, each entry an active match with its names and started flag, and exactly the active matches in a consistent service |
| GameServiceCore.GameService.GetGameState | game-service/src/core/game_service.ts:222-268 | a snapshot exactly for an active match (running exactly when started, with paddles, ball and scores); otherwise the retained finish with its winner; otherwise "no_match" |
| GameServiceCore.GameService.ApplyMove | game-service/src/core/game_service.ts:177-220 | the answer is MoveVerdict of the lobby; a refusal changes no game; success steers only the caller's side of its game |
| GameServiceCore.GameService.SteerPaddle | game-service/src/core/game_service.ts:196-213 | the chosen paddle of one game takes the direction, and nothing else changes |
| ProfileUtils.Lower | frontend/src/pages/profile/utils.ts:3 | ASCII letters are folded to lower case, and everything else is kept |
| ProfileUtils.LowerAll | frontend/src/pages/profile/utils.ts:3 | the folded text has the same length, and each character is folded on its own |
| ProfileUtils.MatchesAny | frontend/src/pages/profile/utils.ts:3 | the alternation succeeds exactly when some alternative ends the URL after a dot |
| ProfileUtils.IsValidImageUrl | frontend/src/pages/profile/utils.ts:2-4 | true exactly when the URL ends with "." and one of jpg, jpeg, png, gif, webp, bmp, in any case |
| ProfileUtils.CaseIsIgnored | frontend/src/pages/profile/utils.ts:3 | a URL and its lower-case spelling are judged alike |
| ProfileUtils.AnyPrefixIsAllowed | frontend/src/pages/profile/utils.ts:3 | any text may precede an accepted name |
| ProfileUtils.ExtensionIsAtTheEnd | frontend/src/pages/profile/utils.ts:3 | an accepted URL ends in g, f or p, in either case, so nothing may follow the extension |
| ProfileUtils.DotIsRequired | frontend/src/pages/profile/utils.ts:3 | an accepted URL contains the dot that opens its extension |
| ProfileUtils.UpperCaseIsAccepted | frontend/src/pages/profile/utils.ts:3 | "a.PNG", "a.JpEg" and ".gif" are accepted |
| ProfileUtils.MissingDotOrTrailingTextIsRejected | frontend/src/pages/profile/utils.ts:3 | "apng" and "a.png?x=1" are rejected |

## Left out

- Timers: the 5 s countdown, the 16 ms tick and the 15 s retention are event methods, each run to completion. Wall-clock time, interval handles and `clearInterval` are not modelled. A tick event is a no-op where no interval would be running.
- Randomness: `Math.random` ball directions are `Heading` parameters, and `crypto.randomUUID` match ids are a counter. A larger id is a later match, which gives the creation order of `getActiveMatchIds`.
- `Date.now()` is the parameter `now` of the queue's tick event.
- Floating point: positions and speeds are exact reals. No numeric trajectory is claimed.
- The result store: the database row of `insertGame.run` is modelled as an append to the game's ghost `results` log.
- Logging (`log.info`, `log.error`) is not modelled.
- The HTTP routes, schemas, the auth service and the rest of the front end are not part of this model.
- The constants module is not part of this model. Its values are arbitrary positive constants.
- GameServiceCore.GameService: a match wrapper is split into its seats (`matches`) and the state of its game (`games`). The `Game` object of each match is replaced by its `GameState` value, changed by the same `NewGame`, `Step` and `Steered` functions the `GameLogic.Game` methods are proved to perform. Aliasing of a `Game` object between the map and a running timer is therefore not modelled.
- GameServiceCore.GameService.RetentionElapsed: its event carries the two player ids and the finish time that the timer closure captured.
- The JavaScript truthiness tests on match ids (`if (matchId)`) are modelled as "is mapped", because a UUID string is never falsy.
- TournamentServiceCore.TournamentService.HandleMatchComplete takes the finished game's scores and ids rather than the `Game` object. Those are the only values the handler reads.
- TournamentServiceCore.TournamentService.Tick: when the game finishes, the contract states the bracket's advance and the recorded winner from the stepped game's state, but not the final field values of the finished `Game` object. That object is no longer referenced by the service.
- The null-winner guard in `handleMatchComplete` (tournament_service.ts:139-143) is not modelled as a branch. A completed valid bracket always has a final winner (`Tournament.IsComplete` ensures it), so the guard cannot fire.
- The `!this.activeTournament` guard at the start of `handleMatchComplete` is a precondition. The tick that calls it only runs while a bracket is being played.
- `Tournament.join`'s "Player already in tournamnet" refusal cannot be reached from `joinTournament`, which returns early for a player already in the bracket. `AddPlayer` requires the player not to be seated, and `Tournament.Join` models the refusal itself.
- `getPlayers` follows JavaScript truthiness: an empty-string slot is not listed. Ids written by the service are never empty.
- `Tournament.getPreviousWinner`, `TournamentService.getCurrentMatch`, `Game.getGameStatus` and the score and id getters only return fields. They are read as fields.
- The queue's `applyMove` refuses an unknown direction before it checks that the caller plays in the match (game_service.ts:196-216). `MoveVerdict` keeps that order.
- ProfileUtils.IsValidImageUrl: the `/i` flag is modelled as ASCII case folding. For a pattern made of ASCII letters without the unicode flag, this is the folding JavaScript applies.
