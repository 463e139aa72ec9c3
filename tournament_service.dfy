/** The tournament orchestrator: at most one bracket at a time, the players'
    registered names, and the one game being played for the current stage.
    The countdown and tick timers of the engine are the event methods
    `CountdownElapsed` and `Tick`; each runs to completion before the next. */
module TournamentServiceCore {
  import opened Physics
  import opened Shared
  import opened GameLogic
  import opened TournamentLogic

  const ALREADY_ACTIVE: string := "Tournament already active"
  const NO_ACTIVE_TOURNAMENT: string := "No active tournament"

  /** A player's registered id and name. */
  datatype Registered = Registered(id: int, username: string)

  /** The game being played for the current stage. */
  datatype TournamentMatch = TournamentMatch(
    matchType: string,
    p1Id: int, p2Id: int,
    p1Username: string, p2Username: string,
    game: Game,
    started: bool)

  datatype PlayerView = PlayerView(userId: int, username: string, y: real)

  /** The live view of the current game inside the service status. */
  datatype MatchView = MatchView(
    running: bool, matchType: string,
    left: PlayerView, right: PlayerView,
    ballX: real, ballY: real,
    leftScore: nat, rightScore: nat)

  datatype ServiceStatus =
    | NoTournament
    | Bracket(info: TournamentInfo, currentMatch: Option<MatchView>)

  /** The stages in which a game is being played. */
  predicate Playing(s: Stage) {
    s == Semifinal1 || s == Semifinal2 || s == Final
  }

  /** Each recorded winner played the stage it won. */
  ghost predicate WinnersFromSlots(t: Tournament)
    reads t
  {
    && (t.semifinal1Winner.Some? ==> t.semifinal1Winner == t.player1 || t.semifinal1Winner == t.player2)
    && (t.semifinal2Winner.Some? ==> t.semifinal2Winner == t.player3 || t.semifinal2Winner == t.player4)
    && (t.finalWinner.Some? ==> t.finalWinner == t.semifinal1Winner || t.finalWinner == t.semifinal2Winner)
  }

  /** A filled slot's player is registered under the text of its id. */
  predicate Registers(registry: map<string, Registered>, slot: Option<string>) {
    slot.Some? ==> slot.value in registry && IdToString(registry[slot.value].id) == slot.value
  }

  /** Registering a player under the text of its id keeps every slot
      registered and registers the player's own slot. */
  lemma RegisteringKeeps(registry: map<string, Registered>, slot: Option<string>, key: string, entry: Registered)
    requires IdToString(entry.id) == key
    requires Registers(registry, slot) || slot == Some(key)
    ensures Registers(registry[key := entry], slot)
  {
  }

  /** The name the champion is remembered by: its registered username, or
      else its raw id. */
  function NameOf(registry: map<string, Registered>, playerId: string): string {
    if playerId in registry then registry[playerId].username else playerId
  }

  /** What a finished stage changes: the bracket's stage, slots and winners,
      the bracket's previous winner and the service's previous-winner name. */
  datatype Standing = Standing(
    status: Stage, slots: seq<Option<string>>,
    semifinal1Winner: Option<string>, semifinal2Winner: Option<string>, finalWinner: Option<string>,
    bracketPrevious: Option<string>, previousWinnerName: Option<string>)

  class TournamentService {
    var activeTournament: Tournament?
    var currentMatch: Option<TournamentMatch>
    var playerRegistry: map<string, Registered>
    var previousWinnerName: Option<string>

    /** The bracket object, when there is one. */
    ghost function BracketRepr(): set<object>
      reads this`activeTournament
    {
      if activeTournament != null then {activeTournament} else {}
    }

    ghost function Repr(): set<object>
      reads this
    {
      BracketRepr() + (if currentMatch.Some? then currentMatch.value.game.Repr() else {})
    }

    /** The bracket is valid, every filled slot is registered, and every
        recorded winner played the stage it won. */
    ghost predicate Core()
      reads this`activeTournament, this`playerRegistry, BracketRepr()
    {
      activeTournament != null ==>
        && activeTournament.Valid()
        && Registers(playerRegistry, activeTournament.player1) && Registers(playerRegistry, activeTournament.player2)
        && Registers(playerRegistry, activeTournament.player3) && Registers(playerRegistry, activeTournament.player4)
        && WinnersFromSlots(activeTournament)
    }

    /** The current game, if any, is an unfinished valid game between the
        registered players of the stage being played. */
    ghost predicate MatchInv()
      reads this, BracketRepr(), Repr()
      requires Core()
    {
      currentMatch.Some? ==>
        var m := currentMatch.value;
        && activeTournament != null
        && Playing(activeTournament.status)
        && var p := activeTournament.GetCurrentMatch().value;
        && p.player1 in playerRegistry && p.player2 in playerRegistry
        && playerRegistry[p.player1] == Registered(m.p1Id, m.p1Username)
        && playerRegistry[p.player2] == Registered(m.p2Id, m.p2Username)
        && IdToString(m.p1Id) == p.player1 && IdToString(m.p2Id) == p.player2
        && m.matchType == p.matchType
        && m.game.Valid() && !m.game.finished
        && m.game.playerOneId == m.p1Id && m.game.playerTwoId == m.p2Id
    }

    /** The current game is a new, unstarted game of the stage being played,
        between that stage's registered players, launched in the direction `h`. */
    ghost predicate FreshStageGame(h: Heading)
      reads this, BracketRepr(), Repr()
    {
      && activeTournament != null && activeTournament.Valid() && Playing(activeTournament.status)
      && currentMatch.Some?
      && var m := currentMatch.value;
      && var p := activeTournament.GetCurrentMatch().value;
      && !m.started && m.matchType == p.matchType
      && IdToString(m.p1Id) == p.player1 && IdToString(m.p2Id) == p.player2
      && m.game.State() == NewGame(m.p1Id, m.p2Id, h)
    }

    ghost function Snapshot(): Standing
      reads this, BracketRepr()
      requires activeTournament != null
    {
      var t := activeTournament;
      Standing(t.status, t.Slots(), t.semifinal1Winner, t.semifinal2Winner, t.finalWinner,
               t.previousWinner, previousWinnerName)
    }

    /** The stage being played in `was` has been won by `winner`: the bracket
        moved one stage on, recorded `winner` for that stage only and kept its
        slots; after the final the champion's registered name (or raw id)
        became the previous winner and no game is current; after a semifinal
        the next stage's game is current, new and unstarted, launched in the
        direction `h`, and the previous winner is kept. */
    ghost predicate StageWon(was: Standing, winner: string, h: Heading)
      reads this, BracketRepr(), Repr()
    {
      && activeTournament != null
      && var t := activeTournament;
      && Rank(t.status) == Rank(was.status) + 1
      && t.Slots() == was.slots
      && t.semifinal1Winner == (if was.status == Semifinal1 then Some(winner) else was.semifinal1Winner)
      && t.semifinal2Winner == (if was.status == Semifinal2 then Some(winner) else was.semifinal2Winner)
      && t.finalWinner == (if was.status == Final then Some(winner) else was.finalWinner)
      && (was.status == Final ==>
            && previousWinnerName == Some(NameOf(playerRegistry, winner))
            && t.previousWinner == previousWinnerName
            && currentMatch.None?)
      && (was.status != Final ==>
            && previousWinnerName == was.previousWinnerName
            && t.previousWinner == was.bracketPrevious
            && FreshStageGame(h))
    }

    ghost predicate Valid()
      reads this, Repr()
    {
      && Core()
      && MatchInv()
      && (currentMatch.Some? <==> activeTournament != null && Playing(activeTournament.status))
    }

    constructor ()
      ensures Valid()
      ensures activeTournament == null && currentMatch.None?
      ensures playerRegistry == map[] && previousWinnerName.None?
    {
      activeTournament := null;
      currentMatch := None;
      playerRegistry := map[];
      previousWinnerName := None;
    }

    /** Opens a new bracket with the creator in slot 1 and only the creator
        registered; refused, with nothing changed, while an uncompleted bracket
        exists. */
    method CreateTournament(userId: int, username: string) returns (r: Result<Tournament>)
      requires Valid()
      modifies this
      ensures Valid()
      ensures old(activeTournament) != null && old(activeTournament.status) != Completed ==>
        r == Err(ALREADY_ACTIVE) && unchanged(this)
      ensures r.Ok? <==> old(activeTournament) == null || old(activeTournament.status) == Completed
      ensures r.Ok? ==>
        && fresh(r.value) && activeTournament == r.value
        && playerRegistry == map[IdToString(userId) := Registered(userId, username)]
        && currentMatch.None? && previousWinnerName == old(previousWinnerName)
        && r.value.status == Waiting && r.value.player1 == Some(IdToString(userId))
        && r.value.player2.None? && r.value.player3.None? && r.value.player4.None?
        && r.value.previousWinner ==
             (if previousWinnerName.Some? then previousWinnerName else Some(DEFAULT_PREVIOUS_WINNER))
    {
      if activeTournament != null && !activeTournament.IsComplete() {
        return Err(ALREADY_ACTIVE);
      }
      var playerId := IdToString(userId);
      playerRegistry := map[playerId := Registered(userId, username)];
      var t := new Tournament(playerId, previousWinnerName);
      activeTournament := t;
      currentMatch := None;
      return Ok(t);
    }

    /** Adds a player to the open bracket and starts semifinal 1 when the
        bracket fills. Rejoining returns the bracket unchanged. */
    method JoinTournament(userId: int, username: string, h: Heading) returns (r: Result<TournamentInfo>)
      requires Valid()
      modifies this, BracketRepr()
      ensures Valid()
      ensures activeTournament == old(activeTournament) && previousWinnerName == old(previousWinnerName)
      ensures old(activeTournament) == null ==> r == Err(NO_ACTIVE_TOURNAMENT) && unchanged(this)
      ensures r.Ok? ==> r.value == activeTournament.GetTournamentInfo()
      ensures old(activeTournament) != null && IdToString(userId) in old(activeTournament.GetPlayers()) ==>
        r.Ok? && unchanged(this) && unchanged(activeTournament)
      ensures old(activeTournament) != null && IdToString(userId) !in old(activeTournament.GetPlayers())
              && old(activeTournament.status) != Waiting ==>
        r == Err(NOT_WAITING) && unchanged(this) && unchanged(activeTournament)
      ensures old(activeTournament) != null && IdToString(userId) !in old(activeTournament.GetPlayers())
              && old(activeTournament.status) == Waiting ==>
        && r.Ok?
        && playerRegistry == old(playerRegistry)[IdToString(userId) := Registered(userId, username)]
        && activeTournament.Slots() == SeatFirstEmpty(old(activeTournament.Slots()), IdToString(userId))
        && activeTournament.status == (if old(activeTournament.player3).Some? then Semifinal1 else Waiting)
        && activeTournament.previousWinner == old(activeTournament.previousWinner)
      ensures old(currentMatch).None? && currentMatch.Some? ==> FirstGame(h) && fresh(currentMatch.value.game)
    {
      if activeTournament == null {
        return Err(NO_ACTIVE_TOURNAMENT);
      }
      var playerId := IdToString(userId);
      if playerId in activeTournament.GetPlayers() {
        return Ok(activeTournament.GetTournamentInfo());
      }
      r := Seat(userId, username, h);
    }

    /** Semifinal 1's game has just been built from `h`: unstarted, between
        slots 1 and 2. */
    ghost predicate FirstGame(h: Heading)
      reads this, BracketRepr(), Repr()
    {
      && activeTournament != null && currentMatch.Some?
      && activeTournament.status == Semifinal1
      && var m := currentMatch.value;
      && !m.started && m.matchType == "Semifinal 1"
      && Some(IdToString(m.p1Id)) == activeTournament.player1
      && Some(IdToString(m.p2Id)) == activeTournament.player2
      && m.game.State() == NewGame(m.p1Id, m.p2Id, h)
    }

    /** The seating half of joining, for a player not yet in the bracket. */
    method Seat(userId: int, username: string, h: Heading) returns (r: Result<TournamentInfo>)
      requires Valid() && activeTournament != null
      requires IdToString(userId) !in activeTournament.GetPlayers()
      modifies this, activeTournament
      ensures Valid()
      ensures activeTournament == old(activeTournament) && previousWinnerName == old(previousWinnerName)
      ensures r.Ok? ==> r.value == activeTournament.GetTournamentInfo()
      ensures old(activeTournament.status) != Waiting ==>
        r == Err(NOT_WAITING) && unchanged(this) && unchanged(activeTournament)
      ensures old(activeTournament.status) == Waiting ==>
        && r.Ok?
        && playerRegistry == old(playerRegistry)[IdToString(userId) := Registered(userId, username)]
        && activeTournament.Slots() == SeatFirstEmpty(old(activeTournament.Slots()), IdToString(userId))
        && activeTournament.status == (if old(activeTournament.player3).Some? then Semifinal1 else Waiting)
        && activeTournament.previousWinner == old(activeTournament.previousWinner)
      ensures old(currentMatch).None? && currentMatch.Some? ==> FirstGame(h) && fresh(currentMatch.value.game)
    {
      var joined := AddPlayer(userId, username);
      if joined.Fail? {
        return Err(joined.message);
      }
      if activeTournament.status == Semifinal1 && currentMatch.None? {
        StartNextMatch(h);
      }
      return Ok(activeTournament.GetTournamentInfo());
    }

    /** The bracket takes a player not yet in it, and the player is registered;
        refused, with nothing changed, once the bracket has left the waiting stage. */
    method AddPlayer(userId: int, username: string) returns (r: Outcome)
      requires Valid() && activeTournament != null
      requires Some(IdToString(userId)) !in activeTournament.Slots()
      modifies this, activeTournament
      ensures Core() && MatchInv()
      ensures activeTournament == old(activeTournament) && currentMatch.None? == old(currentMatch).None?
      ensures previousWinnerName == old(previousWinnerName)
      ensures r.Fail? <==> old(activeTournament.status) != Waiting
      ensures r.Fail? ==> r == Fail(NOT_WAITING) && unchanged(this) && unchanged(activeTournament)
      ensures r.Pass? ==>
        && currentMatch.None?
        && playerRegistry == old(playerRegistry)[IdToString(userId) := Registered(userId, username)]
        && Some(IdToString(userId)) in activeTournament.Slots()
        && activeTournament.Slots() == SeatFirstEmpty(old(activeTournament.Slots()), IdToString(userId))
        && activeTournament.status == (if old(activeTournament.player3).Some? then Semifinal1 else Waiting)
        && activeTournament.previousWinner == old(activeTournament.previousWinner)
    {
      var playerId := IdToString(userId);
      r := activeTournament.Join(playerId);
      if r.Fail? {
        return;
      }
      Register(playerId, Registered(userId, username));
    }

    /** Registers the player who has just taken a slot of the waiting
        bracket; every other slot was registered already. */
    method Register(playerId: string, entry: Registered)
      requires activeTournament != null && activeTournament.Valid() && WinnersFromSlots(activeTournament)
      requires Rank(activeTournament.status) < 2 && currentMatch.None?
      requires IdToString(entry.id) == playerId
      requires Registers(playerRegistry, activeTournament.player1) || activeTournament.player1 == Some(playerId)
      requires Registers(playerRegistry, activeTournament.player2) || activeTournament.player2 == Some(playerId)
      requires Registers(playerRegistry, activeTournament.player3) || activeTournament.player3 == Some(playerId)
      requires Registers(playerRegistry, activeTournament.player4) || activeTournament.player4 == Some(playerId)
      modifies this`playerRegistry
      ensures Core() && MatchInv()
      ensures playerRegistry == old(playerRegistry)[playerId := entry]
    {
      var t := activeTournament;
      RegisteringKeeps(playerRegistry, t.player1, playerId, entry);
      RegisteringKeeps(playerRegistry, t.player2, playerId, entry);
      RegisteringKeeps(playerRegistry, t.player3, playerId, entry);
      RegisteringKeeps(playerRegistry, t.player4, playerId, entry);
      playerRegistry := playerRegistry[playerId := entry];
    }

    /** Builds the game of the stage being played between its registered
        players, waiting for its countdown. */
    method StartNextMatch(h: Heading)
      requires Core() && MatchInv()
      modifies this`currentMatch
      ensures Core() && MatchInv()
      ensures activeTournament == old(activeTournament) && playerRegistry == old(playerRegistry)
      ensures previousWinnerName == old(previousWinnerName)
      ensures old(currentMatch).Some? || activeTournament == null || !Playing(activeTournament.status) ==>
        currentMatch == old(currentMatch)
      ensures old(currentMatch).None? && activeTournament != null && Playing(activeTournament.status) ==>
        && currentMatch.Some?
        && var m := currentMatch.value;
        && var p := activeTournament.GetCurrentMatch().value;
        && !m.started && fresh(m.game) && m.matchType == p.matchType
        && IdToString(m.p1Id) == p.player1 && IdToString(m.p2Id) == p.player2
        && m.game.State() == NewGame(m.p1Id, m.p2Id, h)
    {
      if activeTournament == null {
        return;
      }
      if currentMatch.Some? {
        return;
      }
      var pairing := activeTournament.GetCurrentMatch();
      if pairing.None? {
        return;
      }
      var next := pairing.value;
      if next.player1 !in playerRegistry || next.player2 !in playerRegistry {
        return;
      }
      BuildMatch(next, h);
    }

    /** Makes the game of the pairing `next` of the stage being played the
        current one, between the pairing's registered players. */
    method BuildMatch(next: Pairing, h: Heading)
      requires Core() && currentMatch.None? && activeTournament != null
      requires activeTournament.GetCurrentMatch() == Some(next)
      requires next.player1 in playerRegistry && next.player2 in playerRegistry
      modifies this`currentMatch
      ensures Core() && MatchInv()
      ensures currentMatch.Some?
      ensures var m := currentMatch.value;
        && !m.started && fresh(m.game) && m.matchType == next.matchType
        && IdToString(m.p1Id) == next.player1 && IdToString(m.p2Id) == next.player2
        && m.game.State() == NewGame(m.p1Id, m.p2Id, h)
    {
      var p1 := playerRegistry[next.player1];
      var p2 := playerRegistry[next.player2];
      var game := new Game(p1.id, p2.id, h);
      currentMatch := Some(TournamentMatch(next.matchType, p1.id, p2.id, p1.username, p2.username, game, false));
    }

    /** The countdown of `game` ran out: the game starts only if it is still
        the current one. */
    method CountdownElapsed(game: Game)
      requires Valid()
      modifies this
      ensures Valid()
      ensures old(currentMatch).Some? && old(currentMatch).value.game == game ==>
        currentMatch == Some(old(currentMatch).value.(started := true))
      ensures old(currentMatch).None? || old(currentMatch).value.game != game ==> unchanged(this)
      ensures activeTournament == old(activeTournament) && playerRegistry == old(playerRegistry)
      ensures previousWinnerName == old(previousWinnerName)
    {
      if currentMatch.None? {
        return;
      }
      if currentMatch.value.game != game {
        return;
      }
      currentMatch := Some(currentMatch.value.(started := true));
    }

    /** One tick of the running current game. When it finishes, the stage's
        winner is recorded and the next stage's game is built from `next`. */
    method Tick(game: Game, h: Heading, next: Heading)
      requires Valid()
      modifies this, Repr()
      ensures Valid()
      ensures activeTournament == old(activeTournament) && playerRegistry == old(playerRegistry)
      ensures old(currentMatch).None? || old(currentMatch).value.game != game || !old(currentMatch).value.started ==>
        unchanged(this) && unchanged(Repr())
      ensures old(currentMatch).Some? && old(currentMatch).value.game == game && old(currentMatch).value.started ==>
        var stepped := Step(old(game.State()), h);
        && (!stepped.finished ==>
              game.State() == stepped && currentMatch == old(currentMatch)
              && previousWinnerName == old(previousWinnerName) && unchanged(activeTournament))
        && (stepped.finished ==>
              && StageWon(old(Snapshot()), ScoreWinner(stepped.oneScore, stepped.twoScore, IdToString(stepped.oneId),
                                                       IdToString(stepped.twoId), IdToString(stepped.oneId)), next)
              && (old(activeTournament.status) != Final ==> fresh(currentMatch.value.game)))
    {
      if currentMatch.None? || currentMatch.value.game != game || !currentMatch.value.started {
        return;
      }
      var done := StepCurrent(h);
      if done {
        currentMatch := None;
        HandleMatchComplete(game.playerOneScore, game.playerTwoScore, game.playerOneId, game.playerTwoId, next);
      }
    }

    /** Steps the running current game once; the bracket and the service's
        own fields are untouched. */
    method StepCurrent(h: Heading) returns (done: bool)
      requires Valid() && currentMatch.Some? && currentMatch.value.started
      modifies currentMatch.value.game.Repr()
      ensures Core()
      ensures var game := currentMatch.value.game;
        && game.State() == Step(old(game.State()), h)
        && done == game.finished
        && IdToString(game.playerOneId) == activeTournament.GetCurrentMatch().value.player1
        && IdToString(game.playerTwoId) == activeTournament.GetCurrentMatch().value.player2
      ensures !done ==> Valid()
      ensures unchanged(this) && unchanged(activeTournament)
    {
      done := currentMatch.value.game.UpdateGame(h);
    }

    /** The current stage's game is over with scores `left` and `right`
        between players `oneId` and `twoId`: the higher scorer (player one
        on a tie) wins the stage; the bracket advances, and either the next
        game is built or, when the bracket is completed, the champion's
        registered name (or raw id) becomes the previous winner. */
    method HandleMatchComplete(left: nat, right: nat, oneId: int, twoId: int, h: Heading)
      requires Core() && currentMatch.None?
      requires activeTournament != null && Playing(activeTournament.status)
      requires IdToString(oneId) == activeTournament.GetCurrentMatch().value.player1
      requires IdToString(twoId) == activeTournament.GetCurrentMatch().value.player2
      modifies this, activeTournament
      ensures Valid()
      ensures activeTournament == old(activeTournament) && playerRegistry == old(playerRegistry)
      ensures StageWon(old(Snapshot()), ScoreWinner(left, right, IdToString(oneId), IdToString(twoId), IdToString(oneId)), h)
      ensures old(activeTournament.status) != Final ==> fresh(currentMatch.value.game)
    {
      var winnerId := ScoreWinner(left, right, IdToString(oneId), IdToString(twoId), IdToString(oneId));
      AdvanceBracket(winnerId);
      currentMatch := None;
      ConcludeStage(h);
    }

    /** After a stage is recorded: a completed bracket crowns its champion,
        otherwise the next stage's game is built. */
    method ConcludeStage(h: Heading)
      requires Core() && currentMatch.None?
      requires activeTournament != null && Rank(activeTournament.status) >= 2
      modifies this, activeTournament
      ensures Valid()
      ensures activeTournament == old(activeTournament) && playerRegistry == old(playerRegistry)
      ensures activeTournament.status == old(activeTournament.status)
      ensures activeTournament.semifinal1Winner == old(activeTournament.semifinal1Winner)
      ensures activeTournament.semifinal2Winner == old(activeTournament.semifinal2Winner)
      ensures activeTournament.finalWinner == old(activeTournament.finalWinner)
      ensures activeTournament.Slots() == old(activeTournament.Slots())
      ensures activeTournament.status == Completed ==>
        && previousWinnerName == Some(NameOf(playerRegistry, activeTournament.finalWinner.value))
        && activeTournament.previousWinner == previousWinnerName
        && currentMatch.None?
      ensures activeTournament.status != Completed ==>
        && previousWinnerName == old(previousWinnerName)
        && activeTournament.previousWinner == old(activeTournament.previousWinner)
        && FreshStageGame(h) && fresh(currentMatch.value.game)
    {
      if activeTournament.IsComplete() {
        CrownChampion();
        return;
      }
      StartNextMatch(h);
    }

    /** Records `winnerId`, one of the two players of the stage being played,
        as that stage's winner, moving the bracket to the next stage. */
    method AdvanceBracket(winnerId: string)
      requires Core() && currentMatch.None?
      requires activeTournament != null && Playing(activeTournament.status)
      requires winnerId == activeTournament.GetCurrentMatch().value.player1
               || winnerId == activeTournament.GetCurrentMatch().value.player2
      modifies activeTournament
      ensures Core()
      ensures Rank(activeTournament.status) == Rank(old(activeTournament.status)) + 1
      ensures activeTournament.previousWinner == old(activeTournament.previousWinner)
      ensures activeTournament.Slots() == old(activeTournament.Slots())
      ensures activeTournament.semifinal1Winner ==
        if old(activeTournament.status) == Semifinal1 then Some(winnerId) else old(activeTournament.semifinal1Winner)
      ensures activeTournament.semifinal2Winner ==
        if old(activeTournament.status) == Semifinal2 then Some(winnerId) else old(activeTournament.semifinal2Winner)
      ensures activeTournament.finalWinner ==
        if old(activeTournament.status) == Final then Some(winnerId) else old(activeTournament.finalWinner)
    {
      var recorded := activeTournament.RecordWinner(winnerId);
    }

    /** The completed bracket's champion, by registered name or else by raw
        id, becomes the previous winner of the service and of the bracket. */
    method CrownChampion()
      requires Core() && activeTournament != null && activeTournament.status == Completed
      modifies this`previousWinnerName, activeTournament`previousWinner
      ensures Core()
      ensures previousWinnerName == Some(NameOf(playerRegistry, activeTournament.finalWinner.value))
      ensures activeTournament.previousWinner == previousWinnerName
    {
      var champion := activeTournament.GetWinner();
      var name := NameOf(playerRegistry, champion.value);
      previousWinnerName := Some(name);
      activeTournament.previousWinner := Some(name);
    }

    /** The bracket with a live view of the current game, or `no_tournament`. */
    function GetStatus(): (r: ServiceStatus)
      reads this, Repr()
      ensures activeTournament == null <==> r == NoTournament
      ensures r.Bracket? ==> r.info == activeTournament.GetTournamentInfo()
      ensures r.Bracket? ==> (r.currentMatch.Some? <==> currentMatch.Some?)
      ensures r.Bracket? && r.currentMatch.Some? ==>
        && (r.currentMatch.value.running <==> currentMatch.value.started)
        && r.currentMatch.value.matchType == currentMatch.value.matchType
        && r.currentMatch.value.left ==
             PlayerView(currentMatch.value.p1Id, currentMatch.value.p1Username, currentMatch.value.game.playerOnePaddle.y)
        && r.currentMatch.value.right ==
             PlayerView(currentMatch.value.p2Id, currentMatch.value.p2Username, currentMatch.value.game.playerTwoPaddle.y)
        && r.currentMatch.value.ballX == currentMatch.value.game.myBall.x
        && r.currentMatch.value.ballY == currentMatch.value.game.myBall.y
        && r.currentMatch.value.leftScore == currentMatch.value.game.playerOneScore
        && r.currentMatch.value.rightScore == currentMatch.value.game.playerTwoScore
    {
      if activeTournament == null then NoTournament
      else
        Bracket(activeTournament.GetTournamentInfo(),
                if currentMatch.None? then None
                else
                  var m := currentMatch.value;
                  Some(MatchView(
                    m.started, m.matchType,
                    PlayerView(m.p1Id, m.p1Username, m.game.playerOnePaddle.y),
                    PlayerView(m.p2Id, m.p2Username, m.game.playerTwoPaddle.y),
                    m.game.myBall.x, m.game.myBall.y,
                    m.game.playerOneScore, m.game.playerTwoScore)))
    }

    /** A paddle command for the current game. Checked in order: a current
        game, started, a known direction, a player of the game; only then is
        the caller's paddle steered. */
    method ApplyMove(userId: int, direction: string) returns (r: MoveResult)
      requires Valid()
      modifies Repr()
      ensures Valid()
      ensures currentMatch == old(currentMatch) && activeTournament == old(activeTournament)
      ensures currentMatch.None? ==> r == NoActiveMatch
      ensures currentMatch.Some? && !currentMatch.value.started ==> r == NotStarted
      ensures currentMatch.Some? && currentMatch.value.started && ParseDirection(direction).None? ==>
        r == InvalidDirection
      ensures currentMatch.Some? && currentMatch.value.started && ParseDirection(direction).Some?
              && userId != currentMatch.value.p1Id && userId != currentMatch.value.p2Id ==>
        r == NotInMatch
      ensures currentMatch.Some? && currentMatch.value.started && ParseDirection(direction).Some?
              && (userId == currentMatch.value.p1Id || userId == currentMatch.value.p2Id) ==>
        r == MoveOk
      ensures r != MoveOk ==> unchanged(Repr())
      ensures unchanged(BracketRepr())
      ensures r == MoveOk ==>
        var m := currentMatch.value;
        var d := ParseDirection(direction).value;
        && m.started
        && (userId == m.p1Id ==>
              m.game.playerOnePaddle.State() == Steered(old(m.game.playerOnePaddle.State()), d)
              && unchanged(m.game.playerTwoPaddle))
        && (userId != m.p1Id ==>
              userId == m.p2Id
              && m.game.playerTwoPaddle.State() == Steered(old(m.game.playerTwoPaddle.State()), d)
              && unchanged(m.game.playerOnePaddle))
        && unchanged(m.game) && unchanged(m.game.myBall)
    {
      if currentMatch.None? {
        return NoActiveMatch;
      }
      if !currentMatch.value.started {
        return NotStarted;
      }
      var d := ParseDirection(direction);
      if d.None? {
        return InvalidDirection;
      }
      var game := currentMatch.value.game;
      var isP1 := userId == currentMatch.value.p1Id;
      var isP2 := userId == currentMatch.value.p2Id;
      if !isP1 && !isP2 {
        return NotInMatch;
      }
      match d.value {
        case Up =>
          if isP1 { game.SetFirstPaddleUp(); } else { game.SetSecondPaddleUp(); }
        case Down =>
          if isP1 { game.SetFirstPaddleDown(); } else { game.SetSecondPaddleDown(); }
        case Stop =>
          if isP1 { game.SetFirstPaddleNeutral(); } else { game.SetSecondPaddleNeutral(); }
      }
      return MoveOk;
    }
  }
}
