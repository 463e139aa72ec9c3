/** The matchmaking queue's module-level state as one object: the waiting
    players, the active matches, the player-to-match map and the two maps of
    retained finishes. A match wrapper is kept as its seats (players and
    started flag, in `matches`) and the state of its game (in `games`, on the
    same ids); a game changes only as the GameLogic.Game methods are proved
    to change it (`NewGame`, `Step`, `Steered`). The countdown, tick and
    retention timers are the event methods `CountdownElapsed`, `Tick` and
    `RetentionElapsed`; each runs to completion before the next. */
module GameServiceCore {
  import opened Physics
  import opened Shared
  import opened GameLogic
  import opened Matchmaking

  /** Every active match has a game, and no game is kept without a match;
      each game is consistent, unfinished and between its two seated players. */
  predicate GamesOk(matches: map<MatchId, Seats>, games: map<MatchId, GameState>) {
    && games.Keys == matches.Keys
    && (forall id :: id in games ==>
          && Consistent(games[id]) && !games[id].finished
          && games[id].oneId == matches[id].p1.userId && games[id].twoId == matches[id].p2.userId)
  }

  /** Replacing a game by another playable game between the same players
      keeps every match playable. */
  lemma GamesOkUpdate(matches: map<MatchId, Seats>, games: map<MatchId, GameState>, id: MatchId, g: GameState)
    requires GamesOk(matches, games) && id in games
    requires Consistent(g) && !g.finished && g.oneId == games[id].oneId && g.twoId == games[id].twoId
    ensures GamesOk(matches, games[id := g])
  {
  }

  /** Removing a match together with its game keeps the others playable. */
  lemma GamesOkWithout(matches: map<MatchId, Seats>, games: map<MatchId, GameState>, id: MatchId)
    requires GamesOk(matches, games)
    ensures GamesOk(matches - {id}, games - {id})
  {
  }

  /** The games `tryStartMatch` creates while pairing off `l`: the match
      that receives id `n` gets a new game between its two players, with the
      ball launched in the direction `draw(n)`. */
  function PairAllGames(l: Lobby, games: map<MatchId, GameState>, draw: MatchId -> Heading)
    : map<MatchId, GameState>
    decreases |l.waiting|
  {
    if |l.waiting| < 2 then games
    else
      var game := NewGame(l.waiting[0].userId, l.waiting[1].userId, draw(l.nextId));
      PairAllGames(PairNext(l), games[l.nextId := game], draw)
  }

  /** Games already running are kept, and the k-th new match's game is a
      fresh game between the (2k)-th and (2k+1)-th oldest waiting players. */
  lemma {:induction false} PairAllGamesIsFifo(l: Lobby, games: map<MatchId, GameState>, draw: MatchId -> Heading)
    requires forall id :: id in games ==> id < l.nextId
    ensures forall id :: id in games ==>
      id in PairAllGames(l, games, draw) && PairAllGames(l, games, draw)[id] == games[id]
    ensures forall id :: id in PairAllGames(l, games, draw) <==>
      id in games || l.nextId <= id < l.nextId + |l.waiting| / 2
    ensures forall k :: 0 <= k < |l.waiting| / 2 ==>
      PairAllGames(l, games, draw)[l.nextId + k] ==
        NewGame(l.waiting[2 * k].userId, l.waiting[2 * k + 1].userId, draw(l.nextId + k))
    decreases |l.waiting|
  {
    if |l.waiting| >= 2 {
      var n := PairNext(l);
      var g := games[l.nextId := NewGame(l.waiting[0].userId, l.waiting[1].userId, draw(l.nextId))];
      PairAllGamesIsFifo(n, g, draw);
      assert PairAllGames(l, games, draw) == PairAllGames(n, g, draw);
      forall k | 0 <= k < |l.waiting| / 2
        ensures PairAllGames(l, games, draw)[l.nextId + k] ==
          NewGame(l.waiting[2 * k].userId, l.waiting[2 * k + 1].userId, draw(l.nextId + k))
      {
        if k > 0 {
          assert l.nextId + k == n.nextId + (k - 1);
          assert n.waiting[2 * (k - 1)] == l.waiting[2 * k];
          assert n.waiting[2 * (k - 1) + 1] == l.waiting[2 * k + 1];
        }
      }
    }
  }

  datatype SideView = SideView(username: string, y: real)

  /** What `getGameState` reports for a match id. */
  datatype GameView =
    | Snapshot(running: bool, matchId: MatchId, left: SideView, right: SideView,
               ballX: real, ballY: real, leftScore: nat, rightScore: nat)
    | FinishedGame(matchId: MatchId, winner: string)
    | NoMatchView

  class GameService {
    var waiting: seq<Player>
    var matches: map<MatchId, Seats>
    var games: map<MatchId, GameState>
    var playerToMatch: map<int, MatchId>
    var finishedMatches: map<int, FinishedEntry>
    var finishedById: map<MatchId, FinishedRecord>
    var nextId: MatchId

    /** The bookkeeping part of the state, as a Matchmaking value. */
    function LobbyState(): Lobby
      reads this`waiting, this`matches, this`playerToMatch, this`nextId
    {
      Lobby(waiting, matches, playerToMatch, nextId)
    }

    /** The lobby is consistent and every active match has its own playable game. */
    ghost predicate Inv()
      reads this`waiting, this`matches, this`games, this`playerToMatch, this`nextId
    {
      LobbyInv(LobbyState()) && GamesOk(matches, games)
    }

    /** Between operations at most one player waits. */
    ghost predicate Valid()
      reads this`waiting, this`matches, this`games, this`playerToMatch, this`nextId
    {
      Inv() && |waiting| <= 1
    }

    constructor ()
      ensures Valid()
      ensures LobbyState() == Lobby([], map[], map[], 0)
      ensures games == map[] && finishedMatches == map[] && finishedById == map[]
    {
      waiting := [];
      matches := map[];
      games := map[];
      playerToMatch := map[];
      finishedMatches := map[];
      finishedById := map[];
      nextId := 0;
    }

    /** One turn of the pairing loop: the two oldest waiting players leave
        the queue and get a new match, whose game launches its ball in the
        direction `h`. */
    method PairOnce(h: Heading)
      requires Inv() && |waiting| >= 2
      modifies this
      ensures Inv()
      ensures LobbyState() == PairNext(old(LobbyState()))
      ensures finishedMatches == old(finishedMatches) && finishedById == old(finishedById)
      ensures games == old(games)[old(nextId) := NewGame(old(waiting[0].userId), old(waiting[1].userId), h)]
    {
      var game := NewGame(waiting[0].userId, waiting[1].userId, h);
      var matchId := SeatPair();
      games := games[matchId := game];
    }

    /** The bookkeeping of one pairing: both players leave the queue, take
        the next match id, sit in the new match and are mapped to it. */
    method SeatPair() returns (matchId: MatchId)
      requires LobbyInv(LobbyState()) && |waiting| >= 2
      modifies this`waiting, this`matches, this`playerToMatch, this`nextId
      ensures LobbyInv(LobbyState())
      ensures LobbyState() == PairNext(old(LobbyState())) && matchId == old(nextId)
    {
      ghost var before := LobbyState();
      PairNextKeepsInv(before);
      var p1 := waiting[0];
      waiting := waiting[1..];
      var p2 := waiting[0];
      waiting := waiting[1..];
      matchId := nextId;
      nextId := nextId + 1;
      matches := matches[matchId := Seats(p1, p2, false)];
      playerToMatch := playerToMatch[p1.userId := matchId][p2.userId := matchId];
      assert LobbyState() == PairNext(before);
    }

    /** Pairs the two oldest waiting players into a new match, again and
        again, until fewer than two wait. Match `id`'s ball is launched in the
        direction `draw(id)`. */
    method TryStartMatch(draw: MatchId -> Heading)
      requires Inv()
      modifies this
      ensures Valid()
      ensures LobbyState() == PairAll(old(LobbyState()))
      ensures finishedMatches == old(finishedMatches) && finishedById == old(finishedById)
      ensures games == PairAllGames(old(LobbyState()), old(games), draw)
    {
      while |waiting| >= 2
        invariant Inv()
        invariant PairAll(LobbyState()) == PairAll(old(LobbyState()))
        invariant PairAllGames(LobbyState(), games, draw) == PairAllGames(old(LobbyState()), old(games), draw)
        invariant finishedMatches == old(finishedMatches) && finishedById == old(finishedById)
        decreases |waiting|
      {
        PairOnce(draw(nextId));
      }
      PairAllLeavesOne(old(LobbyState()));
    }

    /** A player already in a match is ignored; anyone else joins the back of
        the queue unless already in it, and the queue is paired off. */
    method JoinQueue(player: Player, draw: MatchId -> Heading)
      requires Valid()
      modifies this
      ensures Valid()
      ensures LobbyState() == Enqueue(old(LobbyState()), player)
      ensures player.userId in playerToMatch || IsWaiting(waiting, player.userId)
      ensures finishedMatches == old(finishedMatches) && finishedById == old(finishedById)
      ensures player.userId !in old(playerToMatch) ==>
        var l := old(LobbyState());
        games == PairAllGames(if IsWaiting(l.waiting, player.userId) then l else l.(waiting := l.waiting + [player]),
                              old(games), draw)
      ensures player.userId in old(playerToMatch) ==> unchanged(this)
    {
      EnqueueKeepsInv(old(LobbyState()), player);
      if player.userId in playerToMatch {
        return;
      }
      if !IsWaiting(waiting, player.userId) {
        AppendKeepsInv(LobbyState(), player);
        waiting := waiting + [player];
        assert LobbyState() == old(LobbyState()).(waiting := old(waiting) + [player]);
      }
      TryStartMatch(draw);
    }

    /** The countdown of match `matchId` ran out: the match starts if it is
        still active. */
    method CountdownElapsed(matchId: MatchId)
      requires Valid()
      modifies this`matches
      ensures Valid()
      ensures LobbyState() == Start(old(LobbyState()), matchId)
      ensures games == old(games)
      ensures finishedMatches == old(finishedMatches) && finishedById == old(finishedById)
    {
      if matchId !in matches {
        return;
      }
      matches := matches[matchId := matches[matchId].(started := true)];
      assert LobbyState() == Start(old(LobbyState()), matchId);
    }

    /** One tick of a started match. When its game finishes, the match is
        retired through `Finish`. */
    method Tick(matchId: MatchId, now: int, h: Heading)
      requires Valid()
      modifies this
      ensures Valid()
      ensures matchId !in old(matches) || !old(matches[matchId].started) ==> unchanged(this)
      ensures matchId in old(matches) && old(matches[matchId].started) ==>
        var next := Step(old(games[matchId]), h);
        var s := old(matches[matchId]);
        && (!next.finished ==>
              && games == old(games)[matchId := next] && LobbyState() == old(LobbyState())
              && finishedMatches == old(finishedMatches) && finishedById == old(finishedById))
        && (next.finished ==>
              && LobbyState() == Retire(old(LobbyState()), matchId)
              && games == old(games) - {matchId}
              && finishedMatches == old(finishedMatches)[s.p1.userId := FinishedEntry(matchId, now)]
                                                        [s.p2.userId := FinishedEntry(matchId, now)]
              && finishedById == old(finishedById)[matchId := FinishedRecord(now,
                   ScoreWinner(next.oneScore, next.twoScore, s.p1.username, s.p2.username, ""))]
              && (finishedById[matchId].winner == s.p1.username || finishedById[matchId].winner == s.p2.username))
    {
      if matchId !in matches || !matches[matchId].started {
        return;
      }
      StepKeepsConsistent(games[matchId], h);
      var game := Step(games[matchId], h);
      if game.finished {
        Finish(matchId, game, now);
      } else {
        GamesOkUpdate(matches, games, matchId, game);
        games := games[matchId := game];
      }
    }

    /** The end of a match whose game finished as `game`: the higher
        scorer's name (or "" on a tie) is recorded as the winner, both
        players and the match get a finished entry stamped `now`, and the
        match and its players' mappings are removed. */
    method Finish(matchId: MatchId, game: GameState, now: int)
      requires Inv() && matchId in matches && Consistent(game) && game.finished
      modifies this
      ensures Inv() && waiting == old(waiting)
      ensures LobbyState() == Retire(old(LobbyState()), matchId)
      ensures games == old(games) - {matchId}
      ensures var s := old(matches[matchId]);
        && finishedMatches == old(finishedMatches)[s.p1.userId := FinishedEntry(matchId, now)]
                                                  [s.p2.userId := FinishedEntry(matchId, now)]
        && finishedById == old(finishedById)[matchId := FinishedRecord(now,
             ScoreWinner(game.oneScore, game.twoScore, s.p1.username, s.p2.username, ""))]
        && (finishedById[matchId].winner == s.p1.username || finishedById[matchId].winner == s.p2.username)
    {
      var s := matches[matchId];
      RecordFinish(matchId, s, game, now);
      RemoveMatch(matchId);
    }

    /** The finish entries of a match that ended as `game`, stamped `now`. */
    method RecordFinish(matchId: MatchId, s: Seats, game: GameState, now: int)
      requires Consistent(game) && game.finished
      modifies this`finishedMatches, this`finishedById
      ensures finishedMatches == old(finishedMatches)[s.p1.userId := FinishedEntry(matchId, now)]
                                                     [s.p2.userId := FinishedEntry(matchId, now)]
      ensures finishedById == old(finishedById)[matchId := FinishedRecord(now,
                ScoreWinner(game.oneScore, game.twoScore, s.p1.username, s.p2.username, ""))]
      ensures finishedById[matchId].winner == s.p1.username || finishedById[matchId].winner == s.p2.username
    {
      var finishedAt := now;
      var leftScore := game.oneScore;
      var rightScore := game.twoScore;
      var winner := ScoreWinner(leftScore, rightScore, s.p1.username, s.p2.username, "");
      FinishedHasStrictWinner(game);
      finishedMatches := finishedMatches[s.p1.userId := FinishedEntry(matchId, finishedAt)];
      finishedMatches := finishedMatches[s.p2.userId := FinishedEntry(matchId, finishedAt)];
      finishedById := finishedById[matchId := FinishedRecord(finishedAt, winner)];
    }

    /** A finished match leaves the active set with its game, and its two
        players are unmapped. */
    method RemoveMatch(matchId: MatchId)
      requires Inv() && matchId in matches
      modifies this`matches, this`games, this`playerToMatch
      ensures Inv()
      ensures LobbyState() == Retire(old(LobbyState()), matchId)
      ensures games == old(games) - {matchId}
    {
      var s := matches[matchId];
      RetireKeepsInv(LobbyState(), matchId);
      GamesOkWithout(matches, games, matchId);
      ghost var before := LobbyState();
      matches := matches - {matchId};
      games := games - {matchId};
      playerToMatch := playerToMatch - {s.p1.userId};
      playerToMatch := playerToMatch - {s.p2.userId};
      assert LobbyState() == Retire(before, matchId);
    }

    /** The retention of the finish of `matchId` at `finishedAt` ran out:
        each of its entries is removed only if it still carries that finish. */
    method RetentionElapsed(matchId: MatchId, p1Id: int, p2Id: int, finishedAt: int)
      modifies this`finishedMatches, this`finishedById
      ensures finishedMatches ==
        ExpireEntry(ExpireEntry(old(finishedMatches), p1Id, matchId, finishedAt), p2Id, matchId, finishedAt)
      ensures finishedById == ExpireRecord(old(finishedById), matchId, finishedAt)
    {
      var entries := finishedMatches;
      if p1Id in entries && entries[p1Id].matchId == matchId && entries[p1Id].finishedAt == finishedAt {
        entries := entries - {p1Id};
      }
      if p2Id in entries && entries[p2Id].matchId == matchId && entries[p2Id].finishedAt == finishedAt {
        entries := entries - {p2Id};
      }
      var records := finishedById;
      if matchId in records && records[matchId].finishedAt == finishedAt {
        records := records - {matchId};
      }
      finishedMatches := entries;
      finishedById := records;
    }

    /** The status of a player, looked up in the fixed order; in a
        consistent service the lookup never fails. */
    function GetGameStatus(userId: int): (r: QueueStatus)
      reads this
      ensures r == StatusOf(LobbyState(), finishedMatches, userId)
      ensures LobbyInv(LobbyState()) ==> r != StatusError
    {
      var l := LobbyState();
      if LobbyInv(l) then
        StatusNeverErrs(l, finishedMatches, userId);
        StatusOf(l, finishedMatches, userId)
      else
        StatusOf(l, finishedMatches, userId)
    }

    /** The active matches, oldest first; in a consistent service, exactly
        the active matches. */
    function GetActiveMatchIds(): (r: seq<ActiveMatch>)
      reads this
      ensures forall i, j :: 0 <= i < j < |r| ==> r[i].matchId < r[j].matchId
      ensures forall i :: 0 <= i < |r| ==>
        && r[i].matchId in matches
        && r[i].left == matches[r[i].matchId].p1.username
        && r[i].right == matches[r[i].matchId].p2.username
        && r[i].started == matches[r[i].matchId].started
      ensures LobbyInv(LobbyState()) ==> Ids(r) == matches.Keys
    {
      ActiveBelow(matches, nextId)
    }

    /** A live snapshot of an active match, else its retained finish, else
        `no_match`. */
    function GetGameState(matchId: MatchId): (r: GameView)
      requires games.Keys == matches.Keys
      reads this
      ensures r.Snapshot? <==> matchId in matches
      ensures r.Snapshot? ==>
        var s := matches[matchId];
        var g := games[matchId];
        && r.matchId == matchId && (r.running <==> s.started)
        && r.left == SideView(s.p1.username, g.one.y) && r.right == SideView(s.p2.username, g.two.y)
        && r.ballX == g.ball.x && r.ballY == g.ball.y
        && r.leftScore == g.oneScore && r.rightScore == g.twoScore
      ensures r.FinishedGame? <==> matchId !in matches && matchId in finishedById
      ensures r.FinishedGame? ==> r == FinishedGame(matchId, finishedById[matchId].winner)
    {
      if matchId in matches then
        var s := matches[matchId];
        var game := games[matchId];
        Snapshot(s.started, matchId,
                 SideView(s.p1.username, game.one.y),
                 SideView(s.p2.username, game.two.y),
                 game.ball.x, game.ball.y,
                 game.oneScore, game.twoScore)
      else if matchId in finishedById then
        FinishedGame(matchId, finishedById[matchId].winner)
      else
        NoMatchView
    }

    /** A paddle command from a player: refused for no mapped match, a match
        not yet started, an unknown direction or a caller outside the match,
        in that order; otherwise only the caller's paddle is steered. */
    method ApplyMove(userId: int, direction: string) returns (r: MoveResult)
      requires Valid()
      modifies this`games
      ensures Valid()
      ensures r == MoveVerdict(LobbyState(), userId, direction)
      ensures r != MoveOk ==> games == old(games)
      ensures r == MoveOk ==>
        var id := playerToMatch[userId];
        var g := old(games[id]);
        var d := ParseDirection(direction).value;
        && (userId == matches[id].p1.userId ==> games == old(games)[id := g.(one := Steered(g.one, d))])
        && (userId != matches[id].p1.userId ==> games == old(games)[id := g.(two := Steered(g.two, d))])
    {
      if userId !in playerToMatch {
        return NoMatch;
      }
      var matchId := playerToMatch[userId];
      if matchId !in matches {
        return NoMatch;
      }
      var s := matches[matchId];
      if !s.started {
        return NotStarted;
      }
      var d := ParseDirection(direction);
      if d.None? {
        return InvalidDirection;
      }
      if userId == s.p1.userId {
        SteerPaddle(matchId, true, d.value);
      } else if userId == s.p2.userId {
        SteerPaddle(matchId, false, d.value);
      } else {
        return NotInMatch;
      }
      return MoveOk;
    }

    /** The setters of one game: the first or the second paddle takes the
        direction `d`; nothing else in the game changes. */
    method SteerPaddle(matchId: MatchId, first: bool, d: Direction)
      requires Inv() && matchId in games
      modifies this`games
      ensures Inv()
      ensures var g := old(games[matchId]);
        games == old(games)[matchId := if first then g.(one := Steered(g.one, d)) else g.(two := Steered(g.two, d))]
    {
      var game := games[matchId];
      var steered := if first then game.(one := Steered(game.one, d)) else game.(two := Steered(game.two, d));
      GamesOkUpdate(matches, games, matchId, steered);
      games := games[matchId := steered];
    }
  }
}
