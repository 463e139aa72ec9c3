/** The bookkeeping of the matchmaking queue as values: who is waiting, which
    two players sit in each active match, which match each player is mapped
    to, and the finished-match records. The class in GameServiceCore is
    proved to perform these functions on its fields. */
module Matchmaking {
  import opened Shared

  /** Match ids come from a counter, so a larger id is a later match. */
  type MatchId = nat

  datatype Player = Player(userId: int, username: string)

  /** The players of an active match and whether its countdown has run out. */
  datatype Seats = Seats(p1: Player, p2: Player, started: bool)

  /** The queue, the active matches and the player-to-match map. */
  datatype Lobby = Lobby(
    waiting: seq<Player>,
    seats: map<MatchId, Seats>,
    playerToMatch: map<int, MatchId>,
    nextId: MatchId)

  /** A player's most recent finish, kept until its retention runs out. */
  datatype FinishedEntry = FinishedEntry(matchId: MatchId, finishedAt: int)

  /** A match's finish time and winner, kept until its retention runs out. */
  datatype FinishedRecord = FinishedRecord(finishedAt: int, winner: string)

  /** Whether some waiting player has the id. */
  predicate IsWaiting(waiting: seq<Player>, userId: int) {
    exists i :: 0 <= i < |waiting| && waiting[i].userId == userId
  }

  predicate HasPlayer(s: Seats, userId: int) {
    s.p1.userId == userId || s.p2.userId == userId
  }

  /** Every active match has an id below the counter and two distinct players
      mapped to it; every mapped player sits in the match it is mapped to; the
      waiting players are distinct and none of them is mapped to a match. */
  predicate LobbyInv(l: Lobby) {
    && (forall id :: id in l.seats ==> id < l.nextId)
    && (forall id :: id in l.seats ==>
          && l.seats[id].p1.userId != l.seats[id].p2.userId
          && l.seats[id].p1.userId in l.playerToMatch && l.playerToMatch[l.seats[id].p1.userId] == id
          && l.seats[id].p2.userId in l.playerToMatch && l.playerToMatch[l.seats[id].p2.userId] == id)
    && (forall u :: u in l.playerToMatch ==>
          l.playerToMatch[u] in l.seats && HasPlayer(l.seats[l.playerToMatch[u]], u))
    && (forall i, j :: 0 <= i < j < |l.waiting| ==> l.waiting[i].userId != l.waiting[j].userId)
    && (forall i :: 0 <= i < |l.waiting| ==> l.waiting[i].userId !in l.playerToMatch)
  }

  /** One turn of `tryStartMatch`: the two oldest waiting players leave the
      queue and sit in a new, not yet started match with a fresh id. */
  function PairNext(l: Lobby): (r: Lobby)
    requires |l.waiting| >= 2
    ensures r.waiting == l.waiting[2..] && r.nextId == l.nextId + 1
    ensures r.seats == l.seats[l.nextId := Seats(l.waiting[0], l.waiting[1], false)]
  {
    var p1 := l.waiting[0];
    var p2 := l.waiting[1];
    Lobby(l.waiting[2..],
          l.seats[l.nextId := Seats(p1, p2, false)],
          l.playerToMatch[p1.userId := l.nextId][p2.userId := l.nextId],
          l.nextId + 1)
  }

  /** `tryStartMatch`: pair the queue off until fewer than two players wait. */
  function PairAll(l: Lobby): Lobby
    decreases |l.waiting|
  {
    if |l.waiting| < 2 then l else PairAll(PairNext(l))
  }

  lemma PairNextKeepsInv(l: Lobby)
    requires LobbyInv(l) && |l.waiting| >= 2
    ensures LobbyInv(PairNext(l))
  {
    var r := PairNext(l);
    var p1, p2 := l.waiting[0], l.waiting[1];
    assert p1.userId != p2.userId;
    assert p1.userId !in l.playerToMatch && p2.userId !in l.playerToMatch;
    assert l.nextId !in l.seats;
    forall i | 0 <= i < |r.waiting|
      ensures r.waiting[i].userId !in r.playerToMatch
    {
      assert r.waiting[i] == l.waiting[i + 2];
    }
  }

  lemma {:induction false} PairAllKeepsInv(l: Lobby)
    requires LobbyInv(l)
    ensures LobbyInv(PairAll(l))
    decreases |l.waiting|
  {
    if |l.waiting| >= 2 {
      PairNextKeepsInv(l);
      PairAllKeepsInv(PairNext(l));
    }
  }

  /** Pairing stops with fewer than two waiting: the odd player out, if any,
      is the youngest, and one match id is used per pair. */
  lemma {:induction false} PairAllLeavesOne(l: Lobby)
    ensures PairAll(l).waiting == l.waiting[2 * (|l.waiting| / 2)..]
    ensures |PairAll(l).waiting| < 2
    ensures PairAll(l).nextId == l.nextId + |l.waiting| / 2
    decreases |l.waiting|
  {
    if |l.waiting| >= 2 {
      var w := l.waiting;
      PairAllLeavesOne(PairNext(l));
      assert |w[2..]| / 2 == |w| / 2 - 1;
      assert w[2..][2 * (|w[2..]| / 2)..] == w[2 * (|w| / 2)..];
    }
  }

  /** Matches already active keep their seats, and the k-th new match seats
      the (2k)-th and (2k+1)-th oldest waiting players: first in, first out. */
  lemma {:induction false} PairAllIsFifo(l: Lobby)
    requires forall id :: id in l.seats ==> id < l.nextId
    ensures forall id :: id in l.seats ==> id in PairAll(l).seats && PairAll(l).seats[id] == l.seats[id]
    ensures forall id :: id in PairAll(l).seats <==> id in l.seats || l.nextId <= id < l.nextId + |l.waiting| / 2
    ensures forall k :: 0 <= k < |l.waiting| / 2 ==>
      PairAll(l).seats[l.nextId + k] == Seats(l.waiting[2 * k], l.waiting[2 * k + 1], false)
    decreases |l.waiting|
  {
    if |l.waiting| >= 2 {
      var n := PairNext(l);
      PairAllIsFifo(n);
      assert PairAll(l) == PairAll(n);
      forall k | 0 <= k < |l.waiting| / 2
        ensures PairAll(l).seats[l.nextId + k] == Seats(l.waiting[2 * k], l.waiting[2 * k + 1], false)
      {
        if k > 0 {
          assert n.waiting[2 * (k - 1)] == l.waiting[2 * k];
          assert n.waiting[2 * (k - 1) + 1] == l.waiting[2 * k + 1];
        }
      }
    }
  }

  /** Each paired player is mapped to the match it sits in, and players mapped
      before keep their match. */
  lemma {:induction false} PairAllMapsPlayers(l: Lobby)
    requires LobbyInv(l)
    ensures forall u :: u in l.playerToMatch ==>
      u in PairAll(l).playerToMatch && PairAll(l).playerToMatch[u] == l.playerToMatch[u]
    ensures forall k :: 0 <= k < |l.waiting| / 2 ==>
      && l.waiting[2 * k].userId in PairAll(l).playerToMatch
      && PairAll(l).playerToMatch[l.waiting[2 * k].userId] == l.nextId + k
      && l.waiting[2 * k + 1].userId in PairAll(l).playerToMatch
      && PairAll(l).playerToMatch[l.waiting[2 * k + 1].userId] == l.nextId + k
    decreases |l.waiting|
  {
    if |l.waiting| >= 2 {
      var n := PairNext(l);
      PairNextKeepsInv(l);
      PairAllMapsPlayers(n);
      forall k | 0 <= k < |l.waiting| / 2
        ensures l.waiting[2 * k].userId in PairAll(l).playerToMatch
        ensures PairAll(l).playerToMatch[l.waiting[2 * k].userId] == l.nextId + k
        ensures l.waiting[2 * k + 1].userId in PairAll(l).playerToMatch
        ensures PairAll(l).playerToMatch[l.waiting[2 * k + 1].userId] == l.nextId + k
      {
        if k > 0 {
          assert n.waiting[2 * (k - 1)] == l.waiting[2 * k];
          assert n.waiting[2 * (k - 1) + 1] == l.waiting[2 * k + 1];
        }
      }
    }
  }

  /** Appending a player who is neither mapped nor waiting keeps the lobby consistent. */
  lemma AppendKeepsInv(l: Lobby, p: Player)
    requires LobbyInv(l) && p.userId !in l.playerToMatch && !IsWaiting(l.waiting, p.userId)
    ensures LobbyInv(l.(waiting := l.waiting + [p]))
  {
    var w := l.waiting + [p];
    assert forall i :: 0 <= i < |l.waiting| ==> w[i] == l.waiting[i];
  }

  /** `joinQueue`: a player mapped to a match is ignored; anyone else is
      appended unless already waiting, then the queue is paired off. */
  function Enqueue(l: Lobby, p: Player): Lobby {
    if p.userId in l.playerToMatch then l
    else if IsWaiting(l.waiting, p.userId) then PairAll(l)
    else PairAll(l.(waiting := l.waiting + [p]))
  }

  /** Joining keeps the lobby consistent and leaves at most one player
      waiting; the joiner is then waiting or mapped to a match, and nobody is
      ever queued twice. */
  lemma EnqueueKeepsInv(l: Lobby, p: Player)
    requires LobbyInv(l) && |l.waiting| <= 1
    ensures LobbyInv(Enqueue(l, p)) && |Enqueue(l, p).waiting| <= 1
    ensures p.userId in Enqueue(l, p).playerToMatch || IsWaiting(Enqueue(l, p).waiting, p.userId)
  {
    if p.userId !in l.playerToMatch {
      if IsWaiting(l.waiting, p.userId) {
        assert PairAll(l) == l;
      } else {
        var l' := l.(waiting := l.waiting + [p]);
        AppendKeepsInv(l, p);
        if |l.waiting| == 0 {
          assert PairAll(l') == l';
          assert l'.waiting[0] == p;
        } else {
          PairNextKeepsInv(l');
          assert PairAll(l') == PairNext(l');
          assert l'.waiting[1] == p;
        }
      }
    }
  }

  /** The countdown of an active match ran out. */
  function Start(l: Lobby, id: MatchId): (r: Lobby)
    ensures LobbyInv(l) ==> LobbyInv(r)
    ensures r.waiting == l.waiting && r.playerToMatch == l.playerToMatch && r.nextId == l.nextId
    ensures r.seats.Keys == l.seats.Keys
    ensures id in l.seats ==> r.seats[id].started && r.seats[id].p1 == l.seats[id].p1 && r.seats[id].p2 == l.seats[id].p2
    ensures forall other :: other in l.seats && other != id ==> r.seats[other] == l.seats[other]
  {
    if id in l.seats then l.(seats := l.seats[id := l.seats[id].(started := true)]) else l
  }

  /** A match is over: it leaves the active set and both of its players are
      unmapped, free to queue again. */
  function Retire(l: Lobby, id: MatchId): (r: Lobby)
    requires id in l.seats
    ensures r.waiting == l.waiting && r.nextId == l.nextId
    ensures r.seats == l.seats - {id}
    ensures r.playerToMatch.Keys == l.playerToMatch.Keys - {l.seats[id].p1.userId, l.seats[id].p2.userId}
  {
    var s := l.seats[id];
    l.(seats := l.seats - {id}, playerToMatch := l.playerToMatch - {s.p1.userId, s.p2.userId})
  }

  lemma RetireKeepsInv(l: Lobby, id: MatchId)
    requires LobbyInv(l) && id in l.seats
    ensures LobbyInv(Retire(l, id))
    ensures forall u :: u in l.playerToMatch && l.playerToMatch[u] != id ==>
      u in Retire(l, id).playerToMatch && Retire(l, id).playerToMatch[u] == l.playerToMatch[u]
  {
    var r := Retire(l, id);
    var s := l.seats[id];
    forall u | u in r.playerToMatch
      ensures r.playerToMatch[u] in r.seats && HasPlayer(r.seats[r.playerToMatch[u]], u)
    {
      assert l.playerToMatch[u] != id;
    }
    forall other | other in r.seats
      ensures r.seats[other].p1.userId in r.playerToMatch && r.seats[other].p2.userId in r.playerToMatch
    {
      assert l.playerToMatch[l.seats[other].p1.userId] == other;
      assert l.playerToMatch[l.seats[other].p2.userId] == other;
    }
  }

  /** What `getGameStatus` reports for a player. */
  datatype QueueStatus =
    | StatusError
    | Starting(matchId: MatchId, leftPlayer: string, rightPlayer: string)
    | Running(matchId: MatchId)
    | Waiting
    | Finished(matchId: MatchId)
    | Idle

  /** The status lookup, in its fixed order: an active match, then the queue,
      then a retained finish, else idle. */
  function StatusOf(l: Lobby, finished: map<int, FinishedEntry>, userId: int): (r: QueueStatus)
    ensures userId in l.playerToMatch && l.playerToMatch[userId] in l.seats ==>
      var s := l.seats[l.playerToMatch[userId]];
      && (!s.started ==> r == Starting(l.playerToMatch[userId], s.p1.username, s.p2.username))
      && (s.started ==> r == Running(l.playerToMatch[userId]))
    ensures userId in l.playerToMatch && l.playerToMatch[userId] !in l.seats ==> r == StatusError
    ensures userId !in l.playerToMatch && IsWaiting(l.waiting, userId) ==> r == Waiting
    ensures userId !in l.playerToMatch && !IsWaiting(l.waiting, userId) && userId in finished ==>
      r == Finished(finished[userId].matchId)
    ensures userId !in l.playerToMatch && !IsWaiting(l.waiting, userId) && userId !in finished ==> r == Idle
  {
    if userId in l.playerToMatch then
      var id := l.playerToMatch[userId];
      if id !in l.seats then StatusError
      else if !l.seats[id].started then Starting(id, l.seats[id].p1.username, l.seats[id].p2.username)
      else Running(id)
    else if IsWaiting(l.waiting, userId) then Waiting
    else if userId in finished then Finished(finished[userId].matchId)
    else Idle
  }

  /** In a consistent lobby the safety check of the status lookup never
      fires, and a player is never reported as both queued and playing. */
  lemma StatusNeverErrs(l: Lobby, finished: map<int, FinishedEntry>, userId: int)
    requires LobbyInv(l)
    ensures StatusOf(l, finished, userId) != StatusError
    ensures IsWaiting(l.waiting, userId) ==> StatusOf(l, finished, userId) == Waiting
  {
    if IsWaiting(l.waiting, userId) {
      var i :| 0 <= i < |l.waiting| && l.waiting[i].userId == userId;
      assert userId !in l.playerToMatch;
    }
  }

  /** After a join the joiner is reported waiting or in a starting match
      (or, if it was already playing, still in its match). */
  lemma JoinerIsNotIdle(l: Lobby, p: Player, finished: map<int, FinishedEntry>)
    requires LobbyInv(l) && |l.waiting| <= 1
    ensures var s := StatusOf(Enqueue(l, p), finished, p.userId);
      s.Waiting? || s.Starting? || s.Running?
  {
    EnqueueKeepsInv(l, p);
    StatusNeverErrs(Enqueue(l, p), finished, p.userId);
  }

  /** The checks of the queue's `applyMove` that come before steering a
      paddle, in the code's order: no mapping or no match, not started, a
      direction other than UP, DOWN and STOP, and a caller not in the match. */
  function MoveVerdict(l: Lobby, userId: int, direction: string): (r: MoveResult)
    ensures r == MoveOk ==>
      && userId in l.playerToMatch && l.playerToMatch[userId] in l.seats
      && l.seats[l.playerToMatch[userId]].started
      && ParseDirection(direction).Some?
      && HasPlayer(l.seats[l.playerToMatch[userId]], userId)
    ensures userId !in l.playerToMatch ==> r == NoMatch
    ensures userId in l.playerToMatch && l.playerToMatch[userId] !in l.seats ==> r == NoMatch
    ensures (userId in l.playerToMatch && l.playerToMatch[userId] in l.seats
             && !l.seats[l.playerToMatch[userId]].started) ==> r == NotStarted
    ensures (userId in l.playerToMatch && l.playerToMatch[userId] in l.seats
             && l.seats[l.playerToMatch[userId]].started && ParseDirection(direction).None?) ==> r == InvalidDirection
  {
    if userId !in l.playerToMatch then NoMatch
    else
      var id := l.playerToMatch[userId];
      if id !in l.seats then NoMatch
      else if !l.seats[id].started then NotStarted
      else if ParseDirection(direction).None? then InvalidDirection
      else if !HasPlayer(l.seats[id], userId) then NotInMatch
      else MoveOk
  }

  /** In a consistent lobby a mapped player always sits in its match, so a
      move is never refused as `not_in_match`, and a started match accepts
      every valid direction from either of its players. */
  lemma MoveNeverNotInMatch(l: Lobby, userId: int, direction: string)
    requires LobbyInv(l)
    ensures MoveVerdict(l, userId, direction) != NotInMatch
    ensures (userId in l.playerToMatch && l.seats[l.playerToMatch[userId]].started
             && ParseDirection(direction).Some?) ==> MoveVerdict(l, userId, direction) == MoveOk
  {
  }

  /** A retention event clears an entry only while it still carries the
      finish it was scheduled for. */
  function ExpireEntry(finished: map<int, FinishedEntry>, userId: int, matchId: MatchId, finishedAt: int)
    : (r: map<int, FinishedEntry>)
    ensures r.Keys <= finished.Keys
    ensures forall u :: u in r ==> r[u] == finished[u]
    ensures forall u :: u in finished && u !in r ==> u == userId && finished[u] == FinishedEntry(matchId, finishedAt)
    ensures userId in finished && finished[userId] == FinishedEntry(matchId, finishedAt) ==> userId !in r
  {
    if userId in finished && finished[userId].matchId == matchId && finished[userId].finishedAt == finishedAt
    then finished - {userId}
    else finished
  }

  function ExpireRecord(records: map<MatchId, FinishedRecord>, matchId: MatchId, finishedAt: int)
    : (r: map<MatchId, FinishedRecord>)
    ensures r.Keys <= records.Keys
    ensures forall id :: id in r ==> r[id] == records[id]
    ensures forall id :: id in records && id !in r ==> id == matchId && records[id].finishedAt == finishedAt
    ensures matchId in records && records[matchId].finishedAt == finishedAt ==> matchId !in r
  {
    if matchId in records && records[matchId].finishedAt == finishedAt then records - {matchId} else records
  }

  /** A later finish outlives the retention of an earlier one: a player who
      finished match `a` and then match `b` keeps `b`'s entry when `a`'s
      retention runs out. */
  lemma LaterFinishSurvives(finished: map<int, FinishedEntry>, userId: int, a: MatchId, at: int, b: MatchId, bt: int)
    requires a != b || at != bt
    ensures var f := finished[userId := FinishedEntry(b, bt)];
      var r := ExpireEntry(f, userId, a, at);
      userId in r && r[userId] == FinishedEntry(b, bt)
  {
  }

  /** A match in `getActiveMatchIds`. */
  datatype ActiveMatch = ActiveMatch(matchId: MatchId, left: string, right: string, started: bool)

  function Ids(r: seq<ActiveMatch>): set<MatchId> {
    set i | 0 <= i < |r| :: r[i].matchId
  }

  lemma IdsAppend(r: seq<ActiveMatch>, e: ActiveMatch)
    ensures Ids(r + [e]) == Ids(r) + {e.matchId}
  {
    var s := r + [e];
    assert forall i :: 0 <= i < |r| ==> s[i] == r[i];
    assert s[|r|] == e;
  }

  /** The active matches with an id below `n`, oldest first. */
  function ActiveBelow(seats: map<MatchId, Seats>, n: nat): (r: seq<ActiveMatch>)
    ensures Ids(r) == set id | id in seats && id < n
    ensures forall i :: 0 <= i < |r| ==>
      && r[i].matchId in seats && r[i].matchId < n
      && r[i] == ActiveMatch(r[i].matchId, seats[r[i].matchId].p1.username,
                             seats[r[i].matchId].p2.username, seats[r[i].matchId].started)
    ensures forall i, j :: 0 <= i < j < |r| ==> r[i].matchId < r[j].matchId
    decreases n
  {
    if n == 0 then []
    else
      var earlier := ActiveBelow(seats, n - 1);
      var id := n - 1;
      if id in seats then
        var e := ActiveMatch(id, seats[id].p1.username, seats[id].p2.username, seats[id].started);
        IdsAppend(earlier, e);
        earlier + [e]
      else earlier
  }
}
