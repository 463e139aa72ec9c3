/** The four-slot elimination bracket: who has joined, which stage is being
    played, and who won each stage. The bracket is bookkeeping only; the games
    themselves are driven by TournamentServiceCore. */
module TournamentLogic {
  import opened Shared

  datatype Stage = Waiting | Semifinal1 | Semifinal2 | Final | Completed

  /** Position of a stage in the one order the bracket moves through. */
  function Rank(s: Stage): nat {
    match s
    case Waiting => 0
    case Semifinal1 => 1
    case Semifinal2 => 2
    case Final => 3
    case Completed => 4
  }

  const DEFAULT_PREVIOUS_WINNER: string := "Chuck Norris"
  const NOT_WAITING: string := "Tournament is not in waiting state"
  const ALREADY_JOINED: string := "Player already in tournamnet"
  const NO_STAGE_TO_RECORD: string := "Error in recordWinner()"

  /** Who plays the current stage, and the stage's display name. */
  datatype Pairing = Pairing(player1: string, player2: string, matchType: string)

  datatype MatchInfo = MatchInfo(player1: Option<string>, player2: Option<string>, winner: Option<string>)

  /** The bracket as `getTournamentInfo` reports it. */
  datatype TournamentInfo = TournamentInfo(
    status: Stage,
    previousWinner: Option<string>,
    players: seq<string>,
    semifinal1: MatchInfo,
    semifinal2: MatchInfo,
    final: MatchInfo)

  /** The slot's player, if the slot holds one that JavaScript counts as present
      (a non-empty string). */
  function Present(slot: Option<string>): seq<string> {
    if slot.Some? && slot.value != "" then [slot.value] else []
  }

  /** The players present in a list of slots, in slot order. */
  function Filled(slots: seq<Option<string>>): seq<string>
    decreases |slots|
  {
    if slots == [] then [] else Present(slots[0]) + Filled(slots[1..])
  }

  /** Every present slot's player is listed. */
  lemma {:induction false} FilledLists(slots: seq<Option<string>>, j: nat)
    requires j < |slots| && slots[j].Some? && slots[j].value != ""
    ensures exists b :: 0 <= b < |Filled(slots)| && Filled(slots)[b] == slots[j].value
    decreases |slots|
  {
    var head := Present(slots[0]);
    if j == 0 {
      assert Filled(slots)[0] == slots[0].value;
    } else {
      FilledLists(slots[1..], j - 1);
      var b :| 0 <= b < |Filled(slots[1..])| && Filled(slots[1..])[b] == slots[1..][j - 1].value;
      assert Filled(slots)[|head| + b] == slots[j].value;
    }
  }

  /** A present slot's player is listed before the player of any later present slot. */
  lemma {:induction false} FilledKeepsOrder(slots: seq<Option<string>>, i: nat, j: nat)
    requires i < j < |slots|
    requires slots[i].Some? && slots[i].value != "" && slots[j].Some? && slots[j].value != ""
    ensures exists a, b :: 0 <= a < b < |Filled(slots)| && Filled(slots)[a] == slots[i].value
                                                        && Filled(slots)[b] == slots[j].value
    decreases |slots|
  {
    var head := Present(slots[0]);
    var rest := Filled(slots[1..]);
    assert Filled(slots) == head + rest;
    if i == 0 {
      FilledLists(slots[1..], j - 1);
      var b :| 0 <= b < |rest| && rest[b] == slots[1..][j - 1].value;
      assert Filled(slots)[0] == slots[i].value && Filled(slots)[1 + b] == slots[j].value;
    } else {
      FilledKeepsOrder(slots[1..], i - 1, j - 1);
      var a, b :| 0 <= a < b < |rest| && rest[a] == slots[1..][i - 1].value && rest[b] == slots[1..][j - 1].value;
      assert Filled(slots)[|head| + a] == slots[i].value && Filled(slots)[|head| + b] == slots[j].value;
    }
  }

  /** A filled slot holds a different player from the other slot. */
  predicate Apart(a: Option<string>, b: Option<string>) {
    a.Some? ==> a != b
  }

  /** No player fills two of the four slots. */
  predicate DistinctSlots(p1: Option<string>, p2: Option<string>, p3: Option<string>, p4: Option<string>) {
    && Apart(p1, p2) && Apart(p1, p3) && Apart(p1, p4)
    && Apart(p2, p3) && Apart(p2, p4) && Apart(p3, p4)
  }

  /** The four slots after a join: the first empty slot among 2, 3 and 4
      takes the player, and every other slot is kept. */
  function SeatFirstEmpty(slots: seq<Option<string>>, playerId: string): (r: seq<Option<string>>)
    requires |slots| == 4
    ensures |r| == 4 && r[0] == slots[0]
    ensures slots[1].None? ==> r == slots[1 := Some(playerId)]
    ensures slots[1].Some? && slots[2].None? ==> r == slots[2 := Some(playerId)]
    ensures slots[1].Some? && slots[2].Some? && slots[3].None? ==> r == slots[3 := Some(playerId)]
  {
    if slots[1].None? then slots[1 := Some(playerId)]
    else if slots[2].None? then slots[2 := Some(playerId)]
    else if slots[3].None? then slots[3 := Some(playerId)]
    else slots
  }

  class Tournament {
    var status: Stage
    var player1: Option<string>
    var player2: Option<string>
    var player3: Option<string>
    var player4: Option<string>
    var semifinal1Winner: Option<string>
    var semifinal2Winner: Option<string>
    var finalWinner: Option<string>
    var previousWinner: Option<string>

    function Slots(): seq<Option<string>>
      reads this
    {
      [player1, player2, player3, player4]
    }

    /** The bracket's shape: slot 1 always filled, slots filled in order and
        never twice by one player, waiting exactly while slot 4 is empty, and
        exactly the winners of the stages already played recorded. */
    ghost predicate Valid()
      reads this
    {
      && player1.Some?
      && (player3.Some? ==> player2.Some?)
      && (player4.Some? ==> player3.Some?)
      && (status == Waiting <==> player4 == None)
      && DistinctSlots(player1, player2, player3, player4)
      && (semifinal1Winner.Some? <==> Rank(status) >= 2)
      && (semifinal2Winner.Some? <==> Rank(status) >= 3)
      && (finalWinner.Some? <==> status == Completed)
    }

    /** A bracket with the creator in slot 1, carrying forward the previous
        champion (or the default one when there is none). */
    constructor (firstPlayer: string, previous: Option<string>)
      ensures Valid()
      ensures status == Waiting && player1 == Some(firstPlayer)
      ensures player2 == None && player3 == None && player4 == None
      ensures semifinal1Winner == None && semifinal2Winner == None && finalWinner == None
      ensures previousWinner == if previous.Some? then previous else Some(DEFAULT_PREVIOUS_WINNER)
    {
      status := Waiting;
      player1 := Some(firstPlayer);
      player2 := None;
      player3 := None;
      player4 := None;
      semifinal1Winner := None;
      semifinal2Winner := None;
      finalWinner := None;
      previousWinner := if previous.Some? then previous else Some(DEFAULT_PREVIOUS_WINNER);
    }

    /** Puts a new player in the first empty slot among 2, 3 and 4; filling
        slot 4 starts semifinal 1. Refused, with nothing changed, outside the
        waiting stage or for a player already in a slot. */
    method Join(playerId: string) returns (r: Outcome)
      requires Valid()
      modifies this
      ensures Valid()
      ensures old(status) != Waiting ==> r == Fail(NOT_WAITING)
      ensures old(status) == Waiting && Some(playerId) in old(Slots()) ==> r == Fail(ALREADY_JOINED)
      ensures r.Pass? <==> old(status) == Waiting && Some(playerId) !in old(Slots())
      ensures r.Fail? ==> unchanged(this)
      ensures r.Pass? ==> Slots() == SeatFirstEmpty(old(Slots()), playerId)
      ensures player1 == old(player1) && previousWinner == old(previousWinner)
      ensures semifinal1Winner == old(semifinal1Winner) && semifinal2Winner == old(semifinal2Winner)
      ensures finalWinner == old(finalWinner)
      ensures r.Pass? && old(player2).None? ==>
        player2 == Some(playerId) && player3 == None && player4 == None && status == Waiting
      ensures r.Pass? && old(player2).Some? && old(player3).None? ==>
        player2 == old(player2) && player3 == Some(playerId) && player4 == None && status == Waiting
      ensures r.Pass? && old(player3).Some? ==>
        player2 == old(player2) && player3 == old(player3) && player4 == Some(playerId) && status == Semifinal1
    {
      if status != Waiting {
        return Fail(NOT_WAITING);
      }
      if player1 == Some(playerId) || player2 == Some(playerId)
         || player3 == Some(playerId) || player4 == Some(playerId) {
        return Fail(ALREADY_JOINED);
      }
      if player2.None? {
        player2 := Some(playerId);
      } else if player3.None? {
        player3 := Some(playerId);
      } else if player4.None? {
        player4 := Some(playerId);
        status := Semifinal1;
      }
      return Pass;
    }

    /** The two players of the stage being played, or nothing while waiting or
        once completed. */
    function GetCurrentMatch(): (r: Option<Pairing>)
      requires Valid()
      reads this
      ensures r.None? <==> status == Waiting || status == Completed
      ensures status == Semifinal1 ==> r == Some(Pairing(player1.value, player2.value, "Semifinal 1"))
      ensures status == Semifinal2 ==> r == Some(Pairing(player3.value, player4.value, "Semifinal 2"))
      ensures status == Final ==>
        r == Some(Pairing(semifinal1Winner.value, semifinal2Winner.value, "Final"))
    {
      match status
      case Waiting => None
      case Completed => None
      case Semifinal1 => Some(Pairing(player1.value, player2.value, "Semifinal 1"))
      case Semifinal2 => Some(Pairing(player3.value, player4.value, "Semifinal 2"))
      case Final => Some(Pairing(semifinal1Winner.value, semifinal2Winner.value, "Final"))
    }

    /** The whole bracket; the final is played between the two semifinal winners. */
    function GetTournamentInfo(): (r: TournamentInfo)
      reads this
      ensures r.status == status && r.players == GetPlayers()
      ensures r.semifinal1.player1 == player1 && r.semifinal1.player2 == player2
      ensures r.semifinal2.player1 == player3 && r.semifinal2.player2 == player4
      ensures r.final.player1 == r.semifinal1.winner && r.final.player2 == r.semifinal2.winner
      ensures r.final.winner == finalWinner
      ensures r.previousWinner == previousWinner
      ensures r.semifinal1.winner == semifinal1Winner && r.semifinal2.winner == semifinal2Winner
    {
      TournamentInfo(
        status, previousWinner, GetPlayers(),
        MatchInfo(player1, player2, semifinal1Winner),
        MatchInfo(player3, player4, semifinal2Winner),
        MatchInfo(semifinal1Winner, semifinal2Winner, finalWinner))
    }

    /** Records the winner of the stage being played and moves to the next
        stage. The winner is not checked against the stage's players. */
    method RecordWinner(winnerId: string) returns (r: Outcome)
      requires Valid()
      modifies this
      ensures Valid()
      ensures r.Fail? <==> old(status) == Waiting || old(status) == Completed
      ensures r.Fail? ==> r == Fail(NO_STAGE_TO_RECORD) && unchanged(this)
      ensures r.Pass? ==> Rank(status) == Rank(old(status)) + 1
      ensures Slots() == old(Slots()) && previousWinner == old(previousWinner)
      ensures semifinal1Winner == if old(status) == Semifinal1 then Some(winnerId) else old(semifinal1Winner)
      ensures semifinal2Winner == if old(status) == Semifinal2 then Some(winnerId) else old(semifinal2Winner)
      ensures finalWinner == if old(status) == Final then Some(winnerId) else old(finalWinner)
    {
      if status == Semifinal1 {
        semifinal1Winner := Some(winnerId);
        status := Semifinal2;
        return Pass;
      }
      if status == Semifinal2 {
        semifinal2Winner := Some(winnerId);
        status := Final;
        return Pass;
      }
      if status == Final {
        finalWinner := Some(winnerId);
        status := Completed;
        return Pass;
      }
      return Fail(NO_STAGE_TO_RECORD);
    }

    function IsComplete(): (r: bool)
      reads this
      ensures r <==> status == Completed
      ensures Valid() && r ==> GetWinner().Some?
    {
      status == Completed
    }

    /** The champion, known only once the bracket is completed. */
    function GetWinner(): (r: Option<string>)
      reads this
      ensures r.Some? ==> status == Completed && r == finalWinner
      ensures Valid() && status == Completed ==> r == finalWinner && r.Some?
    {
      if status == Completed then finalWinner else None
    }

    /** The players present in the slots, in slot order. */
    function GetPlayers(): (r: seq<string>)
      reads this
      ensures |r| <= 4
      ensures r == Filled(Slots())
      ensures forall p :: p in r <==> p != "" && Some(p) in Slots()
      ensures player1.Some? && player1.value != "" ==> |r| > 0 && r[0] == player1.value
      ensures forall i, j :: 0 <= i < j < 4 && Slots()[i].Some? && Slots()[i].value != ""
                               && Slots()[j].Some? && Slots()[j].value != "" ==>
        exists a, b :: 0 <= a < b < |r| && r[a] == Slots()[i].value && r[b] == Slots()[j].value
    {
      var rest := Present(player2) + Present(player3) + Present(player4);
      var r := Present(player1) + rest;
      assert r == Filled(Slots()) by {
        var s := Slots();
        assert s[1..] == [player2, player3, player4];
        assert s[1..][1..] == [player3, player4];
        assert s[1..][1..][1..] == [player4];
        assert Filled([player4]) == Present(player4) by {
          assert [player4][1..] == [];
        }
        assert Filled([player3, player4]) == Present(player3) + Present(player4) by {
          assert [player3, player4][1..] == [player4];
        }
        assert Filled(s[1..]) == Present(player2) + Present(player3) + Present(player4);
      }
      forall i, j | 0 <= i < j < 4 && Slots()[i].Some? && Slots()[i].value != ""
                                   && Slots()[j].Some? && Slots()[j].value != ""
        ensures exists a, b :: 0 <= a < b < |r| && r[a] == Slots()[i].value && r[b] == Slots()[j].value
      {
        FilledKeepsOrder(Slots(), i, j);
      }
      r
    }

    /** All four slots are filled; for a valid bracket, exactly when it has left the waiting stage. */
    function IsFull(): (r: bool)
      reads this
      ensures r <==> player1.Some? && player2.Some? && player3.Some? && player4.Some?
      ensures Valid() ==> (r <==> status != Waiting)
    {
      player1.Some? && player2.Some? && player3.Some? && player4.Some?
    }

    /** Starts a fresh bracket around a new first player, carrying the final's
        winner forward as the previous champion. */
    method Reset(firstPlayer: string)
      modifies this
      ensures Valid()
      ensures previousWinner == old(finalWinner)
      ensures status == Waiting && player1 == Some(firstPlayer)
      ensures player2 == None && player3 == None && player4 == None
      ensures semifinal1Winner == None && semifinal2Winner == None && finalWinner == None
    {
      previousWinner := finalWinner;
      status := Waiting;
      player1 := Some(firstPlayer);
      player2 := None;
      player3 := None;
      player4 := None;
      semifinal1Winner := None;
      semifinal2Winner := None;
      finalWinner := None;
    }
  }
}
