/** Result shapes shared by the match queue and the tournament service. */
module Shared {

  datatype Option<+T> = None | Some(value: T)

  /** The outcome of an operation that the engine ends by throwing `Error(message)`. */
  datatype Outcome = Pass | Fail(message: string)

  /** A value, or the message of the error the engine throws instead. */
  datatype Result<+T> = Ok(value: T) | Err(message: string)

  /** A paddle command accepted by a move request. */
  datatype Direction = Up | Down | Stop

  /** The three direction strings a move request may carry; anything else is refused. */
  function ParseDirection(s: string): (r: Option<Direction>)
    ensures r.Some? <==> s == "UP" || s == "DOWN" || s == "STOP"
    ensures r == Some(Up) <==> s == "UP"
    ensures r == Some(Down) <==> s == "DOWN"
    ensures r == Some(Stop) <==> s == "STOP"
  {
    if s == "UP" then Some(Up)
    else if s == "DOWN" then Some(Down)
    else if s == "STOP" then Some(Stop)
    else None
  }

  function DigitChar(d: nat): char
    requires d < 10
  {
    "0123456789"[d]
  }

  function NatToString(n: nat): (r: string)
    ensures |r| > 0
    decreases n
  {
    if n < 10 then [DigitChar(n)] else NatToString(n / 10) + [DigitChar(n % 10)]
  }

  /** `userId.toString()`: the decimal text of a user id, never empty. */
  function IdToString(n: int): (r: string)
    ensures r != ""
  {
    if n < 0 then "-" + NatToString(-n) else NatToString(n)
  }

  /** The value of a decimal digit character (0 for any other character). */
  function DigitValue(c: char): (d: nat)
    ensures d < 10
  {
    if '0' <= c <= '9' then (c as int - '0' as int) else 0
  }

  /** Reads back a string of decimal digits. */
  function ParseNat(s: string): nat
  {
    if |s| == 0 then 0 else ParseNat(s[..|s| - 1]) * 10 + DigitValue(s[|s| - 1])
  }

  /** Reads back the text of a user id, with an optional leading minus. */
  function ParseId(s: string): int
  {
    if |s| > 0 && s[0] == '-' then -(ParseNat(s[1..]) as int) else ParseNat(s)
  }

  /** The decimal text of a natural number never starts with a minus. */
  lemma {:induction false} NatToStringUnsigned(n: nat)
    ensures NatToString(n)[0] != '-'
    decreases n
  {
    if n >= 10 {
      NatToStringUnsigned(n / 10);
      assert NatToString(n)[0] == NatToString(n / 10)[0];
    }
  }

  lemma {:induction false} NatToStringRoundTrip(n: nat)
    ensures ParseNat(NatToString(n)) == n
    decreases n
  {
    if n >= 10 {
      NatToStringRoundTrip(n / 10);
      var s := NatToString(n);
      assert s[..|s| - 1] == NatToString(n / 10);
    }
  }

  /** Reading back the text of an id gives the id, so two different ids never
      share a registry key. */
  lemma {:induction false} IdToStringRoundTrip(n: int)
    ensures ParseId(IdToString(n)) == n
  {
    var s := IdToString(n);
    if n < 0 {
      var t := NatToString(-n);
      assert s == "-" + t;
      assert s[1..] == t;
      NatToStringRoundTrip(-n);
      assert ParseId(s) == -(ParseNat(t) as int);
    } else {
      NatToStringUnsigned(n);
      NatToStringRoundTrip(n);
    }
  }

  lemma IdToStringInjective(a: int, b: int)
    ensures IdToString(a) == IdToString(b) <==> a == b
  {
    IdToStringRoundTrip(a);
    IdToStringRoundTrip(b);
  }

  /** The answers to a move request, success included. */
  datatype MoveResult =
    | MoveOk
    | NoMatch
    | NoActiveMatch
    | NotStarted
    | InvalidDirection
    | NotInMatch

  /** The winner of a finished game by score: the strictly higher scorer,
      and `tie` when the scores are equal. */
  function ScoreWinner<T>(leftScore: nat, rightScore: nat, left: T, right: T, tie: T): (r: T)
    ensures leftScore > rightScore ==> r == left
    ensures rightScore > leftScore ==> r == right
    ensures leftScore == rightScore ==> r == tie
  {
    if leftScore > rightScore then left
    else if rightScore > leftScore then right
    else tie
  }
}
