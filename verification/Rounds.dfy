/** packages/core/src/rounds.ts: the rotating seats of a round and the running tally. */
module Rounds {
  import opened Collections
  import opened Values

  /** Where the window of seats starts in the given round. */
  function Offset(n: nat, maxPlayers: nat, round: int): (o: nat)
    requires n > 0 && round >= 1
    ensures o < n
  {
    if n > maxPlayers then ((round - 1) * maxPlayers) % n else 0
  }

  /** How far the i-th of n players sits from the start of the window, going round. */
  function Place(i: nat, n: nat, offset: nat): nat
    requires i < n && offset < n
  {
    (i - offset + n) % n
  }

  /** Whether the i-th of n players sits out the given round. */
  predicate Benched(i: nat, n: nat, maxPlayers: nat, round: int)
    requires i < n && round >= 1
  {
    Place(i, n, Offset(n, maxPlayers, round)) >= maxPlayers
  }

  function SeatWindow(players: seq<Player>, maxPlayers: nat, round: int): (seated: seq<Player>)
    requires round >= 1
    ensures |seated| == |players|
    ensures forall i :: 0 <= i < |players| ==>
      && seated[i].id == players[i].id
      && seated[i].nickname == players[i].nickname
      && !seated[i].joinedDuringGame
      && seated[i].spectator == Benched(i, |players|, maxPlayers, round)
  {
    seq(|players|, i requires 0 <= i < |players| =>
      players[i].(spectator := Benched(i, |players|, maxPlayers, round), joinedDuringGame := false))
  }

  predicate Active(p: Player) { !p.spectator }

  function ActiveIds(players: seq<Player>): seq<PlayerId> {
    Map(Keep(players, Active), IdOf)
  }

  // ------------------------------------------------------------ the tally

  /** `next[score.playerId] = (next[score.playerId] ?? 0) + score.points` */
  function Credit(next: Record<int>, score: Score): Record<int> {
    Put(next, score.playerId, At(next, score.playerId) + score.points)
  }

  function Fold(base: Record<int>, scores: seq<Score>): Record<int> {
    if scores == [] then base
    else Credit(Fold(base, scores[..|scores| - 1]), scores[|scores| - 1])
  }

  method FoldScores(base: Record<int>, scores: seq<Score>) returns (next: Record<int>)
    ensures next == Fold(base, scores)
  {
    next := base;
    for i := 0 to |scores|
      invariant next == Fold(base, scores[..i])
    {
      assert scores[..i + 1][..i] == scores[..i];
      next := Credit(next, scores[i]);
    }
    assert scores[..|scores|] == scores;
  }

  function Points(s: Score): int { s.points }

  function ScoreTotal(scores: seq<Score>): int {
    Sum(Map(scores, Points))
  }

  lemma ScoreTotalAppend(scores: seq<Score>, s: Score)
    ensures ScoreTotal(scores + [s]) == ScoreTotal(scores) + s.points
  {
    assert Map(scores + [s], Points) == Map(scores, Points) + [s.points];
    SumAppend(Map(scores, Points), s.points);
  }

  /** What one player gains from a list of scores. */
  function Gain(scores: seq<Score>, id: PlayerId): int {
    if scores == [] then 0
    else
      var s := scores[|scores| - 1];
      Gain(scores[..|scores| - 1], id) + if s.playerId == id then s.points else 0
  }

  lemma CreditAddsExactly(next: Record<int>, s: Score)
    ensures Total(Credit(next, s)) == Total(next) + s.points
    ensures forall id :: At(Credit(next, s), id) == At(next, id) + if id == s.playerId then s.points else 0
    ensures Credit(next, s).vals.Keys == next.vals.Keys + {s.playerId}
  {
    TotalPut(next, s.playerId, At(next, s.playerId) + s.points);
  }

  function Scored(scores: seq<Score>): set<PlayerId> {
    set s | s in scores :: s.playerId
  }

  /** Folding adds exactly what was scored: in total, player by player, and under no
      key that was neither on the tally nor scored. */
  lemma {:induction false} FoldAddsExactly(base: Record<int>, scores: seq<Score>)
    ensures Total(Fold(base, scores)) == Total(base) + ScoreTotal(scores)
    ensures forall id :: At(Fold(base, scores), id) == At(base, id) + Gain(scores, id)
    ensures Fold(base, scores).vals.Keys == base.vals.Keys + Scored(scores)
  {
    hide Total, Credit;
    if scores != [] {
      var front, score := scores[..|scores| - 1], scores[|scores| - 1];
      FoldAddsExactly(base, front);
      CreditAddsExactly(Fold(base, front), score);
      assert scores == front + [score];
      ScoreTotalAppend(front, score);
      assert Scored(scores) == Scored(front) + {score.playerId};
    }
  }
}
