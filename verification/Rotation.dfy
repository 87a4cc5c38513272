/** Fairness of the rotating seats. The players seated in rounds r, r+1, ... occupy
    consecutive stretches of the integers modulo the roster size, so how often one of
    them is seated is a difference of two floors. */
module Rotation {
  import opened Collections
  import opened Values
  import opened Rounds

  /** In how many of the k rounds from r on the i-th of n players has a seat. */
  function SeatCount(i: nat, n: nat, maxPlayers: nat, r: int, k: nat): nat
    requires i < n && r >= 1
  {
    if k == 0 then 0
    else SeatCount(i, n, maxPlayers, r, k - 1) + if Benched(i, n, maxPlayers, r + k - 1) then 0 else 1
  }

  /** How many of 0 .. x-1 leave remainder i modulo n. */
  function Hits(i: nat, n: nat, x: nat): nat
    requires i < n
  {
    (x + n - 1 - i) / n
  }

  lemma AtLeastOneStep(d: int, n: int)
    requires n > 0
    ensures d >= 1 ==> d * n >= n
    ensures d <= -1 ==> d * n <= -n
  {
  }

  lemma DivBy(x: int, n: int, q: int, rest: int)
    requires n > 0 && x == q * n + rest && 0 <= rest < n
    ensures x / n == q
  {
    var d := x / n - q;
    assert d * n == rest - x % n;
    AtLeastOneStep(d, n);
  }

  lemma PlaceIs(i: nat, n: nat, o: nat)
    requires i < n && o < n
    ensures Place(i, n, o) == if i >= o then i - o else i - o + n
  {
    DivBy(i - o + n, n, if i >= o then 1 else 0, if i >= o then i - o else i - o + n);
  }

  lemma SeatedIsAHit(i: nat, n: nat, m: nat, a: nat)
    requires i < n && m < n
    ensures Hits(i, n, a + m) - Hits(i, n, a) == if Place(i, n, a % n) >= m then 0 else 1
  {
    var q, o := a / n, a % n;
    PlaceIs(i, n, o);
    hide Place;
    var y := a + n - 1 - i;
    assert q * n == a - o;
    if o > i { DivBy(y, n, q + 1, o - 1 - i); } else { DivBy(y, n, q, o + n - 1 - i); }
    var rest := o + m + n - 1 - i;
    if rest >= 2 * n {
      DivBy(y + m, n, q + 2, rest - 2 * n);
    } else if rest >= n {
      DivBy(y + m, n, q + 1, rest - n);
    } else {
      DivBy(y + m, n, q, rest);
    }
  }

  /** The closed form of SeatCount when the window is smaller than the roster. */
  lemma {:induction false} SeatCountIsHits(i: nat, n: nat, m: nat, r: int, k: nat)
    requires i < n && m < n && r >= 1
    ensures 0 <= (r - 1) * m <= (r - 1 + k) * m
    ensures SeatCount(i, n, m, r, k) == Hits(i, n, (r - 1 + k) * m) - Hits(i, n, (r - 1) * m)
  {
    assert (r - 1) * m >= 0;
    if k != 0 {
      SeatCountIsHits(i, n, m, r, k - 1);
      var a := (r + k - 2) * m;
      assert a + m == (r - 1 + k) * m;
      SeatedIsAHit(i, n, m, a);
    }
  }

  lemma HitsGrow(i: nat, n: nat, x: nat, len: nat)
    requires i < n
    ensures len / n <= Hits(i, n, x + len) - Hits(i, n, x) <= len / n + 1
  {
    var y := x + n - 1 - i;
    var rest := y % n + len % n;
    assert y + len == (y / n + len / n) * n + rest;
    if rest < n {
      DivBy(y + len, n, y / n + len / n, rest);
    } else {
      DivBy(y + len, n, y / n + len / n + 1, rest - n);
    }
  }

  /** When everyone fits, everyone is seated every round. */
  lemma {:induction false} EveryoneFits(i: nat, n: nat, m: nat, r: int, k: nat)
    requires i < n <= m && r >= 1
    ensures SeatCount(i, n, m, r, k) == k
  {
    if k != 0 {
      EveryoneFits(i, n, m, r, k - 1);
      PlaceIs(i, n, 0);
    }
  }

  /** Over any k consecutive rounds two players' seat counts differ by at most one. */
  lemma FairShare(i: nat, j: nat, n: nat, m: nat, r: int, k: nat)
    requires i < n && j < n && r >= 1
    ensures -1 <= SeatCount(i, n, m, r, k) - SeatCount(j, n, m, r, k) <= 1
  {
    if n <= m {
      EveryoneFits(i, n, m, r, k);
      EveryoneFits(j, n, m, r, k);
    } else {
      SeatCountIsHits(i, n, m, r, k);
      SeatCountIsHits(j, n, m, r, k);
      assert (r - 1 + k) * m == (r - 1) * m + k * m;
      HitsGrow(i, n, (r - 1) * m, k * m);
      HitsGrow(j, n, (r - 1) * m, k * m);
    }
  }

  lemma AtLeastOneFull(x: nat, n: nat)
    requires 0 < n <= x
    ensures x / n >= 1
  {
    var q := x / n;
    assert q * n == x - x % n > 0;
  }

  /** Any k consecutive rounds with k * m >= n, so any ceil(n/m) of them, seat everyone. */
  lemma NobodyWaitsForever(i: nat, n: nat, m: nat, r: int, k: nat)
    requires i < n <= k * m && r >= 1
    ensures SeatCount(i, n, m, r, k) >= 1
  {
    if n <= m {
      EveryoneFits(i, n, m, r, k);
    } else {
      SeatCountIsHits(i, n, m, r, k);
      assert (r - 1 + k) * m == (r - 1) * m + k * m;
      HitsGrow(i, n, (r - 1) * m, k * m);
      AtLeastOneFull(k * m, n);
    }
  }

  lemma TwoRounds(i: nat, n: nat, m: nat, r: int)
    requires i < n && r >= 1
    ensures SeatCount(i, n, m, r, 2)
      == (if Benched(i, n, m, r) then 0 else 1) + if Benched(i, n, m, r + 1) then 0 else 1
  {
    assert SeatCount(i, n, m, r, 1)
      == SeatCount(i, n, m, r, 0) + if Benched(i, n, m, r) then 0 else 1;
  }

  /** With more than two windows' worth of players, the one right after the second
      window sits out both. */
  lemma SecondWindow(n: nat, m: nat)
    requires n > 2 * m
    ensures Benched(2 * m, n, m, 1) && Benched(2 * m, n, m, 2)
  {
    DivBy(m, n, 0, m);
    assert Offset(n, m, 2) == m;
    assert Offset(n, m, 1) == 0;
    PlaceIs(2 * m, n, 0);
    PlaceIs(2 * m, n, m);
  }

  /** Nobody sits out two rounds in a row while the roster stays as it is. */
  ghost predicate NobodyBenchedTwice(n: nat, m: nat) {
    forall i: nat, r: int | i < n && r >= 1 :: !(Benched(i, n, m, r) && Benched(i, n, m, r + 1))
  }

  /** docs/playtest.md promises that nobody spectates twice in a row. For a roster that does
      not change between the two rounds the code keeps that promise exactly when two windows
      cover it. */
  lemma BenchedTwiceIff(n: nat, m: nat)
    requires n > 0
    ensures NobodyBenchedTwice(n, m) <==> n <= 2 * m
  {
    hide Benched, SeatCount;
    if n <= 2 * m {
      forall i: nat, r: int | i < n && r >= 1
        ensures !(Benched(i, n, m, r) && Benched(i, n, m, r + 1))
      {
        NobodyWaitsForever(i, n, m, r, 2);
        TwoRounds(i, n, m, r);
      }
    } else {
      SecondWindow(n, m);
    }
  }

  // -------------------------------------------- a roster that changes in between

  /** A seat in the window, without going round: the window starts at the offset and
      continues at the front of the roster. */
  lemma SeatedIff(i: nat, n: nat, m: nat, r: int)
    requires i < n && r >= 1
    ensures var o := Offset(n, m, r);
      !Benched(i, n, m, r) <==> n <= m || o <= i < o + m || i + n < o + m
  {
    hide Place;
    PlaceIs(i, n, Offset(n, m, r));
  }

  /** A roster that keeps its size moves its window on by one window. */
  lemma OffsetMovesOn(n: nat, m: nat, r: int)
    requires n > m && r >= 1
    ensures var o := Offset(n, m, r);
      Offset(n, m, r + 1) == if o + m < n then o + m else o + m - n
  {
    var x := (r - 1) * m;
    assert r * m == x + m && x >= 0;
    ModMovesOn(x, n, m);
  }

  lemma ModMovesOn(x: nat, n: nat, m: nat)
    requires n > m
    ensures (x + m) % n == if x % n + m < n then x % n + m else x % n + m - n
  {
    var q, o := x / n, x % n;
    if o + m < n {
      DivBy(x + m, n, q, o + m);
    } else {
      assert (q + 1) * n == q * n + n;
      DivBy(x + m, n, q + 1, o + m - n);
    }
  }

  /** The places between the end of a round's window and a player who sits it out: how many
      are to be seated before them. */
  function Queued(i: nat, n: nat, m: nat, r: int): nat
    requires i < n && r >= 1 && Benched(i, n, m, r)
  {
    Place(i, n, Offset(n, m, r)) - m
  }

  /** Who sits out a round, has `ahead` players before them leave and stays in a roster of
      the same size, sits out the next round too unless fewer left than were queued before
      them and the window reaches them, or so many left that it reaches them from behind. */
  lemma BenchedAgainIff(i: nat, ahead: nat, n: nat, m: nat, r: int)
    requires ahead <= i < n && r >= 1 && Benched(i, n, m, r)
    ensures Benched(i - ahead, n, m, r + 1)
      <==> !(ahead <= Queued(i, n, m, r) < ahead + m || Queued(i, n, m, r) + n < ahead + m)
  {
    var o := Offset(n, m, r);
    PlaceIs(i, n, o);
    OffsetMovesOn(n, m, r);
    SeatedIff(i - ahead, n, m, r + 1);
  }

  /** The roster after some left and some joined, as the room keeps it: in order, newcomers
      at the end. */
  function Reshuffled(players: seq<Player>, left: set<PlayerId>, joined: seq<Player>): seq<Player> {
    Keep(players, (p: Player) => p.id !in left) + joined
  }

  /** How many before the i-th player leave. */
  function LeaversAhead(players: seq<Player>, left: set<PlayerId>, i: nat): (a: nat)
    requires i <= |players|
    ensures a <= i
  {
    |Keep(players[..i], (p: Player) => p.id in left)|
  }

  lemma {:induction false} StayersAhead(players: seq<Player>, left: set<PlayerId>)
    ensures |Keep(players, (p: Player) => p.id !in left)| + |Keep(players, (p: Player) => p.id in left)| == |players|
  {
    if players != [] {
      var front, last := players[..|players| - 1], players[|players| - 1];
      assert players == front + [last];
      StayersAhead(front, left);
      KeepAppend(front, last, (p: Player) => p.id !in left);
      KeepAppend(front, last, (p: Player) => p.id in left);
    }
  }

  /** Who stays moves up by the number of leavers ahead. */
  lemma MovesUp(players: seq<Player>, left: set<PlayerId>, joined: seq<Player>, i: nat)
    requires i < |players| && players[i].id !in left
    ensures var j := i - LeaversAhead(players, left, i);
      j < |Reshuffled(players, left, joined)| && Reshuffled(players, left, joined)[j] == players[i]
  {
    var stays := (p: Player) => p.id !in left;
    StayersAhead(players[..i], left);
    assert players == players[..i] + ([players[i]] + players[i + 1..]);
    KeepConcat(players[..i], [players[i]] + players[i + 1..], stays);
    KeepConcat([players[i]], players[i + 1..], stays);
    KeepAppend([], players[i], stays);
    assert [] + [players[i]] == [players[i]];
  }

  /** The exact condition for a player who sits out round r of one roster to sit out round
      r + 1 of the next, when as many joined as left. With nobody ahead of them gone, and
      with up to as many gone as were queued before them, two windows that cover the roster
      are enough. */
  lemma SitsOutAgainIff(players: seq<Player>, left: set<PlayerId>, joined: seq<Player>, i: nat, m: nat, r: int)
    requires i < |players| == |Reshuffled(players, left, joined)| && players[i].id !in left && r >= 1
    requires Benched(i, |players|, m, r)
    ensures var n, a, q := |players|, LeaversAhead(players, left, i), Queued(i, |players|, m, r);
      var next := SeatWindow(Reshuffled(players, left, joined), m, r + 1);
      && next[i - a].id == players[i].id
      && (next[i - a].spectator <==> !(a <= q < a + m || q + n < a + m))
      && (a <= q && n <= 2 * m ==> !next[i - a].spectator)
  {
    MovesUp(players, left, joined, i);
    BenchedAgainIff(i, LeaversAhead(players, left, i), |players|, m, r);
    QueueIsShort(i, |players|, m, r);
  }

  lemma QueueIsShort(i: nat, n: nat, m: nat, r: int)
    requires i < n && r >= 1 && Benched(i, n, m, r)
    ensures Queued(i, n, m, r) < n - m
  {
  }

  /** The promise fails once somebody ahead leaves and somebody else joins: with one player
      more than there are seats, the one who sat out round 1 sits out round 2 as well. */
  lemma OneLeavesOneJoins(players: seq<Player>, newcomer: Player, m: nat)
    requires |players| == m + 1 && m >= 1
    ensures var next := SeatWindow(players[1..] + [newcomer], m, 2);
      && SeatWindow(players, m, 1)[m].spectator
      && next[m - 1].id == players[m].id && next[m - 1].spectator
  {
    hide Benched;
    OneShortTwice(m);
  }

  lemma OneShortTwice(m: nat)
    requires m >= 1
    ensures Benched(m, m + 1, m, 1) && Benched(m - 1, m + 1, m, 2)
  {
    hide Place;
    DivBy(0, m + 1, 0, 0);
    DivBy(m, m + 1, 0, m);
    assert Offset(m + 1, m, 1) == 0 && Offset(m + 1, m, 2) == m;
    PlaceIs(m, m + 1, 0);
    PlaceIs(m - 1, m + 1, m);
  }

  /** It fails as well when somebody merely joins, for the window of a longer roster starts
      elsewhere: the first of m + 1 players sits out round m + 1 and, of m + 2, the next. */
  lemma OneJoins(players: seq<Player>, newcomer: Player, m: nat)
    requires |players| == m + 1 && m >= 1
    ensures var next := SeatWindow(players + [newcomer], m, m + 2);
      && SeatWindow(players, m, m + 1)[0].spectator
      && next[0].id == players[0].id && next[0].spectator
  {
    assert m * m == (m - 1) * (m + 1) + 1;
    DivBy(m * m, m + 1, m - 1, 1);
    assert Offset(m + 1, m, m + 1) == 1;
    assert (m + 1) * m == (m - 1) * (m + 2) + 2;
    DivBy((m + 1) * m, m + 2, m - 1, 2);
    assert Offset(m + 2, m, m + 2) == 2;
    SeatedIff(0, m + 1, m, m + 1);
    SeatedIff(0, m + 2, m, m + 2);
  }

  // -------------------------------------------------------- how many are seated

  /** How many of the first k seats in the roster are inside a window starting at o. */
  function SeatedAmong(k: nat, n: nat, m: nat, o: nat): int
    requires o < n && m <= n
  {
    if o + m <= n then
      if k <= o then 0 else if k <= o + m then k - o else m
    else
      (if k <= o + m - n then k else o + m - n) + (if k <= o then 0 else k - o)
  }

  lemma SeatedAmongStep(k: nat, n: nat, m: nat, o: nat)
    requires k < n && o < n && m <= n
    ensures SeatedAmong(k + 1, n, m, o) == SeatedAmong(k, n, m, o) + if Place(k, n, o) >= m then 0 else 1
  {
    hide Place;
    PlaceIs(k, n, o);
  }

  lemma {:induction false} SeatedPrefix(seated: seq<Player>, k: nat, n: nat, m: nat, o: nat)
    requires k <= |seated| == n && o < n && m <= n
    requires forall i :: 0 <= i < n ==> seated[i].spectator == (Place(i, n, o) >= m)
    ensures |Keep(seated[..k], Active)| == SeatedAmong(k, n, m, o)
  {
    hide SeatedAmong, Place, Keep;
    if k == 0 {
      NobodyYet(seated, n, m, o);
    } else {
      PrefixStep(seated, k - 1);
      SeatedAmongStep(k - 1, n, m, o);
      SeatedPrefix(seated, k - 1, n, m, o);
    }
  }

  lemma NobodyYet(seated: seq<Player>, n: nat, m: nat, o: nat)
    requires o < n && m <= n
    ensures |Keep(seated[..0], Active)| == SeatedAmong(0, n, m, o)
  {
  }

  lemma PrefixStep(seated: seq<Player>, k: nat)
    requires k < |seated|
    ensures |Keep(seated[..k + 1], Active)| == |Keep(seated[..k], Active)| + if seated[k].spectator then 0 else 1
  {
    hide Keep;
    assert seated[..k + 1] == seated[..k] + [seated[k]];
    KeepAppend(seated[..k], seated[k], Active);
  }

  /** Each round seats exactly as many as fit. */
  lemma RoundSeatsExactly(players: seq<Player>, m: nat, round: int)
    requires round >= 1 && players != []
    ensures |ActiveIds(SeatWindow(players, m, round))| == if |players| <= m then |players| else m
  {
    hide Place, SeatedAmong;
    var n := |players|;
    var seated := SeatWindow(players, m, round);
    assert seated[..n] == seated;
    if n <= m {
      forall p | p in seated ensures Active(p) {
        var i :| 0 <= i < n && seated[i] == p;
        PlaceIs(i, n, 0);
      }
      KeepAll(seated, Active);
    } else {
      SeatedPrefix(seated, n, n, m, Offset(n, m, round));
      WholeWindow(n, m, Offset(n, m, round));
    }
  }

  lemma WholeWindow(n: nat, m: nat, o: nat)
    requires o < n && m <= n
    ensures SeatedAmong(n, n, m, o) == m
  {
  }
}
