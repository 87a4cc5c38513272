/** The limits of apps/server/src/socketServer.ts: the token bucket of one socket, the flood
    counter around it, and the number of sockets per client address. Reals stand for the
    code's floating-point numbers. */
module Limits {
  import opened Values

  // ------------------------------------------------------------ token bucket

  datatype Bucket = Bucket(perSecond: real, burst: real, tokens: real, last: int)

  function NewBucket(perSecond: real, burst: real, now: int): Bucket {
    Bucket(perSecond, burst, burst, now)
  }

  /** What the rate alone grants between two moments, given in milliseconds. */
  function Earned(perSecond: real, from: int, to: int): real {
    (to - from) as real / 1000.0 * perSecond
  }

  function Refilled(b: Bucket, now: int): Bucket {
    var tokens := b.tokens + Earned(b.perSecond, b.last, now);
    b.(tokens := if tokens < b.burst then tokens else b.burst, last := now)
  }

  predicate Takes(b: Bucket, now: int) {
    Refilled(b, now).tokens >= 1.0
  }

  function Taken(b: Bucket, now: int): Bucket {
    var r := Refilled(b, now);
    if Takes(b, now) then r.(tokens := r.tokens - 1.0) else r
  }

  /** The bucket after messages at these moments. */
  function After(b: Bucket, times: seq<int>): Bucket {
    if times == [] then b else Taken(After(b, times[..|times| - 1]), times[|times| - 1])
  }

  function Accepted(b: Bucket, times: seq<int>): nat {
    if times == [] then 0
    else
      var front := times[..|times| - 1];
      Accepted(b, front) + if Takes(After(b, front), times[|times| - 1]) then 1 else 0
  }

  /** The clock does not go backward. */
  ghost predicate Forward(start: int, times: seq<int>) {
    && (times != [] ==> start <= times[0])
    && forall i, j :: 0 <= i <= j < |times| ==> times[i] <= times[j]
  }

  ghost predicate Sound(b: Bucket) {
    b.perSecond >= 0.0 && b.burst >= 0.0 && 0.0 <= b.tokens <= b.burst
  }

  lemma EarnedSplits(rate: real, a: int, b: int, c: int)
    ensures Earned(rate, a, c) == Earned(rate, a, b) + Earned(rate, b, c)
  {
    var x, y := (b - a) as real / 1000.0, (c - b) as real / 1000.0;
    assert (c - a) as real / 1000.0 == x + y;
    assert (x + y) * rate == x * rate + y * rate;
  }

  lemma EarnedGrows(rate: real, a: int, b: int)
    requires rate >= 0.0 && a <= b
    ensures Earned(rate, a, b) >= 0.0
  {
  }

  lemma {:induction false} AfterIs(b: Bucket, times: seq<int>)
    requires Sound(b) && Forward(b.last, times)
    ensures var t := After(b, times);
      && Sound(t) && t.perSecond == b.perSecond && t.burst == b.burst
      && t.last == if times == [] then b.last else times[|times| - 1]
  {
    if times != [] {
      var front := times[..|times| - 1];
      AfterIs(b, front);
      EarnedGrows(b.perSecond, After(b, front).last, times[|times| - 1]);
    }
  }

  /** Every accepted message is paid for by a token there was or by one the rate granted. */
  lemma {:induction false} TokensPay(b: Bucket, times: seq<int>)
    requires Sound(b) && Forward(b.last, times)
    ensures Accepted(b, times) as real + After(b, times).tokens
      <= b.tokens + Earned(b.perSecond, b.last, After(b, times).last)
  {
    if times != [] {
      var front, now := times[..|times| - 1], times[|times| - 1];
      var mid := After(b, front);
      TokensPay(b, front);
      AfterIs(b, front);
      EarnedSplits(b.perSecond, b.last, mid.last, now);
      hide Earned;
    }
  }

  lemma {:induction false} AfterAppends(b: Bucket, early: seq<int>, late: seq<int>)
    ensures After(b, early + late) == After(After(b, early), late)
    ensures Accepted(b, early + late) == Accepted(b, early) + Accepted(After(b, early), late)
  {
    if late == [] {
      assert early + late == early;
    } else {
      var k := |late| - 1;
      assert (early + late)[..|early + late| - 1] == early + late[..k];
      AfterAppends(b, early, late[..k]);
    }
  }

  /** Over any stretch of a run, from its first message to its last, a socket gets through
      at most the burst plus what the rate grants in that time. */
  lemma AcceptedIsBounded(perSecond: real, burst: real, start: int, early: seq<int>, late: seq<int>)
    requires perSecond >= 0.0 && burst >= 0.0 && Forward(start, early + late) && late != []
    ensures var b := NewBucket(perSecond, burst, start);
      (Accepted(b, early + late) - Accepted(b, early)) as real
        <= burst + Earned(perSecond, late[0], late[|late| - 1])
  {
    var b := NewBucket(perSecond, burst, start);
    forall i, j | 0 <= i <= j < |early| ensures early[i] <= early[j] {
      assert (early + late)[i] <= (early + late)[j];
    }
    assert early != [] ==> (early + late)[0] == early[0];
    AfterIs(b, early);
    AfterAppends(b, early, late);
    StretchIsBounded(After(b, early), early, late);
  }

  lemma StretchIsBounded(b: Bucket, early: seq<int>, late: seq<int>)
    requires Sound(b) && late != []
    requires early == [] ==> b.last <= late[0]
    requires early != [] ==> b.last == early[|early| - 1]
    requires forall i, j :: 0 <= i <= j < |early + late| ==> (early + late)[i] <= (early + late)[j]
    ensures Accepted(b, late) as real <= b.burst + Earned(b.perSecond, late[0], late[|late| - 1])
  {
    assert forall i :: 0 <= i < |late| ==> late[i] == (early + late)[|early| + i];
    if early != [] {
      assert (early + late)[|early| - 1] <= (early + late)[|early|];
    }
    EarnedGrows(b.perSecond, b.last, late[0]);
    var full := Refilled(b, late[0]);
    SameFromRefilled(b, late);
    TokensPay(full, late);
    AfterIs(full, late);
  }

  /** A bucket refilled at the moment of the first message behaves as it would have. */
  lemma {:induction false} SameFromRefilled(b: Bucket, times: seq<int>)
    requires Sound(b) && times != [] && b.last <= times[0]
    ensures After(Refilled(b, times[0]), times) == After(b, times)
    ensures Accepted(Refilled(b, times[0]), times) == Accepted(b, times)
  {
    var front := times[..|times| - 1];
    if front == [] {
      EarnedGrows(b.perSecond, b.last, times[0]);
      assert Refilled(Refilled(b, times[0]), times[0]) == Refilled(b, times[0]);
    } else {
      assert front[0] == times[0];
      SameFromRefilled(b, front);
    }
  }

  /** Messages at least one token's time apart. */
  ghost predicate Spaced(perSecond: real, times: seq<int>) {
    forall i, j :: 0 <= i && j == i + 1 && j < |times| ==> Earned(perSecond, times[i], times[j]) >= 1.0
  }

  /** With a burst of at least one, a sender who keeps the pace is never refused. */
  lemma {:induction false} SteadySendersAreNeverRefused(perSecond: real, burst: real, start: int, times: seq<int>)
    requires perSecond >= 0.0 && burst >= 1.0 && Forward(start, times) && Spaced(perSecond, times)
    ensures Accepted(NewBucket(perSecond, burst, start), times) == |times|
  {
    var b := NewBucket(perSecond, burst, start);
    if times != [] {
      var k := |times| - 1;
      var front := times[..k];
      SteadySendersAreNeverRefused(perSecond, burst, start, front);
      AfterIs(b, front);
      if k == 0 {
        EarnedGrows(perSecond, start, times[0]);
      } else {
        assert Earned(perSecond, times[k - 1], times[k]) >= 1.0;
      }
      hide Earned;
    }
  }

  /** The moment a stretch of a run begins: the start of the bucket, one of its messages, or
      the message that comes now. */
  function From(start: int, times: seq<int>, i: int, now: int): int
    requires -1 <= i <= |times|
  {
    if i < 0 then start else if i < |times| then times[i] else now
  }

  /** The messages accepted in the stretch so far. */
  function AcceptedSince(b: Bucket, times: seq<int>, i: int): int
    requires -1 <= i <= |times|
  {
    Accepted(b, times) - if i < 0 then 0 else Accepted(b, times[..i])
  }

  /** What is in the bucket is what a full one has left of some stretch of the run. */
  lemma {:induction false} SinceItWasFull(b: Bucket, times: seq<int>) returns (i: int)
    requires Sound(b) && b.tokens == b.burst && Forward(b.last, times)
    ensures -1 <= i <= |times| && (i == |times| ==> times == [])
    ensures var t := After(b, times);
      t.tokens == b.burst + Earned(b.perSecond, From(b.last, times, i, b.last), t.last) - AcceptedSince(b, times, i) as real
  {
    i := -1;
    if times != [] {
      var front, now := times[..|times| - 1], times[|times| - 1];
      var mid := After(b, front);
      var k := SinceItWasFull(b, front);
      AfterIs(b, front);
      if mid.tokens + Earned(b.perSecond, mid.last, now) < b.burst {
        i := if k < |front| then k else -1;
        var from := From(b.last, times, i, b.last);
        EarnedSplits(b.perSecond, from, mid.last, now);
        assert i >= 0 ==> times[..i] == front[..i];
        hide Earned;
      } else {
        i := |front|;
        assert times[..i] == front;
      }
    }
  }

  /** With one more message now, the stretch stays within the burst and what the rate granted
      in it. */
  ghost predicate WithinBudget(b: Bucket, times: seq<int>, i: int, now: int)
    requires -1 <= i <= |times|
  {
    (AcceptedSince(b, times, i) + 1) as real <= b.burst + Earned(b.perSecond, From(b.last, times, i, now), now)
  }

  /** A message is accepted exactly when that keeps every stretch of the run, back to any
      earlier message or to the start, within the burst and what the rate granted in it. */
  lemma AcceptedExactlyWithinBudget(perSecond: real, burst: real, start: int, times: seq<int>, now: int)
    requires perSecond >= 0.0 && burst >= 0.0 && Forward(start, times + [now])
    ensures var b := NewBucket(perSecond, burst, start);
      Takes(After(b, times), now) <==> forall i :: -1 <= i <= |times| ==> WithinBudget(b, times, i, now)
  {
    hide WithinBudget, Takes, After;
    var b := NewBucket(perSecond, burst, start);
    EarlierMoments(start, times, now);
    if Takes(After(b, times), now) {
      forall i | -1 <= i <= |times| ensures WithinBudget(b, times, i, now) {
        TakenIsWithin(perSecond, burst, start, times, now, i);
      }
    } else {
      var i := RefusedIsOver(b, times, now);
    }
  }

  lemma EarlierMoments(start: int, times: seq<int>, now: int)
    requires Forward(start, times + [now])
    ensures Forward(start, times) && start <= now && forall i :: 0 <= i < |times| ==> start <= times[i] <= now
  {
    var all := times + [now];
    assert forall i :: 0 <= i < |times| ==> all[i] == times[i];
    assert all[|times|] == now;
  }

  lemma TakenIsWithin(perSecond: real, burst: real, start: int, times: seq<int>, now: int, i: int)
    requires perSecond >= 0.0 && burst >= 0.0 && Forward(start, times + [now]) && -1 <= i <= |times|
    requires Takes(After(NewBucket(perSecond, burst, start), times), now)
    ensures WithinBudget(NewBucket(perSecond, burst, start), times, i, now)
  {
    hide WithinBudget, Takes, After, Forward;
    if i < 0 {
      WithinSinceStart(NewBucket(perSecond, burst, start), times, now);
    } else {
      WithinSinceMessage(perSecond, burst, start, times, now, i);
    }
  }

  lemma OneMoreTaken(b: Bucket, times: seq<int>, now: int)
    requires Takes(After(b, times), now)
    ensures Accepted(b, times + [now]) == Accepted(b, times) + 1
  {
    assert (times + [now])[..|times|] == times;
    hide Takes, After;
  }

  lemma WithinSinceStart(b: Bucket, times: seq<int>, now: int)
    requires Sound(b) && b.tokens == b.burst && Forward(b.last, times + [now]) && Takes(After(b, times), now)
    ensures WithinBudget(b, times, -1, now)
  {
    hide Takes, After, Accepted, Earned, Forward;
    OneMoreTaken(b, times, now);
    TokensPay(b, times + [now]);
    AfterIs(b, times + [now]);
  }

  lemma WithinSinceMessage(perSecond: real, burst: real, start: int, times: seq<int>, now: int, i: nat)
    requires perSecond >= 0.0 && burst >= 0.0 && Forward(start, times + [now]) && i <= |times|
    requires Takes(After(NewBucket(perSecond, burst, start), times), now)
    ensures WithinBudget(NewBucket(perSecond, burst, start), times, i, now)
  {
    hide Takes, After, Accepted, Earned, Forward;
    var b, all := NewBucket(perSecond, burst, start), times + [now];
    OneMoreTaken(b, times, now);
    assert all == all[..i] + all[i..];
    assert all[..i] == times[..i];
    AcceptedIsBounded(perSecond, burst, start, all[..i], all[i..]);
  }

  lemma RefusedIsOver(b: Bucket, times: seq<int>, now: int) returns (i: int)
    requires Sound(b) && b.tokens == b.burst && Forward(b.last, times) && !Takes(After(b, times), now)
    ensures -1 <= i <= |times| && !WithinBudget(b, times, i, now)
  {
    AfterIs(b, times);
    var t := After(b, times);
    var k := SinceItWasFull(b, times);
    if t.tokens + Earned(b.perSecond, t.last, now) < b.burst {
      i := if k < |times| then k else -1;
      EarnedSplits(b.perSecond, From(b.last, times, i, now), t.last, now);
      hide Earned;
    } else {
      i := |times|;
      assert times[..i] == times;
    }
  }

  class TokenBucket {
    const perSecond: real
    const burst: real
    var tokens: real
    var last: int

    ghost function Value(): Bucket
      reads this
    {
      Bucket(perSecond, burst, tokens, last)
    }

    constructor (perSecond: real, burst: real, now: int)
      ensures Value() == NewBucket(perSecond, burst, now)
    {
      this.perSecond, this.burst, this.tokens, this.last := perSecond, burst, burst, now;
    }

    method Take(now: int) returns (ok: bool)
      modifies this
      ensures ok == Takes(old(Value()), now)
      ensures Value() == Taken(old(Value()), now)
    {
      var earned := tokens + (now - last) as real / 1000.0 * perSecond;
      tokens := if earned < burst then earned else burst;
      last := now;
      if tokens < 1.0 {
        return false;
      }
      tokens := tokens - 1.0;
      return true;
    }
  }

  // ----------------------------------------------------------- flood counter

  const MAX_DROPPED: nat := 200

  /** How many of the latest messages in a row were refused. */
  function Streak(accepted: seq<bool>): nat {
    if accepted == [] || accepted[|accepted| - 1] then 0
    else Streak(accepted[..|accepted| - 1]) + 1
  }

  /** The streak is the length of the longest refused suffix. */
  lemma {:induction false} StreakIs(accepted: seq<bool>, n: nat)
    requires n <= |accepted|
    ensures Streak(accepted) <= |accepted|
    ensures Streak(accepted) >= n <==> forall i :: |accepted| - n <= i < |accepted| ==> !accepted[i]
  {
    if n > 0 {
      var front := accepted[..|accepted| - 1];
      StreakIs(front, n - 1);
      assert forall i :: 0 <= i < |front| ==> front[i] == accepted[i];
    } else if accepted != [] {
      StreakIs(accepted[..|accepted| - 1], 0);
    }
  }

  /** What becomes of one message: handed to the hub, or refused, with the one notice of a
      flood, or with the end of the socket. */
  datatype Verdict = Handed | Refused(notice: bool, close: bool)

  /** The wiring of one socket, with the outcome of every message so far. */
  class SocketWire {
    const bucket: TokenBucket
    var dropped: nat
    ghost var outcomes: seq<bool>

    ghost predicate Valid()
      reads this
    {
      dropped == Streak(outcomes)
    }

    constructor (perSecond: real, burst: real, now: int)
      ensures Valid() && fresh(bucket) && bucket.Value() == NewBucket(perSecond, burst, now) && outcomes == []
    {
      bucket := new TokenBucket(perSecond, burst, now);
      dropped := 0;
      outcomes := [];
    }

    /** A message is handed on exactly when the bucket has a token; the socket is closed
        exactly when this refusal is at least the two-hundredth in a row. */
    method OnMessage(now: int) returns (v: Verdict)
      requires Valid()
      modifies this, bucket
      ensures Valid() && bucket.Value() == Taken(old(bucket.Value()), now)
      ensures outcomes == old(outcomes) + [Takes(old(bucket.Value()), now)]
      ensures v == if Takes(old(bucket.Value()), now) then Handed
                   else Refused(Streak(outcomes) == 1, Streak(outcomes) >= MAX_DROPPED)
    {
      var ok := bucket.Take(now);
      assert (outcomes + [ok])[..|outcomes|] == outcomes;
      outcomes := outcomes + [ok];
      if !ok {
        dropped := dropped + 1;
        return Refused(dropped == 1, dropped >= MAX_DROPPED);
      }
      dropped := 0;
      return Handed;
    }
  }

  // ---------------------------------------------------- sockets per address

  function OpenFrom(open: map<nat, string>, ip: string): set<nat> {
    set s | s in open && open[s] == ip
  }

  function CountOf(perIp: map<string, int>, ip: string): int {
    if ip in perIp then perIp[ip] else 0
  }

  ghost predicate CountsMatch(open: map<nat, string>, perIp: map<string, int>) {
    && (forall ip :: CountOf(perIp, ip) == |OpenFrom(open, ip)|)
    && (forall ip :: ip in perIp ==> perIp[ip] > 0)
  }

  lemma OneMoreSocket(open: map<nat, string>, s: nat, ip: string, other: string)
    requires s !in open
    ensures |OpenFrom(open[s := ip], other)| == |OpenFrom(open, other)| + if other == ip then 1 else 0
  {
    assert OpenFrom(open[s := ip], other) == OpenFrom(open, other) + if other == ip then {s} else {};
  }

  lemma OneLessSocket(open: map<nat, string>, s: nat, other: string)
    requires s in open
    ensures |OpenFrom(open - {s}, other)| == |OpenFrom(open, other)| - if other == open[s] then 1 else 0
  {
    assert OpenFrom(open - {s}, other) == OpenFrom(open, other) - if other == open[s] then {s} else {};
  }

  lemma CountedOneMore(open: map<nat, string>, perIp: map<string, int>, s: nat, ip: string)
    requires CountsMatch(open, perIp) && s !in open
    ensures CountsMatch(open[s := ip], perIp[ip := CountOf(perIp, ip) + 1])
  {
    hide OpenFrom;
    var more, counts := open[s := ip], perIp[ip := CountOf(perIp, ip) + 1];
    forall other ensures CountOf(counts, other) == |OpenFrom(more, other)| {
      OneMoreSocket(open, s, ip, other);
      assert CountOf(perIp, other) == |OpenFrom(open, other)|;
    }
    assert CountOf(perIp, ip) == |OpenFrom(open, ip)|;
  }

  lemma CountedOneLess(open: map<nat, string>, perIp: map<string, int>, s: nat)
    requires CountsMatch(open, perIp) && s in open
    ensures var left := CountOf(perIp, open[s]) - 1;
      CountsMatch(open - {s}, if left <= 0 then perIp - {open[s]} else perIp[open[s] := left])
  {
    hide OpenFrom;
    var ip := open[s];
    var left := CountOf(perIp, ip) - 1;
    var less, counts := open - {s}, if left <= 0 then perIp - {ip} else perIp[ip := left];
    forall other ensures CountOf(counts, other) == |OpenFrom(less, other)| {
      OneLessSocket(open, s, other);
      assert CountOf(perIp, other) == |OpenFrom(open, other)|;
    }
  }

  /** The sockets of the server, by the address each was accepted from. */
  class SocketCounts {
    const maxConnsPerIp: nat
    var perIp: map<string, int>
    ghost var open: map<nat, string>

    ghost predicate Valid()
      reads this
    {
      && CountsMatch(open, perIp)
      && forall ip :: |OpenFrom(open, ip)| <= maxConnsPerIp
    }

    constructor (maxConnsPerIp: nat)
      ensures Valid() && open == map[]
    {
      this.maxConnsPerIp := maxConnsPerIp;
      perIp := map[];
      open := map[];
      new;
      assert forall ip :: OpenFrom(open, ip) == {};
    }

    /** A socket is taken unless its address holds as many as it may. */
    method OnConnection(s: nat, ip: string) returns (taken: bool)
      requires Valid() && s !in open
      modifies this
      ensures Valid()
      ensures taken == (|OpenFrom(old(open), ip)| < maxConnsPerIp)
      ensures open == if taken then old(open)[s := ip] else old(open)
    {
      var count := CountOf(perIp, ip) + 1;
      assert count == |OpenFrom(open, ip)| + 1;
      if count > maxConnsPerIp {
        return false;
      }
      CountedOneMore(open, perIp, s, ip);
      ghost var more := open[s := ip];
      forall other ensures |OpenFrom(more, other)| <= maxConnsPerIp {
        OneMoreSocket(open, s, ip, other);
      }
      hide OpenFrom, CountsMatch;
      perIp := perIp[ip := count];
      open := open[s := ip];
      return true;
    }

    /** The one close of a socket that was taken. */
    method OnClose(ghost s: nat, ip: string)
      requires Valid() && s in open && open[s] == ip
      modifies this
      ensures Valid() && open == old(open) - {s}
    {
      CountedOneLess(open, perIp, s);
      assert |OpenFrom(open, ip)| >= 1 by {
        OneLessSocket(open, s, ip);
      }
      ghost var less := open - {s};
      forall other ensures |OpenFrom(less, other)| <= maxConnsPerIp {
        OneLessSocket(open, s, other);
      }
      assert CountOf(perIp, ip) == |OpenFrom(open, ip)|;
      hide OpenFrom, CountsMatch;
      var left := (if ip in perIp then perIp[ip] else 1) - 1;
      if left <= 0 {
        perIp := perIp - {ip};
      } else {
        perIp := perIp[ip := left];
      }
      open := open - {s};
    }
  }
}
