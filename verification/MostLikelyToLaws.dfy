/** What every round of Most Likely To keeps, whatever events reach it. */
module MostLikelyToLaws {
  import opened Collections
  import opened Values
  import opened GameEvents
  import opened MostLikelyTo
  import opened Rounds

  function Step(s: State, e: Json): State {
    After(s, Reduce(s, e))
  }

  function Run(s: State, events: seq<Json>): State {
    if events == [] then s else Step(Run(s, events[..|events| - 1]), events[|events| - 1])
  }

  ghost predicate Inv(s: State) {
    && Distinct(s.roster) && Distinct(s.left)
    && (forall id :: id in s.left ==> id in s.roster)
    && (forall id :: id in s.votes.vals ==> id in s.roster && s.votes.vals[id] in s.roster)
  }

  lemma InitInv(active: seq<PlayerId>, round: int, config: Option<Json>)
    requires Distinct(active)
    ensures Inv(Init(active, round, config))
  {
  }

  lemma StepKeepsInv(s: State, e: Json)
    requires Inv(s)
    ensures Inv(Step(s, e))
  {
    hide Decode;
  }

  /** No event changes who was seated or the prompt, and only a roster fact says who left. */
  lemma StepKeepsSeats(s: State, e: Json)
    ensures Step(s, e).roster == s.roster && Step(s, e).prompt == s.prompt
    ensures !IsRosterType(e) ==> Step(s, e).left == s.left
  {
  }

  lemma {:induction false} RunKeepsInv(s: State, events: seq<Json>)
    requires Inv(s)
    ensures Inv(Run(s, events))
  {
    if events != [] {
      RunKeepsInv(s, events[..|events| - 1]);
      StepKeepsInv(Run(s, events[..|events| - 1]), events[|events| - 1]);
    }
  }

  // --------------------------------------------------------------- scoring

  function Column(candidates: seq<PlayerId>, targets: seq<PlayerId>): seq<int> {
    Map(candidates, (id: PlayerId) => Votes(targets, id))
  }

  lemma {:induction false} NoTargets(candidates: seq<PlayerId>)
    ensures Sum(Column(candidates, [])) == 0
  {
    if candidates != [] {
      var front := candidates[..|candidates| - 1];
      NoTargets(front);
      assert Column(candidates, [])[..|front|] == Column(front, []);
    }
  }

  /** Every vote for a candidate lands in exactly one column. */
  lemma {:induction false} EveryVoteCountsOnce(candidates: seq<PlayerId>, targets: seq<PlayerId>)
    requires Distinct(candidates) && forall t :: t in targets ==> t in candidates
    ensures Sum(Column(candidates, targets)) == |targets|
  {
    if targets == [] {
      NoTargets(candidates);
    } else {
      var front, last := targets[..|targets| - 1], targets[|targets| - 1];
      assert targets == front + [last];
      EveryVoteCountsOnce(candidates, front);
      assert last in candidates;
      var i :| 0 <= i < |candidates| && candidates[i] == last;
      SumOneChanged(Column(candidates, front), Column(candidates, targets), i);
    }
  }

  lemma TargetsAreSeated(s: State)
    requires Inv(s)
    ensures forall t :: t in ValueList(s.votes) ==> t in s.roster
  {
    forall t | t in ValueList(s.votes) ensures t in s.roster {
      var i :| 0 <= i < |s.votes.keys| && ValueList(s.votes)[i] == t;
    }
  }

  lemma TallyIsTheCandidates(s: State)
    ensures Map(Tally(s), Points) == Column(Candidates(s), LiveTargets(s))
    ensures Map(Tally(s), (score: Score) => score.playerId) == Candidates(s)
    ensures forall score :: score in Tally(s) ==> score.points >= 0 && score.playerId in Candidates(s)
  {
    hide LiveTargets, Votes;
  }

  /** The points add up to the votes whose target is still there; a vote for somebody
      who left is void, and nobody who left is on the tally. */
  lemma TallyCountsLiveVotes(s: State)
    requires Inv(s)
    ensures ScoreTotal(Tally(s)) == |LiveTargets(s)|
    ensures LiveTargets(s) == Keep(ValueList(s.votes), (target: PlayerId) => target in s.roster && target !in s.left)
    ensures forall score :: score in Tally(s) ==>
      score.points >= 0 && score.playerId in s.roster && score.playerId !in s.left
    ensures Distinct(Map(Tally(s), (score: Score) => score.playerId))
  {
    hide Tally, ValuesOf, Column;
    TargetsAreSeated(s);
    KeepDistinct(s.roster, (id: PlayerId) => id !in s.left);
    KeepSame(ValueList(s.votes), (target: PlayerId) => target !in s.left,
             (target: PlayerId) => target in s.roster && target !in s.left);
    EveryVoteCountsOnce(Candidates(s), LiveTargets(s));
    TallyIsTheCandidates(s);
  }

  /** The voters who named a player. */
  function VotersFor(keys: seq<PlayerId>, votes: map<PlayerId, PlayerId>, target: PlayerId): set<PlayerId> {
    set v | v in keys && v in votes && votes[v] == target
  }

  lemma OneMoreVoter(keys: seq<PlayerId>, votes: map<PlayerId, PlayerId>, target: PlayerId, k: PlayerId)
    requires k in votes && k !in keys
    ensures |VotersFor(keys + [k], votes, target)| == |VotersFor(keys, votes, target)| + if votes[k] == target then 1 else 0
  {
    assert VotersFor(keys + [k], votes, target)
      == VotersFor(keys, votes, target) + if votes[k] == target then {k} else {};
  }

  lemma {:induction false} CountIsVoters(keys: seq<PlayerId>, votes: map<PlayerId, PlayerId>, target: PlayerId)
    requires Distinct(keys) && forall k :: k in keys ==> k in votes
    ensures Votes(ValuesOf(keys, votes), target) == |VotersFor(keys, votes, target)|
  {
    hide Keep, ValuesOf, VotersFor;
    if keys == [] {
      NoVoters(votes, target);
    } else {
      var front, last := keys[..|keys| - 1], keys[|keys| - 1];
      assert keys == front + [last] && last !in front;
      CountIsVoters(front, votes, target);
      ValuesAppend(front, votes, last);
      KeepAppend(ValuesOf(front, votes), votes[last], (t: PlayerId) => t == target);
      OneMoreVoter(front, votes, target, last);
    }
  }

  lemma NoVoters(votes: map<PlayerId, PlayerId>, target: PlayerId)
    ensures Votes(ValuesOf([], votes), target) == 0 && VotersFor([], votes, target) == {}
  {
  }

  lemma {:induction false} LiveOnesFirst(targets: seq<PlayerId>, left: seq<PlayerId>, target: PlayerId)
    requires target !in left
    ensures Votes(Keep(targets, (t: PlayerId) => t !in left), target) == Votes(targets, target)
  {
    if targets != [] {
      var front, last := targets[..|targets| - 1], targets[|targets| - 1];
      assert targets == front + [last];
      LiveOnesFirst(front, left, target);
      KeepAppend(front, last, (t: PlayerId) => t !in left);
      KeepAppend(front, last, (t: PlayerId) => t == target);
      KeepAppend(Keep(front, (t: PlayerId) => t !in left), last, (t: PlayerId) => t == target);
    }
  }

  /** A player on the tally has exactly as many points as there are players whose vote
      names them. */
  lemma PointsAreVoters(s: State, score: Score)
    requires score in Tally(s)
    ensures score.points == |VotersFor(s.votes.keys, s.votes.vals, score.playerId)|
  {
    CountIsVoters(s.votes.keys, s.votes.vals, score.playerId);
    LiveOnesFirst(ValueList(s.votes), s.left, score.playerId);
  }

  // -------------------------------------------------------------- progress

  /** The count every screen shows never exceeds its total, and reaches it exactly when
      everyone still in the round has voted. */
  lemma VoteProgress(s: State, viewer: Viewer)
    requires Inv(s) && s.phase == Vote
    ensures var v := ViewFor(s, viewer);
      && v.votedCount <= v.total
      && (v.votedCount == v.total <==> forall id :: id in s.roster && id !in s.left ==> id in s.votes.vals)
  {
    assert forall id :: id in s.votes.keys <==> id in s.votes.vals;
    ProgressCounts(s.roster, s.left, s.votes.keys);
  }

  /** The number of players who voted never falls, not even when somebody who was voted
      for leaves. */
  lemma {:induction false} VoteCountNeverFalls(s: State, events: seq<Json>)
    ensures |s.votes.keys| <= |Run(s, events).votes.keys|
    ensures s.votes.keys <= Run(s, events).votes.keys
  {
    if events != [] {
      VoteCountNeverFalls(s, events[..|events| - 1]);
      hide Decode;
    }
  }

  lemma {:induction false} ResultsAreFinal(s: State, events: seq<Json>)
    requires s.phase == Results
    ensures Run(s, events).phase == Results
  {
    if events != [] {
      ResultsAreFinal(s, events[..|events| - 1]);
      hide Decode;
    }
  }

  /** Once an advance has been applied, any later copy of it in the round does nothing. */
  lemma RepeatedAdvance(s: State, e: Json, events: seq<Json>)
    requires IsAdvance(e) && Reduce(s, e).Next?
    ensures Reduce(Run(Step(s, e), events), e) == Unchanged
  {
    ResultsAreFinal(Step(s, e), events);
  }

  // --------------------------------------------------------- own entry only

  ghost predicate OnlyOwnEntry(id: PlayerId, s: State, t: State) {
    && t == s.(votes := t.votes)
    && t.votes.vals - {id} == s.votes.vals - {id}
  }

  lemma StepTouchesOwnEntry(s: State, e: Json, id: PlayerId)
    requires Field(e, "playerId") == Some(Str(id))
    requires !IsAdvance(e) && !IsRosterType(e)
    ensures OnlyOwnEntry(id, s, Step(s, e))
  {
  }

  // ------------------------------------------------------- non-interference

  /** Two states that differ at most in whom B voted for. */
  ghost predicate SameButHidden(b: PlayerId, s: State, t: State) {
    && t == s.(votes := t.votes)
    && (s.phase != Vote ==> t.votes == s.votes)
    && t.votes.keys == s.votes.keys
    && (forall p :: p != b && p in s.votes.vals ==> t.votes.vals[p] == s.votes.vals[p])
  }

  ghost predicate HiddenVariant(b: PlayerId, phase: Phase, e: Json, f: Json) {
    match (Decode(e), Decode(f))
    case (Some(CastVote(p, _)), Some(CastVote(q, _))) => phase == Vote && p == b == q
    case _ => false
  }

  /** The same vote, or two votes of B, taken in both. */
  lemma VotesKeepHidden(b: PlayerId, s: State, t: State, id: PlayerId, target: PlayerId, target': PlayerId)
    requires SameButHidden(b, s, t) && s.phase == Vote && (target == target' || id == b)
    ensures SameButHidden(b, s.(votes := Put(s.votes, id, target)), t.(votes := Put(t.votes, id, target')))
  {
    PutSameKeys(s.votes, t.votes, id, target, target');
    hide WellKeyed;
  }

  lemma SameEventKeepsHidden(b: PlayerId, s: State, t: State, e: Event)
    requires SameButHidden(b, s, t) && s.phase == Vote && After(s, Apply(s, e)).phase == s.phase
    ensures Apply(s, e).Next? <==> Apply(t, e).Next?
    ensures !Apply(s, e).Next? ==> Apply(t, e) == Apply(s, e)
    ensures SameButHidden(b, After(s, Apply(s, e)), After(t, Apply(t, e)))
  {
    hide Put, WellKeyed;
    if e.CastVote? {
      VotesKeepHidden(b, s, t, e.playerId, e.target, e.target);
    }
  }

  lemma StepKeepsHidden(b: PlayerId, s: State, t: State, e: Json, f: Json)
    requires SameButHidden(b, s, t) && s.phase != Results
    requires e == f || (HiddenVariant(b, s.phase, e, f) && Reduce(s, e).Next? && Reduce(t, f).Next?)
    requires Step(s, e).phase == s.phase
    ensures Reduce(s, e).Next? <==> Reduce(t, f).Next?
    ensures !Reduce(s, e).Next? ==> Reduce(t, f) == Reduce(s, e)
    ensures SameButHidden(b, Step(s, e), Step(t, f))
  {
    hide Decode, SameButHidden, Put, WellKeyed;
    if e == f {
      if Decode(e).Some? {
        SameEventKeepsHidden(b, s, t, Decode(e).value);
      }
    } else {
      VotesKeepHidden(b, s, t, b, Decode(e).value.target, Decode(f).value.target);
    }
  }

  lemma ViewHides(b: PlayerId, s: State, t: State, viewer: Viewer)
    requires SameButHidden(b, s, t) && s.phase != Results && viewer != Seat(b)
    ensures ViewFor(t, viewer) == ViewFor(s, viewer)
  {
    assert viewer.Seat? ==> (viewer.id in s.votes.vals <==> viewer.id in s.votes.keys);
  }
}
