/** What an event leaves behind in a round of Most Likely To, said in the fields of the
    event. */
module MostLikelyToRecords {
  import opened Collections
  import opened Values
  import opened GameEvents
  import opened MostLikelyTo
  import MostLikelyToLaws

  predicate IsVote(e: Json, id: PlayerId, target: PlayerId) {
    HasType(e, "vote") && StrField(e, "playerId") == Some(id) && StrField(e, "target") == Some(target)
  }

  /** A seated player votes, while the vote is on, for a seated player who is still there. */
  predicate MayVote(s: State, id: PlayerId, target: PlayerId) {
    s.phase == Vote && id in s.roster && target in s.roster && target !in s.left
  }

  /** A vote is taken exactly when it may be, and replaces the player's earlier one. */
  lemma VoteIsRecorded(s: State, e: Json, id: PlayerId, target: PlayerId)
    requires IsVote(e, id, target)
    ensures Reduce(s, e).Next? <==> MayVote(s, id, target)
    ensures !Reduce(s, e).Unchanged?
    ensures MayVote(s, id, target) ==>
      var t := Reduce(s, e).state;
      t == s.(votes := t.votes) && t.votes.vals == s.votes.vals[id := target]
  {
  }

  /** The advance is taken while the vote is on, and shows the results. */
  lemma AdvanceIsTaken(s: State, e: Json)
    requires HasType(e, "advance") && StrField(e, "from") == Some("vote")
    ensures Reduce(s, e) == if s.phase == Vote then Next(s.(phase := Results)) else Unchanged
  {
  }

  function VoteOf(s: State, id: PlayerId): Option<PlayerId> {
    if id in s.votes.vals then Some(s.votes.vals[id]) else None
  }

  /** The target of the last vote of a player the run took. */
  ghost function LastVote(s: State, events: seq<Json>, id: PlayerId): Option<PlayerId> {
    if events == [] then VoteOf(s, id)
    else
      var front, e := events[..|events| - 1], events[|events| - 1];
      var target := StrField(e, "target");
      if target.Some? && IsVote(e, id, target.value) && MayVote(MostLikelyToLaws.Run(s, front), id, target.value)
      then target else LastVote(s, front, id)
  }

  lemma VoteLeaves(s: State, e: Json, id: PlayerId, target: PlayerId)
    requires IsVote(e, id, target) && MayVote(s, id, target)
    ensures VoteOf(MostLikelyToLaws.Step(s, e), id) == Some(target)
  {
    VoteIsRecorded(s, e, id, target);
    hide Reduce;
  }

  lemma OtherEventsKeepVote(s: State, e: Json, id: PlayerId)
    requires forall target :: IsVote(e, id, target) ==> !MayVote(s, id, target)
    ensures VoteOf(MostLikelyToLaws.Step(s, e), id) == VoteOf(s, id)
  {
    match Decode(e)
    case Some(CastVote(player, target)) => assert IsVote(e, player, target);
    case _ =>
  }

  /** At the end of any run a player's vote is the last one taken from them. */
  lemma {:induction false} VoteIsTheLastTaken(s: State, events: seq<Json>, id: PlayerId)
    ensures VoteOf(MostLikelyToLaws.Run(s, events), id) == LastVote(s, events, id)
  {
    if events != [] {
      hide MostLikelyToLaws.Step, MayVote, VoteOf;
      var front, e := events[..|events| - 1], events[|events| - 1];
      var mid := MostLikelyToLaws.Run(s, front);
      VoteIsTheLastTaken(s, front, id);
      var target := StrField(e, "target");
      if target.Some? && IsVote(e, id, target.value) && MayVote(mid, id, target.value) {
        VoteLeaves(mid, e, id, target.value);
      } else {
        OtherEventsKeepVote(mid, e, id);
      }
    }
  }
}
