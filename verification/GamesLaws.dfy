/** The laws of the two games, read through the erased interface the room uses. */
module GamesLaws {
  import opened Collections
  import opened Values
  import opened GameEvents
  import opened Games
  import GuessWho
  import GuessWhoLaws
  import Prompts
  import MostLikelyTo
  import MostLikelyToLaws

  ghost predicate Inv(s: GameState) {
    match s
    case NoState => true
    case GuessState(gw) => GuessWhoLaws.Inv(gw)
    case VoteState(mlt) => MostLikelyToLaws.Inv(mlt)
  }

  function Step(g: AnyGame, s: GameState, e: Json): GameState {
    After(s, Reduce(g, s, e))
  }

  lemma InitLaws(g: AnyGame, active: seq<Player>, round: int, random: Random, config: Option<Json>)
    requires Distinct(Map(active, IdOf))
    ensures var s := Init(g, active, round, random, config);
      && Inv(s) && !IsComplete(g, s)
      && RosterOf(s) == Map(active, IdOf) && LeftOf(s) == []
      && PromptOf(s) == Prompts.ChoosePrompt(config, round, Builtin(g))
  {
    match g.rules
    case GuessWhoRules => GuessWhoLaws.InitInv(Map(active, IdOf), round, (random * 4294967296.0).Floor, config);
    case MostLikelyToRules => MostLikelyToLaws.InitInv(Map(active, IdOf), round, config);
  }

  /** No event changes who was seated or the prompt, and only a roster fact says who left. */
  lemma StepLaws(g: AnyGame, s: GameState, e: Json)
    requires BuiltBy(g, s) && Inv(s)
    ensures BuiltBy(g, Step(g, s, e)) && Inv(Step(g, s, e))
    ensures RosterOf(Step(g, s, e)) == RosterOf(s)
    ensures PromptOf(Step(g, s, e)) == PromptOf(s)
    ensures !IsRosterType(e) ==> LeftOf(Step(g, s, e)) == LeftOf(s)
  {
    match s
    case GuessState(gw) =>
      GuessWhoLaws.StepKeepsInv(gw, e);
      GuessWhoLaws.StepKeepsSeats(gw, e);
      hide GuessWhoLaws.Inv, GuessWho.Reduce;
    case VoteState(mlt) =>
      MostLikelyToLaws.StepKeepsInv(mlt, e);
      MostLikelyToLaws.StepKeepsSeats(mlt, e);
      hide MostLikelyToLaws.Inv, MostLikelyTo.Reduce;
  }

  /** A leave fact is always taken, records a seated player once and touches nothing else. */
  lemma LeaveFact(g: AnyGame, s: GameState, id: PlayerId)
    requires BuiltBy(g, s)
    ensures !Reduce(g, s, PlayerLeft(id)).Rejected?
    ensures LeftOf(Step(g, s, PlayerLeft(id)))
      == LeftOf(s) + if Departs(RosterOf(s), LeftOf(s), id) then [id] else []
    ensures IsComplete(g, Step(g, s, PlayerLeft(id))) == IsComplete(g, s)
    ensures StageOf(Step(g, s, PlayerLeft(id))) == StageOf(s)
  {
    assert StrField(PlayerLeft(id), "id") == Some(id);
    assert HasType(PlayerLeft(id), "playerLeft");
    hide GuessWho.BuildCards;
  }

  lemma JoinFact(g: AnyGame, s: GameState, p: Player)
    requires BuiltBy(g, s)
    ensures Reduce(g, s, PlayerJoined(p)) == Unchanged
  {
    var e := PlayerJoined(p);
    var player := Field(e, "player").value;
    assert HasType(e, "playerJoined");
    assert StrField(player, "id") == Some(p.id) && StrField(player, "nickname") == Some(p.nickname);
    assert IsJoinFact(e);
  }

  /** The tally names exactly the players still in the round. */
  lemma ScoresLaws(g: AnyGame, s: GameState)
    requires BuiltBy(g, s) && Inv(s)
    ensures forall score :: score in Scores(g, s) ==>
      score.points >= 0 && score.playerId in RosterOf(s) && score.playerId !in LeftOf(s)
    ensures Distinct(Map(Scores(g, s), (score: Score) => score.playerId))
  {
    match s
    case GuessState(gw) => GuessWhoLaws.TallyIsBounded(gw);
    case VoteState(mlt) => MostLikelyToLaws.TallyCountsLiveVotes(mlt);
  }

  // --------------------------------------------------------------- advance

  function Run(g: AnyGame, s: GameState, events: seq<Json>): GameState {
    if events == [] then s else Step(g, Run(g, s, events[..|events| - 1]), events[|events| - 1])
  }

  lemma {:induction false} RunIsTheGamesRun(g: AnyGame, s: GameState, events: seq<Json>)
    requires BuiltBy(g, s)
    ensures s.GuessState? ==> Run(g, s, events) == GuessState(GuessWhoLaws.Run(s.gw, events))
    ensures s.VoteState? ==> Run(g, s, events) == VoteState(MostLikelyToLaws.Run(s.mlt, events))
  {
    if events != [] {
      RunIsTheGamesRun(g, s, events[..|events| - 1]);
      hide GuessWho.Reduce, MostLikelyTo.Reduce;
    }
  }

  lemma RepeatedAdvance(g: AnyGame, s: GameState, e: Json, events: seq<Json>)
    requires BuiltBy(g, s) && IsAdvance(e) && Reduce(g, s, e).Next?
    ensures Reduce(g, Run(g, Step(g, s, e), events), e) == Unchanged
  {
    hide GuessWho.Reduce, MostLikelyTo.Reduce;
    RunIsTheGamesRun(g, Step(g, s, e), events);
    match s
    case GuessState(gw) => GuessWhoLaws.RepeatedAdvance(gw, e, events);
    case VoteState(mlt) => MostLikelyToLaws.RepeatedAdvance(mlt, e, events);
  }

  // ------------------------------------------------------------- own entry

  ghost predicate OnlyOwnEntry(id: PlayerId, s: GameState, t: GameState) {
    match (s, t)
    case (GuessState(a), GuessState(b)) => GuessWhoLaws.OnlyOwnEntry(id, a, b)
    case (VoteState(a), VoteState(b)) => MostLikelyToLaws.OnlyOwnEntry(id, a, b)
    case _ => s == t
  }

  lemma StepTouchesOwnEntry(g: AnyGame, s: GameState, e: Json, id: PlayerId)
    requires Field(e, "playerId") == Some(Str(id)) && !IsAdvance(e) && !IsRosterType(e)
    ensures OnlyOwnEntry(id, s, Step(g, s, e))
  {
    match s
    case GuessState(gw) =>
      GuessWhoLaws.StepTouchesOwnEntry(gw, e, id);
      hide GuessWho.Reduce;
    case VoteState(mlt) =>
      MostLikelyToLaws.StepTouchesOwnEntry(mlt, e, id);
      hide MostLikelyTo.Reduce;
    case NoState =>
  }

  // ------------------------------------------------------- non-interference

  /** The part of a round in which something is hidden, or Public. */
  datatype Stage = Collecting | Guessing | Voting | Public

  function StageOf(s: GameState): Stage {
    match s
    case NoState => Public
    case GuessState(gw) =>
      (match gw.phase case Collect => Collecting case Guess => Guessing case Reveal => Public)
    case VoteState(mlt) => if mlt.phase == MostLikelyTo.Vote then Voting else Public
  }

  ghost predicate SameButHidden(b: PlayerId, s: GameState, t: GameState) {
    match (s, t)
    case (GuessState(x), GuessState(y)) => GuessWhoLaws.SameButHidden(b, x, y)
    case (VoteState(x), VoteState(y)) => MostLikelyToLaws.SameButHidden(b, x, y)
    case _ => s == t
  }

  /** Two events that differ at most in what B hides at this stage: the text of a submit,
      the author of a guess, the target of a vote. */
  ghost predicate HiddenVariant(b: PlayerId, stage: Stage, e: Json, f: Json) {
    match stage
    case Collecting => GuessWhoLaws.HiddenVariant(b, GuessWho.Collect, e, f)
    case Guessing => GuessWhoLaws.HiddenVariant(b, GuessWho.Guess, e, f)
    case Voting => MostLikelyToLaws.HiddenVariant(b, MostLikelyTo.Vote, e, f)
    case Public => false
  }

  lemma StepKeepsHidden(g: AnyGame, b: PlayerId, s: GameState, t: GameState, e: Json, f: Json)
    requires BuiltBy(g, s) && SameButHidden(b, s, t) && StageOf(s) != Public
    requires e == f || (HiddenVariant(b, StageOf(s), e, f) && Reduce(g, s, e).Next? && Reduce(g, t, f).Next?)
    requires StageOf(Step(g, s, e)) == StageOf(s)
    ensures Reduce(g, s, e).Next? <==> Reduce(g, t, f).Next?
    ensures !Reduce(g, s, e).Next? ==> Reduce(g, t, f) == Reduce(g, s, e)
    ensures SameButHidden(b, Step(g, s, e), Step(g, t, f))
    ensures StageOf(t) == StageOf(s) && StageOf(Step(g, t, f)) == StageOf(Step(g, s, e))
  {
    hide GuessWho.Reduce, MostLikelyTo.Reduce;
    match s
    case GuessState(gw) => GuessWhoLaws.StepKeepsHidden(b, gw, t.gw, e, f);
    case VoteState(mlt) => MostLikelyToLaws.StepKeepsHidden(b, mlt, t.mlt, e, f);
  }

  lemma ViewHides(g: AnyGame, b: PlayerId, s: GameState, t: GameState, viewer: Viewer)
    requires SameButHidden(b, s, t) && StageOf(s) != Public && viewer != Seat(b)
    ensures View(g, t, viewer) == View(g, s, viewer)
  {
    match s
    case GuessState(gw) => GuessWhoLaws.ViewHides(b, gw, t.gw, viewer);
    case VoteState(mlt) => MostLikelyToLaws.ViewHides(b, mlt, t.mlt, viewer);
  }
}
