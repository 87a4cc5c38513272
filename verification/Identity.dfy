/** Resume tokens and round bookkeeping over whole runs of a room. */
module Identity {
  import opened Collections
  import opened Values
  import opened GameEvents
  import opened Rounds
  import opened Rooms
  import opened RoomLaws
  import Rotation
  import Games
  import GamesLaws

  // ---------------------------------------------------------------- tokens

  lemma {:induction false} FindTokenIs(keys: seq<PlayerId>, vals: map<PlayerId, Token>, token: Token)
    requires forall k :: k in keys ==> k in vals
    ensures var r := FindToken(keys, vals, token);
      && (r.Some? ==> r.value in keys && vals[r.value] == token)
      && (r.None? ==> forall k :: k in keys ==> vals[k] != token)
  {
    if keys != [] {
      FindTokenIs(keys[1..], vals, token);
    }
  }

  /** A token resolves to a player exactly when it is that player's. */
  lemma TokenResolves(room: Room, used: Issued, token: Token, id: PlayerId)
    requires Identities(room, used)
    ensures PlayerIdForToken(room, token) == Some(id)
      <==> id in room.tokens.vals && room.tokens.vals[id] == token
  {
    FindTokenIs(room.tokens.keys, room.tokens.vals, token);
    assert id in room.tokens.vals <==> id in room.tokens.keys;
  }

  ghost predicate LeavesAs(step: Step, id: PlayerId) {
    step.event == Leave && step.actor == Seat(id)
  }

  /** The only events that touch the tokens: a join mints one, a leave drops one. */
  lemma TokensAfter(room: Room, step: Step, registry: Games.Registry)
    ensures var after := Take(room, step, registry).tokens.vals;
      || after == room.tokens.vals
      || (step.event.Join? && after == room.tokens.vals[step.draw.id := step.draw.secret])
      || (step.event == Leave && step.actor.Seat? && after == room.tokens.vals - {step.actor.id})
    ensures step.event == Leave && step.actor.Seat? ==>
      Take(room, step, registry).tokens.vals == room.tokens.vals - {step.actor.id}
  {
    hide ForwardRoster, OnStartGame, OnGameEvent, OnEndGame, Keep, Parked;
    match step.event
    case Join(_, _) =>
    case Leave =>
    case SelectGame(_) =>
    case ConfigureGame(_) =>
    case StartGame => StartMoves(room, step.actor, registry, step.draw);
    case GameEvent(e) => PlayMoves(room, e, registry);
    case EndGame => EndMoves(room, step.actor, registry);
  }

  lemma TokenSurvivesStep(room: Room, step: Step, registry: Games.Registry, used: Issued, id: PlayerId)
    requires Inv(room, registry, used) && Fresh(used, step.draw)
    requires id in room.tokens.vals && !LeavesAs(step, id)
    ensures id in Take(room, step, registry).tokens.vals
    ensures Take(room, step, registry).tokens.vals[id] == room.tokens.vals[id]
  {
    TokensAfter(room, step, registry);
    hide Take, Coupled, Played, DistinctIds;
  }

  /** A minted token resolves to its own id after every run without that player's leave. */
  lemma {:induction false} TokenOutlivesRuns(
      room: Room, steps: seq<Step>, registry: Games.Registry, used: Issued, id: PlayerId)
    requires Inv(room, registry, used) && FreshRun(used, steps)
    requires id in room.tokens.vals && forall s :: s in steps ==> !LeavesAs(s, id)
    ensures id in Run(room, steps, registry).tokens.vals
    ensures Run(room, steps, registry).tokens.vals[id] == room.tokens.vals[id]
    ensures PlayerIdForToken(Run(room, steps, registry), room.tokens.vals[id]) == Some(id)
  {
    if steps != [] {
      var front := steps[..|steps| - 1];
      TokenOutlivesRuns(room, front, registry, used, id);
      RunKeepsInv(room, front, registry, used);
      TokenSurvivesStep(Run(room, front, registry), steps[|steps| - 1], registry, SpendAll(used, front), id);
    }
    RunKeepsInv(room, steps, registry, used);
    TokenResolves(Run(room, steps, registry), SpendAll(used, steps), room.tokens.vals[id], id);
  }

  ghost predicate Unclaimed(room: Room, token: Token) {
    forall id :: id in room.tokens.vals ==> room.tokens.vals[id] != token
  }

  lemma DeadStaysDeadStep(room: Room, step: Step, registry: Games.Registry, used: Issued, token: Token)
    requires Inv(room, registry, used) && Fresh(used, step.draw)
    requires token in used.secrets && Unclaimed(room, token)
    ensures Unclaimed(Take(room, step, registry), token)
  {
    TokensAfter(room, step, registry);
    hide Take, Coupled, Played, DistinctIds;
  }

  lemma {:induction false} DeadStaysDead(
      room: Room, steps: seq<Step>, registry: Games.Registry, used: Issued, token: Token)
    requires Inv(room, registry, used) && FreshRun(used, steps)
    requires token in used.secrets && Unclaimed(room, token)
    ensures Unclaimed(Run(room, steps, registry), token)
    ensures token in SpendAll(used, steps).secrets
  {
    if steps != [] {
      var front := steps[..|steps| - 1];
      DeadStaysDead(room, front, registry, used, token);
      RunKeepsInv(room, front, registry, used);
      DeadStaysDeadStep(Run(room, front, registry), steps[|steps| - 1], registry, SpendAll(used, front), token);
    }
  }

  /** Once its player has left, a token resolves to nobody, after every further run. */
  lemma TokenDiesWithLeave(
      room: Room, id: PlayerId, draw: Draw, steps: seq<Step>, registry: Games.Registry, used: Issued)
    requires Inv(room, registry, used) && Fresh(used, draw) && FreshRun(Spend(used, draw), steps)
    requires id in room.tokens.vals
    ensures var after := Take(room, Step(Leave, Seat(id), draw), registry);
      PlayerIdForToken(Run(after, steps, registry), room.tokens.vals[id]) == None
  {
    var token := room.tokens.vals[id];
    var leave := Step(Leave, Seat(id), draw);
    var after := Take(room, leave, registry);
    TakeKeepsInv(room, leave, registry, used);
    TokensAfter(room, leave, registry);
    DeadStaysDead(after, steps, registry, Spend(used, draw), token);
    var last := Run(after, steps, registry);
    FindTokenIs(last.tokens.keys, last.tokens.vals, token);
  }

  // --------------------------------------------------------- room and game

  lemma RosterIsTheWindow(room: Room, game: Games.AnyGame, draw: Draw)
    requires DistinctIds(room.players) && room.players != []
    ensures |Games.RosterOf(RoundStarted(room, game, draw).gameState)|
      == if |room.players| <= Capacity(game) then |room.players| else Capacity(game)
  {
    hide SeatWindow, Games.Init, Active, Capacity, GamesLaws.Inv, DistinctIds, Games.IsComplete, RoundStarted, Games.RosterOf,
         Games.LeftOf, Games.PromptOf, PlayingIds, Ids;
    var round := room.round + 1;
    var seated := SeatWindow(room.players, Capacity(game), round);
    Rotation.RoundSeatsExactly(room.players, Capacity(game), round);
    SeatsAreTheRoster(room.players, Capacity(game), round);
    StartedIs(room, game, draw);
    GamesLaws.InitLaws(game, Keep(seated, Active), round, draw.random, room.gameConfig);
  }

  /** With the registry's bounds, a round starts with at least minPlayers and at most
      maxPlayers of the players, exactly as many as fit. */
  lemma RoundSizes(room: Room, registry: Games.Registry, used: Issued, draw: Draw)
    requires Inv(room, registry, used) && OnStartGame(room, Host, registry, draw).Changed?
    ensures var game := ActiveGame(room, registry).value;
      var n := |Games.RosterOf(OnStartGame(room, Host, registry, draw).room.gameState)|;
      && game.minPlayers <= n <= game.maxPlayers
      && n == if |room.players| <= game.maxPlayers then |room.players| else game.maxPlayers
  {
    var game := ActiveGame(room, registry).value;
    hide RoundStarted, SessionComplete, Coupled, Played;
    assert Games.InBounds(game) && room.players != [];
    RosterIsTheWindow(room, game, draw);
  }

  /** While a round runs, the seated filter drops nobody: what is folded at its end is
      everything the game scored. */
  lemma FilterDropsNobody(room: Room, registry: Games.Registry, used: Issued, e: Json)
    requires Inv(room, registry, used) && room.phase == InGame
    ensures var game := ActiveGame(room, registry).value;
      && RoundScores(room.players, room.gameState, game) == Games.Scores(game, room.gameState)
      && (!IsRosterType(e) ==>
            var state := GamesLaws.Step(game, room.gameState, e);
            RoundScores(room.players, state, game) == Games.Scores(game, state))
  {
    var game := ActiveGame(room, registry).value;
    NobodyDropped(room.players, room.gameState, game);
    if !IsRosterType(e) {
      GamesLaws.StepLaws(game, room.gameState, e);
      NobodyDropped(room.players, GamesLaws.Step(game, room.gameState, e), game);
    }
  }

  lemma NobodyDropped(players: seq<Player>, state: Games.GameState, game: Games.AnyGame)
    requires Games.BuiltBy(game, state) && GamesLaws.Inv(state)
    requires PlayingIds(players) == InRound(state)
    ensures RoundScores(players, state, game) == Games.Scores(game, state)
  {
    GamesLaws.ScoresLaws(game, state);
    PlayingAreThere(players);
    var seated := Ids(players);
    hide Games.Scores, GamesLaws.Inv, Games.BuiltBy;
    forall score | score in Games.Scores(game, state) ensures score.playerId in seated {
      assert score.playerId in InRound(state);
    }
    KeepAll(Games.Scores(game, state), (s: Score) => s.playerId in seated);
  }
}
