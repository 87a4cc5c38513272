/** Where points come from and where they go, over whole runs of a room. */
module ScoreKeeping {
  import opened Collections
  import opened Values
  import opened GameEvents
  import opened Rounds
  import opened Rooms
  import opened RoomLaws
  import Games
  import GamesLaws
  import Identity

  /** All the points a room holds: on the tally and parked in the ledger. */
  function Wealth(room: Room): int {
    Total(room.sessionScores) + Total(room.scoreLedger)
  }

  /** The parked score a leaver's own score overwrites: an earlier leaver's of the same
      nickname. */
  function Overwritten(room: Room, id: PlayerId): int {
    match FindPlayer(room.players, id)
    case Some(leaver) =>
      if id in room.sessionScores.vals then At(room.scoreLedger, LedgerKey(leaver.nickname)) else 0
    case None => 0
  }

  /** What the round scored, if this step ended it. */
  function Folded(room: Room, step: Step, registry: Games.Registry): int {
    var after := Take(room, step, registry);
    if room.phase == InGame && after.phase == ShowScores && ActiveGame(room, registry).Some?
    then ScoreTotal(RoundScores(after.players, after.gameState, ActiveGame(room, registry).value)) else 0
  }

  /** The exact change of a room's wealth at one step. */
  function Change(room: Room, step: Step, registry: Games.Registry): int {
    match step.event
    case Join(_, _) => 0
    case Leave => (match step.actor case Host => 0 case Seat(id) => -Overwritten(room, id))
    case SelectGame(id) => if OnSelectGame(room, id, step.actor, registry).Changed? then -Wealth(room) else 0
    case ConfigureGame(c) => if OnConfigureGame(room, c, step.actor).Changed? then -Total(room.sessionScores) else 0
    case StartGame => 0
    case GameEvent(_) => Folded(room, step, registry)
    case EndGame => Folded(room, step, registry)
  }

  lemma JoinMovesPoints(room: Room, nickname: string, registry: Games.Registry, draw: Draw)
    requires draw.id !in room.sessionScores.vals
    ensures Wealth(Seated(room, nickname, registry, draw)) == Wealth(room)
  {
    var key := LedgerKey(nickname);
    hide ForwardRoster, Total;
    if key in room.scoreLedger.vals {
      TotalPut(room.sessionScores, draw.id, room.scoreLedger.vals[key]);
      TotalOmit(room.scoreLedger, key);
    }
  }

  lemma {:induction false} FindPlayerFinds(players: seq<Player>, id: PlayerId)
    ensures FindPlayer(players, id).Some? <==> id in Ids(players)
    ensures FindPlayer(players, id).Some? ==> FindPlayer(players, id).value in players && FindPlayer(players, id).value.id == id
  {
    if players != [] {
      FindPlayerFinds(players[1..], id);
      assert players == [players[0]] + players[1..];
    }
  }

  lemma LeaveParksPoints(room: Room, id: PlayerId, registry: Games.Registry)
    requires room.sessionScores.vals.Keys <= Ids(room.players)
    ensures Wealth(Without(room, id, registry)) == Wealth(room) - Overwritten(room, id)
  {
    FindPlayerFinds(room.players, id);
    hide ForwardRoster, Total, FindPlayer, Ids;
    TotalOmit(room.sessionScores, id);
    if id in room.sessionScores.vals {
      var leaver := FindPlayer(room.players, id).value;
      TotalPut(room.scoreLedger, LedgerKey(leaver.nickname), room.sessionScores.vals[id]);
    }
  }

  lemma FinishAddsScores(room: Room, game: Games.AnyGame, state: Games.GameState)
    ensures Wealth(Finished(room, game, state))
      == Wealth(room) + ScoreTotal(RoundScores(room.players, state, game))
  {
    FoldAddsExactly(room.sessionScores, RoundScores(room.players, state, game));
    hide Total, Fold, RoundScores;
  }

  lemma StartKeepsPoints(room: Room, game: Games.AnyGame, draw: Draw)
    ensures Wealth(RoundStarted(room, game, draw)) == Wealth(room)
    ensures RoundStarted(room, game, draw).phase == InGame
  {
  }

  lemma TotalOfEmpty()
    ensures Total(Empty<int>()) == 0
  {
  }

  /** The books balance at every step. */
  lemma StepBalances(room: Room, step: Step, registry: Games.Registry, used: Issued)
    requires Inv(room, registry, used) && Fresh(used, step.draw)
    ensures Wealth(Take(room, step, registry)) == Wealth(room) + Change(room, step, registry)
  {
    TotalOfEmpty();
    hide Total, Fold, RoundScores, Coupled, Played, Games.Reduce, ScoreTotal, ForwardRoster, Parked, SeatWindow, Games.Init,
         FindPlayer, Overwritten, DistinctIds, SessionComplete, Games.IsComplete;
    match step.event
    case Join(nickname, _) =>
      assert step.draw.id !in Ids(room.players);
      JoinMovesPoints(room, NormaliseNickname(nickname), registry, step.draw);
      hide Seated, Ids;
    case Leave =>
      match step.actor {
        case Host =>
        case Seat(id) => LeaveParksPoints(room, id, registry);
      }
    case SelectGame(_) =>
    case ConfigureGame(_) =>
    case StartGame =>
      if OnStartGame(room, step.actor, registry, step.draw).Changed? {
        StartKeepsPoints(room, ActiveGame(room, registry).value, step.draw);
        hide RoundStarted;
      }
    case GameEvent(e) =>
      if ActiveGame(room, registry).Some? {
        var game := ActiveGame(room, registry).value;
        FinishAddsScores(room, game, After(room.gameState, Games.Reduce(game, room.gameState, e)));
      }
    case EndGame =>
      if ActiveGame(room, registry).Some? {
        FinishAddsScores(room, ActiveGame(room, registry).value, room.gameState);
      }
  }

  function TotalChange(room: Room, steps: seq<Step>, registry: Games.Registry): int {
    if steps == [] then 0
    else
      var front := steps[..|steps| - 1];
      TotalChange(room, front, registry) + Change(Run(room, front, registry), steps[|steps| - 1], registry)
  }

  /** Conservation over whole runs: the wealth at the end is the wealth at the start plus
      what the ended rounds scored, less the overwritten slots and what resets dropped. */
  lemma {:induction false} RunBalances(room: Room, steps: seq<Step>, registry: Games.Registry, used: Issued)
    requires Inv(room, registry, used) && FreshRun(used, steps)
    ensures Wealth(Run(room, steps, registry)) == Wealth(room) + TotalChange(room, steps, registry)
  {
    if steps != [] {
      var front := steps[..|steps| - 1];
      RunBalances(room, front, registry, used);
      RunKeepsInv(room, front, registry, used);
      StepBalances(Run(room, front, registry), steps[|steps| - 1], registry, SpendAll(used, front));
    }
  }

  /** A changed question set starts the tally over but leaves the parked scores, so a
      score from the old set can come back with its nickname; only selecting a game
      clears both. */
  lemma ConfigureKeepsParkedScores(room: Room, config: Option<Json>, registry: Games.Registry)
    requires room.phase != InGame && !SameBlob(config, room.gameConfig)
    ensures OnConfigureGame(room, config, Host).Changed?
    ensures Wealth(OnConfigureGame(room, config, Host).room) == Total(room.scoreLedger)
    ensures forall id: GameId :: id in registry ==>
      OnSelectGame(room, id, Host, registry).Changed? && Wealth(OnSelectGame(room, id, Host, registry).room) == 0
  {
    TotalOfEmpty();
    hide Total;
  }

  // ----------------------------------------------------------- single fold

  /** The room moved into a round at this step. */
  predicate Starts(room: Room, step: Step, registry: Games.Registry) {
    step.event.StartGame? && Reduce(room, step.event, step.actor, registry, step.draw).Changed?
  }

  /** The tally took in a round's scores at this step. */
  predicate Folds(room: Room, step: Step, registry: Games.Registry) {
    var after := Take(room, step, registry);
    && ActiveGame(room, registry).Some?
    && room.phase == InGame && after.phase == ShowScores
    && after.sessionScores == Fold(room.sessionScores,
         RoundScores(after.players, after.gameState, ActiveGame(room, registry).value))
  }

  function CountStarts(room: Room, steps: seq<Step>, registry: Games.Registry): nat {
    if steps == [] then 0
    else
      var front := steps[..|steps| - 1];
      CountStarts(room, front, registry) + if Starts(Run(room, front, registry), steps[|steps| - 1], registry) then 1 else 0
  }

  function CountFolds(room: Room, steps: seq<Step>, registry: Games.Registry): nat {
    if steps == [] then 0
    else
      var front := steps[..|steps| - 1];
      CountFolds(room, front, registry) + if Folds(Run(room, front, registry), steps[|steps| - 1], registry) then 1 else 0
  }

  function Running(room: Room): nat {
    if room.phase == InGame then 1 else 0
  }

  lemma StepFoldsOnce(room: Room, step: Step, registry: Games.Registry)
    ensures Running(Take(room, step, registry)) - Running(room)
      == (if Starts(room, step, registry) then 1 else 0) - (if Folds(room, step, registry) then 1 else 0)
  {
    hide OnJoin, OnLeave, OnStartGame, OnGameEvent, OnEndGame, Fold, RoundScores;
    match step.event
    case Join(_, _) => RosterMoves(room, step, registry);
    case Leave => RosterMoves(room, step, registry);
    case SelectGame(_) =>
    case ConfigureGame(_) =>
    case StartGame => StartMoves(room, step.actor, registry, step.draw);
    case GameEvent(e) => PlayMoves(room, e, registry);
    case EndGame => EndMoves(room, step.actor, registry);
  }

  /** Every round that was started has been folded exactly once, but for one that is
      still running. */
  lemma {:induction false} EachRoundFoldsOnce(room: Room, steps: seq<Step>, registry: Games.Registry)
    ensures CountStarts(room, steps, registry) + Running(room)
      == CountFolds(room, steps, registry) + Running(Run(room, steps, registry))
  {
    if steps != [] {
      var front := steps[..|steps| - 1];
      EachRoundFoldsOnce(room, front, registry);
      StepFoldsOnce(Run(room, front, registry), steps[|steps| - 1], registry);
      hide Take, Folds, Starts;
    }
  }

  // ---------------------------------------------------------- late advance

  /** The run stays in the round it begins in: no accepted start, no accepted selection. */
  predicate SameRound(room: Room, steps: seq<Step>, registry: Games.Registry) {
    if steps == [] then true
    else
      var front, last := steps[..|steps| - 1], steps[|steps| - 1];
      && SameRound(room, front, registry)
      && (last.event.StartGame? || last.event.SelectGame? ==>
            !Reduce(Run(room, front, registry), last.event, last.actor, registry, last.draw).Changed?)
  }

  /** Within a round the game only sees events, and keeps its selection; what it has seen
      is a list of events applied in order. */
  lemma StepIsAGameStep(room: Room, step: Step, registry: Games.Registry, g: Games.AnyGame) returns (events: seq<Json>)
    requires room.phase != Lobby && ActiveGame(room, registry) == Some(g)
    requires step.event.StartGame? || step.event.SelectGame? ==>
      !Reduce(room, step.event, step.actor, registry, step.draw).Changed?
    ensures var after := Take(room, step, registry);
      && after.phase != Lobby && (room.phase == ShowScores ==> after.phase == ShowScores)
      && ActiveGame(after, registry) == Some(g)
      && |events| <= 1
      && after.gameState == if events == [] then room.gameState else GamesLaws.Step(g, room.gameState, events[0])
  {
    hide Games.Reduce, RoundScores, Fold, SeatWindow, Games.Init, Parked, Games.IsComplete, SessionComplete, Keep, Put, Omit;
    match step.event
    case Join(nickname, _) =>
      events := if room.phase == InGame && OnJoin(room, nickname, step.event.reconnectToken, registry, step.draw).Changed?
                then [PlayerJoined(NewPlayer(room, NormaliseNickname(nickname), step.draw))] else [];
    case Leave =>
      events := if room.phase == InGame && step.actor.Seat? then [PlayerLeft(step.actor.id)] else [];
    case GameEvent(e) =>
      events := if OnGameEvent(room, e, registry).Changed? then [e] else [];
    case _ => events := [];
  }

  lemma {:induction false} RoundIsAGameRun(room: Room, steps: seq<Step>, registry: Games.Registry, g: Games.AnyGame)
    returns (events: seq<Json>)
    requires room.phase != Lobby && ActiveGame(room, registry) == Some(g)
    requires SameRound(room, steps, registry)
    ensures var after := Run(room, steps, registry);
      && after.phase != Lobby && (room.phase == ShowScores ==> after.phase == ShowScores)
      && ActiveGame(after, registry) == Some(g)
      && after.gameState == GamesLaws.Run(g, room.gameState, events)
  {
    events := [];
    if steps != [] {
      var front, last := steps[..|steps| - 1], steps[|steps| - 1];
      var before := RoundIsAGameRun(room, front, registry, g);
      var more := StepIsAGameStep(Run(room, front, registry), last, registry, g);
      hide Take, GamesLaws.Step;
      events := before + more;
      if more == [] {
        assert events == before;
      } else {
        assert events[..|events| - 1] == before;
      }
    }
  }

  lemma AdvanceApplied(room: Room, e: Json, registry: Games.Registry, used: Issued, g: Games.AnyGame)
    requires Inv(room, registry, used) && room.phase == InGame && ActiveGame(room, registry) == Some(g)
    requires OnGameEvent(room, e, registry).Changed?
    ensures Games.Reduce(g, room.gameState, e).Next?
    ensures var after := OnGameEvent(room, e, registry).room;
      && after.gameState == GamesLaws.Step(g, room.gameState, e)
      && after.phase != Lobby && ActiveGame(after, registry) == Some(g)
  {
    hide Games.Reduce, Identities, GamesLaws.Inv, Games.IsComplete, RoundScores, Fold;
  }

  lemma UnchangedIsQuiet(room: Room, e: Json, registry: Games.Registry, used: Issued, g: Games.AnyGame)
    requires Inv(room, registry, used) && room.phase != Lobby && IsAdvance(e)
    requires ActiveGame(room, registry) == Some(g) && Games.Reduce(g, room.gameState, e) == Unchanged
    ensures OnGameEvent(room, e, registry) == Same
  {
    hide Games.Reduce, Identities, GamesLaws.Inv, Games.IsComplete, RoundScores, Fold;
  }

  /** A repeated or late copy of an advance that was applied changes nothing for the rest
      of the round, through its scores included. */
  lemma LateAdvanceIsQuiet(
      room: Room, e: Json, actor: Viewer, draw: Draw, steps: seq<Step>, registry: Games.Registry, used: Issued)
    requires Inv(room, registry, used) && room.phase == InGame && IsAdvance(e)
    requires OnGameEvent(room, e, registry).Changed?
    requires Fresh(used, draw) && FreshRun(Spend(used, draw), steps)
    requires SameRound(OnGameEvent(room, e, registry).room, steps, registry)
    ensures OnGameEvent(Run(OnGameEvent(room, e, registry).room, steps, registry), e, registry) == Same
  {
    hide Inv, OnGameEvent, Take, Games.Reduce, GamesLaws.Run, GamesLaws.Step, ActiveGame, SameRound;
    var after := OnGameEvent(room, e, registry).room;
    var g := AdvanceLeads(room, e, actor, draw, steps, registry, used);
    var events := RoundIsAGameRun(after, steps, registry, g);
    GamesLaws.RepeatedAdvance(g, room.gameState, e, events);
    UnchangedIsQuiet(Run(after, steps, registry), e, registry, SpendAll(Spend(used, draw), steps), g);
  }

  /** An applied advance leads to a room that keeps its invariant for the rest of the run,
      with the game that took it. */
  lemma AdvanceLeads(
      room: Room, e: Json, actor: Viewer, draw: Draw, steps: seq<Step>, registry: Games.Registry, used: Issued)
    returns (g: Games.AnyGame)
    requires Inv(room, registry, used) && room.phase == InGame && IsAdvance(e)
    requires OnGameEvent(room, e, registry).Changed?
    requires Fresh(used, draw) && FreshRun(Spend(used, draw), steps)
    ensures var after := OnGameEvent(room, e, registry).room;
      && Inv(Run(after, steps, registry), registry, SpendAll(Spend(used, draw), steps))
      && Games.BuiltBy(g, room.gameState) && Games.Reduce(g, room.gameState, e).Next?
      && after.gameState == GamesLaws.Step(g, room.gameState, e)
      && after.phase != Lobby && ActiveGame(after, registry) == Some(g)
  {
    hide OnGameEvent, Games.Reduce, GamesLaws.Step, GamesLaws.Inv, Identities;
    g := PlayedGame(room, registry, used);
    var step := Step(GameEvent(e), actor, draw);
    TakeIsGameEvent(room, e, actor, draw, registry);
    TakeKeepsInv(room, step, registry, used);
    RunKeepsInv(OnGameEvent(room, e, registry).room, steps, registry, Spend(used, draw));
    AdvanceApplied(room, e, registry, used, g);
  }

  lemma PlayedGame(room: Room, registry: Games.Registry, used: Issued) returns (g: Games.AnyGame)
    requires Inv(room, registry, used) && room.phase == InGame
    ensures ActiveGame(room, registry) == Some(g) && Games.BuiltBy(g, room.gameState)
  {
    g := ActiveGame(room, registry).value;
  }

  lemma TakeIsGameEvent(room: Room, e: Json, actor: Viewer, draw: Draw, registry: Games.Registry)
    ensures Take(room, Step(GameEvent(e), actor, draw), registry) == Becomes(room, OnGameEvent(room, e, registry))
  {
    hide OnGameEvent;
  }
}
