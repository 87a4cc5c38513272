/** What a room keeps over every run of events: who is in it, who can prove it, and that
    the room and the running game agree on who is playing. */
module RoomLaws {
  import opened Collections
  import opened Values
  import opened GameEvents
  import opened Rounds
  import opened Rooms
  import Rotation
  import Games
  import GamesLaws

  /** The ids and secrets handed out so far, anywhere. */
  datatype Issued = Issued(ids: set<PlayerId>, secrets: set<Token>)

  /** `id()` and `secret()` never repeat. */
  ghost predicate Fresh(used: Issued, draw: Draw) {
    draw.id !in used.ids && draw.secret !in used.secrets
  }

  function Spend(used: Issued, draw: Draw): Issued {
    Issued(used.ids + {draw.id}, used.secrets + {draw.secret})
  }

  datatype Step = Step(event: RoomEvent, actor: Viewer, draw: Draw)

  function Take(room: Room, step: Step, registry: Games.Registry): Room {
    Becomes(room, Reduce(room, step.event, step.actor, registry, step.draw))
  }

  function Run(room: Room, steps: seq<Step>, registry: Games.Registry): Room {
    if steps == [] then room
    else Take(Run(room, steps[..|steps| - 1], registry), steps[|steps| - 1], registry)
  }

  function SpendAll(used: Issued, steps: seq<Step>): Issued {
    if steps == [] then used
    else Spend(SpendAll(used, steps[..|steps| - 1]), steps[|steps| - 1].draw)
  }

  ghost predicate FreshRun(used: Issued, steps: seq<Step>) {
    steps == [] ||
    (var front := steps[..|steps| - 1];
     FreshRun(used, front) && Fresh(SpendAll(used, front), steps[|steps| - 1].draw))
  }

  // ------------------------------------------------------------- invariant

  ghost predicate Injective(tokens: map<PlayerId, Token>) {
    forall a, b :: a in tokens && b in tokens && tokens[a] == tokens[b] ==> a == b
  }

  /** Player ids are distinct and at most 50, the tokens are exactly theirs, and the tally
      holds nobody else. */
  ghost predicate Identities(room: Room, used: Issued) {
    && DistinctIds(room.players) && |room.players| <= MAX_PLAYERS
    && Ids(room.players) <= used.ids
    && room.tokens.vals.Keys == Ids(room.players)
    && Injective(room.tokens.vals)
    && (forall id :: id in room.tokens.vals ==> room.tokens.vals[id] in used.secrets)
    && room.sessionScores.vals.Keys <= Ids(room.players)
  }

  function PlayingIds(players: seq<Player>): set<PlayerId> {
    set p | p in players && Active(p) :: p.id
  }

  function InRound(s: Games.GameState): set<PlayerId> {
    set id | id in Games.RosterOf(s) && id !in Games.LeftOf(s)
  }

  /** The state was built by the selected game and keeps that game's invariant. */
  ghost predicate Played(room: Room, registry: Games.Registry) {
    && ActiveGame(room, registry).Some?
    && Games.BuiltBy(ActiveGame(room, registry).value, room.gameState)
    && GamesLaws.Inv(room.gameState)
  }

  /** While a round runs, the players who do not spectate are exactly the round's roster
      without its leavers, and the round is not over. */
  ghost predicate Coupled(room: Room, registry: Games.Registry, used: Issued) {
    && Played(room, registry)
    && !Games.IsComplete(ActiveGame(room, registry).value, room.gameState)
    && PlayingIds(room.players) == InRound(room.gameState)
    && Elements(Games.RosterOf(room.gameState)) <= used.ids
  }

  ghost predicate Inv(room: Room, registry: Games.Registry, used: Issued) {
    && Games.WellFormed(registry)
    && Identities(room, used)
    && (room.phase == InGame ==> Coupled(room, registry, used))
    && (room.phase == ShowScores ==> Played(room, registry))
  }

  lemma CreateRoomInv(code: RoomCode, hostId: PlayerId, registry: Games.Registry, used: Issued)
    requires Games.WellFormed(registry)
    ensures Inv(CreateRoom(code, hostId), registry, used)
  {
  }

  // ------------------------------------------------- which event moves what

  /** The fields an event of the running game leaves alone. */
  ghost predicate OnlyGameMoves(room: Room, after: Room) {
    after == room.(gameState := after.gameState, phase := after.phase, sessionScores := after.sessionScores)
  }

  lemma PlayMoves(room: Room, e: Json, registry: Games.Registry)
    ensures var after := Becomes(room, OnGameEvent(room, e, registry));
      && OnlyGameMoves(room, after)
      && (room.phase != InGame ==> after == room)
      && (after.phase == room.phase || (ActiveGame(room, registry).Some? &&
            after == Finished(room, ActiveGame(room, registry).value, after.gameState)))
  {
    hide Games.Reduce, Games.IsComplete, Fold, RoundScores, IsAdvance, IsRosterType;
  }

  lemma EndMoves(room: Room, actor: Viewer, registry: Games.Registry)
    ensures var after := Becomes(room, OnEndGame(room, actor, registry));
      && OnlyGameMoves(room, after)
      && (room.phase != InGame ==> after == room)
      && (after == room || (ActiveGame(room, registry).Some? &&
            after == Finished(room, ActiveGame(room, registry).value, after.gameState)))
  {
    hide Fold, RoundScores;
  }

  lemma StartMoves(room: Room, actor: Viewer, registry: Games.Registry, draw: Draw)
    ensures var r := OnStartGame(room, actor, registry, draw);
      r.Changed? ==>
        && r.room == room.(phase := InGame, gameState := r.room.gameState, players := r.room.players, round := room.round + 1)
        && room.phase != InGame
  {
    hide SeatWindow, Games.Init, SessionComplete;
  }

  lemma RosterMoves(room: Room, step: Step, registry: Games.Registry)
    requires step.event.Join? || step.event == Leave
    ensures var after := Take(room, step, registry);
      after == room.(players := after.players, tokens := after.tokens, gameState := after.gameState,
                     sessionScores := after.sessionScores, scoreLedger := after.scoreLedger, closed := after.closed)
  {
    hide ForwardRoster, Parked, Keep, Put, Omit, NormaliseNickname, PlayerIdForToken, LedgerKey;
  }

  // ------------------------------------------------------------ each event

  lemma RosterFactKeepsState(room: Room, fact: Json, registry: Games.Registry)
    requires Played(room, registry)
    ensures Played(room.(gameState := ForwardRoster(room, fact, registry)), registry)
    ensures Games.RosterOf(ForwardRoster(room, fact, registry)) == Games.RosterOf(room.gameState)
  {
    GamesLaws.StepLaws(ActiveGame(room, registry).value, room.gameState, fact);
    hide GamesLaws.Inv, Games.Reduce;
  }

  lemma AppendIdentities(players: seq<Player>, p: Player)
    ensures Ids(players + [p]) == Ids(players) + {p.id}
    ensures DistinctIds(players) && p.id !in Ids(players) ==> DistinctIds(players + [p])
  {
    assert forall q :: q in players ==> q.id in Ids(players);
    forall id ensures id in Ids(players + [p]) <==> id in Ids(players) + {p.id} {
      if id in Ids(players) {
        var q :| q in players && q.id == id;
        assert q in players + [p];
      }
      assert p in players + [p];
    }
  }

  lemma FreshToken(tokens: map<PlayerId, Token>, id: PlayerId, secret: Token)
    requires Injective(tokens) && id !in tokens
    requires forall k :: k in tokens ==> tokens[k] != secret
    ensures Injective(tokens[id := secret])
  {
  }

  lemma SeatedIdentities(room: Room, nickname: string, registry: Games.Registry, draw: Draw, used: Issued)
    requires Identities(room, used) && Fresh(used, draw) && |room.players| < MAX_PLAYERS
    ensures Identities(Seated(room, nickname, registry, draw), Spend(used, draw))
    ensures Ids(Seated(room, nickname, registry, draw).players) == Ids(room.players) + {draw.id}
    ensures draw.id !in Ids(room.players)
  {
    var after := Seated(room, nickname, registry, draw);
    var p := NewPlayer(room, nickname, draw);
    AppendIdentities(room.players, p);
    hide ForwardRoster, Put, Omit, Ids, DistinctIds;
    assert after.players == room.players + [p];
    assert after.tokens.vals == room.tokens.vals[draw.id := draw.secret];
    FreshToken(room.tokens.vals, draw.id, draw.secret);
    hide Injective;
  }

  lemma JoinKeepsInv(room: Room, nickname: string, registry: Games.Registry, draw: Draw, used: Issued)
    requires Inv(room, registry, used) && Fresh(used, draw) && |room.players| < MAX_PLAYERS
    ensures Inv(Seated(room, nickname, registry, draw), registry, Spend(used, draw))
  {
    hide GamesLaws.Inv, Games.Reduce, Injective, DistinctIds, Ids, InRound, Games.IsComplete, Games.BuiltBy, Put, Omit;
    var after := Seated(room, nickname, registry, draw);
    SeatedIdentities(room, nickname, registry, draw, used);
    if room.phase == InGame {
      GamesLaws.JoinFact(ActiveGame(room, registry).value, room.gameState, NewPlayer(room, nickname, draw));
      assert PlayingIds(after.players) == PlayingIds(room.players);
    }
    assert after.gameState == room.gameState;
  }

  function Without(room: Room, id: PlayerId, registry: Games.Registry): Room {
    OnLeave(room, Seat(id), registry).room
  }

  lemma LeaverGone(players: seq<Player>, id: PlayerId)
    ensures var rest := Keep(players, (p: Player) => p.id != id);
      && Ids(rest) == Ids(players) - {id}
      && PlayingIds(rest) == PlayingIds(players) - {id}
  {
  }

  lemma {:induction false} KeepDistinctIds(players: seq<Player>, id: PlayerId)
    requires DistinctIds(players)
    ensures DistinctIds(Keep(players, (p: Player) => p.id != id))
  {
    if players != [] {
      var front, last := players[..|players| - 1], players[|players| - 1];
      KeepDistinctIds(front, id);
      var rest := Keep(front, (p: Player) => p.id != id);
      forall i | 0 <= i < |rest| ensures rest[i].id != last.id {
        assert rest[i] in front;
      }
    }
  }

  lemma LeaveIdentities(room: Room, id: PlayerId, registry: Games.Registry, used: Issued)
    requires Identities(room, used)
    ensures Identities(Without(room, id, registry), used)
    ensures Ids(Without(room, id, registry).players) == Ids(room.players) - {id}
  {
    LeaverGone(room.players, id);
    KeepDistinctIds(room.players, id);
    hide ForwardRoster, Parked, Ids;
  }

  lemma LeaveKeepsInv(room: Room, id: PlayerId, registry: Games.Registry, used: Issued)
    requires Inv(room, registry, used)
    ensures Inv(Without(room, id, registry), registry, used)
  {
    hide Parked, GamesLaws.Inv, Games.Reduce, PlayingIds, Ids, Games.IsComplete, Games.BuiltBy, DistinctIds, Injective,
         Games.RosterOf, Games.LeftOf, Put, Omit;
    var after := Without(room, id, registry);
    LeaveIdentities(room, id, registry, used);
    if room.phase == InGame {
      LeaverGone(room.players, id);
      RosterFactKeepsState(room, PlayerLeft(id), registry);
      GamesLaws.LeaveFact(ActiveGame(room, registry).value, room.gameState, id);
      assert InRound(after.gameState) == InRound(room.gameState) - {id};
    } else {
      assert after.gameState == room.gameState;
    }
  }

  lemma SeatsAreTheRoster(players: seq<Player>, maxPlayers: nat, round: int)
    requires DistinctIds(players) && round >= 1
    ensures var seated := SeatWindow(players, maxPlayers, round);
      && DistinctIds(seated) && Ids(seated) == Ids(players)
      && Distinct(ActiveIds(seated)) && Elements(ActiveIds(seated)) == PlayingIds(seated)
  {
    hide Benched;
    var seated := SeatWindow(players, maxPlayers, round);
    forall id ensures id in Ids(seated) <==> id in Ids(players) {
      if id in Ids(players) {
        var i :| 0 <= i < |players| && players[i].id == id;
        assert seated[i].id == id;
      }
      if id in Ids(seated) {
        var i :| 0 <= i < |seated| && seated[i].id == id;
        assert players[i].id == id;
      }
    }
    ActiveIdsDistinct(seated);
    var active := Keep(seated, Active);
    forall id ensures id in Elements(ActiveIds(seated)) <==> id in PlayingIds(seated) {
      if id in PlayingIds(seated) {
        var p :| p in seated && Active(p) && p.id == id;
        var i :| 0 <= i < |active| && active[i] == p;
        assert ActiveIds(seated)[i] == id;
      }
    }
  }

  lemma {:induction false} ActiveIdsDistinct(players: seq<Player>)
    requires DistinctIds(players)
    ensures Distinct(ActiveIds(players))
  {
    if players != [] {
      var front, last := players[..|players| - 1], players[|players| - 1];
      ActiveIdsDistinct(front);
      var active := Keep(front, Active);
      forall i | 0 <= i < |active| ensures active[i].id != last.id {
        assert active[i] in front;
      }
    }
  }

  lemma PlayingAreThere(players: seq<Player>)
    ensures PlayingIds(players) <= Ids(players)
  {
  }

  lemma NobodyLeft(s: Games.GameState)
    requires Games.LeftOf(s) == []
    ensures InRound(s) == Elements(Games.RosterOf(s))
  {
    hide Games.RosterOf, Games.LeftOf;
  }

  lemma StartedIs(room: Room, game: Games.AnyGame, draw: Draw)
    ensures var after := RoundStarted(room, game, draw);
      var seated := SeatWindow(room.players, Capacity(game), room.round + 1);
      && after.players == seated
      && after.gameState == Games.Init(game, Keep(seated, Active), room.round + 1, draw.random, room.gameConfig)
  {
    hide SeatWindow, Games.Init, Active, Capacity;
  }

  lemma StartCouples(room: Room, game: Games.AnyGame, draw: Draw)
    requires DistinctIds(room.players)
    ensures var after := RoundStarted(room, game, draw);
      && GamesLaws.Inv(after.gameState) && Games.BuiltBy(game, after.gameState)
      && !Games.IsComplete(game, after.gameState)
      && InRound(after.gameState) == PlayingIds(after.players)
      && Elements(Games.RosterOf(after.gameState)) == PlayingIds(after.players)
      && DistinctIds(after.players) && Ids(after.players) == Ids(room.players)
  {
    hide SeatWindow, Games.Init, GamesLaws.Inv, Games.IsComplete, Active, DistinctIds, PlayingIds, Ids, Capacity,
         Games.RosterOf, Games.LeftOf, Games.PromptOf, InRound, RoundStarted, Games.BuiltBy;
    var seated := SeatWindow(room.players, Capacity(game), room.round + 1);
    SeatsAreTheRoster(room.players, Capacity(game), room.round + 1);
    StartedIs(room, game, draw);
    GamesLaws.InitLaws(game, Keep(seated, Active), room.round + 1, draw.random, room.gameConfig);
    var s := RoundStarted(room, game, draw).gameState;
    NobodyLeft(s);
  }

  lemma StartKeepsInv(room: Room, game: Games.AnyGame, registry: Games.Registry, draw: Draw, used: Issued)
    requires Inv(room, registry, used) && ActiveGame(room, registry) == Some(game)
    ensures Inv(RoundStarted(room, game, draw), registry, used)
  {
    var after := RoundStarted(room, game, draw);
    StartCouples(room, game, draw);
    PlayingAreThere(after.players);
    assert ActiveGame(after, registry) == Some(game);
    hide SeatWindow, Games.Init, GamesLaws.Inv, Games.IsComplete, Active, DistinctIds, PlayingIds, Ids, Capacity, InRound,
         Games.RosterOf, Games.LeftOf;
  }

  lemma StateMoves(room: Room, game: Games.AnyGame, state: Games.GameState, registry: Games.Registry, used: Issued)
    requires Inv(room, registry, used) && room.phase == InGame && ActiveGame(room, registry) == Some(game)
    requires Games.BuiltBy(game, state) && GamesLaws.Inv(state)
    requires Games.RosterOf(state) == Games.RosterOf(room.gameState)
    requires Games.LeftOf(state) == Games.LeftOf(room.gameState)
    ensures !Games.IsComplete(game, state) ==> Inv(room.(gameState := state), registry, used)
  {
    hide GamesLaws.Inv, Games.BuiltBy, PlayingIds, Games.IsComplete, DistinctIds, Ids, Injective, Games.RosterOf, Games.LeftOf;
    assert InRound(state) == InRound(room.gameState);
    assert ActiveGame(room.(gameState := state), registry) == ActiveGame(room, registry);
  }

  lemma PlayKeepsInv(room: Room, e: Json, registry: Games.Registry, used: Issued)
    requires Inv(room, registry, used)
    ensures Inv(Becomes(room, OnGameEvent(room, e, registry)), registry, used)
  {
    hide Games.Reduce, Games.IsComplete, GamesLaws.Inv, Games.BuiltBy, PlayingIds, Identities, Fold, RoundScores, IsAdvance,
         Games.RosterOf, Games.LeftOf;
    var r := OnGameEvent(room, e, registry);
    if r.Changed? {
      var game := ActiveGame(room, registry).value;
      var state := GamesLaws.Step(game, room.gameState, e);
      GamesLaws.StepLaws(game, room.gameState, e);
      FinishKeepsInv(room, game, state, registry, used);
      StateMoves(room, game, state, registry, used);
    }
  }

  lemma FinishKeepsInv(room: Room, game: Games.AnyGame, state: Games.GameState, registry: Games.Registry, used: Issued)
    requires Inv(room, registry, used) && ActiveGame(room, registry) == Some(game)
    requires Games.BuiltBy(game, state) && GamesLaws.Inv(state)
    ensures Inv(Finished(room, game, state), registry, used)
  {
    var after := Finished(room, game, state);
    var scores := RoundScores(room.players, state, game);
    FoldAddsExactly(room.sessionScores, scores);
    hide GamesLaws.Inv, Games.Scores, Games.BuiltBy, Fold, Total;
    assert Scored(scores) <= Ids(room.players);
    assert ActiveGame(after, registry) == Some(game);
  }

  /** Every event keeps the invariant, provided the ids and secrets drawn are new. */
  lemma TakeKeepsInv(room: Room, step: Step, registry: Games.Registry, used: Issued)
    requires Inv(room, registry, used) && Fresh(used, step.draw)
    ensures Inv(Take(room, step, registry), registry, Spend(used, step.draw))
  {
    hide Inv, Seated, RoundStarted, Finished, OnGameEvent, OnSelectGame, OnConfigureGame, OnEndGame, SessionComplete;
    SpendingIsHarmless(room, registry, used, step.draw);
    match step.event
    case Join(nickname, token) =>
      if OnJoin(room, nickname, token, registry, step.draw).Changed? {
        JoinKeepsInv(room, NormaliseNickname(nickname), registry, step.draw, used);
      }
    case Leave =>
      match step.actor {
        case Host => CloseKeepsInv(room, registry, Spend(used, step.draw));
        case Seat(id) => LeaveKeepsInv(room, id, registry, Spend(used, step.draw));
      }
    case SelectGame(gameId) => SelectKeepsInv(room, gameId, step.actor, registry, Spend(used, step.draw));
    case ConfigureGame(config) => ConfigureKeepsInv(room, config, step.actor, registry, Spend(used, step.draw));
    case StartGame =>
      if OnStartGame(room, step.actor, registry, step.draw).Changed? {
        StartKeepsInv(room, ActiveGame(room, registry).value, registry, step.draw, Spend(used, step.draw));
      }
    case GameEvent(e) => PlayKeepsInv(room, e, registry, Spend(used, step.draw));
    case EndGame => EndKeepsInv(room, step.actor, registry, Spend(used, step.draw));
  }

  lemma SpendingIsHarmless(room: Room, registry: Games.Registry, used: Issued, draw: Draw)
    requires Inv(room, registry, used)
    ensures Inv(room, registry, Spend(used, draw))
  {
    hide Played, PlayingIds, InRound, DistinctIds, Injective, Games.IsComplete;
  }

  lemma CloseKeepsInv(room: Room, registry: Games.Registry, used: Issued)
    requires Inv(room, registry, used)
    ensures Inv(room.(closed := true), registry, used)
  {
    hide GamesLaws.Inv;
    assert ActiveGame(room.(closed := true), registry) == ActiveGame(room, registry);
  }

  lemma SelectKeepsInv(room: Room, gameId: GameId, actor: Viewer, registry: Games.Registry, used: Issued)
    requires Inv(room, registry, used)
    ensures Inv(Becomes(room, OnSelectGame(room, gameId, actor, registry)), registry, used)
  {
    hide Coupled, Played, Games.WellFormed;
  }

  lemma ConfigureKeepsInv(room: Room, config: Option<Json>, actor: Viewer, registry: Games.Registry, used: Issued)
    requires Inv(room, registry, used)
    ensures Inv(Becomes(room, OnConfigureGame(room, config, actor)), registry, used)
  {
    hide GamesLaws.Inv;
    var after := Becomes(room, OnConfigureGame(room, config, actor));
    assert ActiveGame(after, registry) == ActiveGame(room, registry);
  }

  lemma EndKeepsInv(room: Room, actor: Viewer, registry: Games.Registry, used: Issued)
    requires Inv(room, registry, used)
    ensures Inv(Becomes(room, OnEndGame(room, actor, registry)), registry, used)
  {
    if OnEndGame(room, actor, registry).Changed? {
      FinishKeepsInv(room, ActiveGame(room, registry).value, room.gameState, registry, used);
    }
  }

  lemma {:induction false} RunKeepsInv(room: Room, steps: seq<Step>, registry: Games.Registry, used: Issued)
    requires Inv(room, registry, used) && FreshRun(used, steps)
    ensures Inv(Run(room, steps, registry), registry, SpendAll(used, steps))
  {
    if steps != [] {
      var front := steps[..|steps| - 1];
      RunKeepsInv(room, front, registry, used);
      TakeKeepsInv(Run(room, front, registry), steps[|steps| - 1], registry, SpendAll(used, front));
    }
  }
}
