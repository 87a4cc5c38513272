/** From a tap on a screen to the room: what each action does when the transport that took
    it has handed its message on and the hub handles it. By
    ClientTheorems.ExactlyOnceInOrder the messages handed on are the ones taken, in order. */
module Controls {
  import opened Collections
  import opened Values
  import opened GameEvents
  import opened Protocol
  import opened RoomLaws
  import opened Rounds
  import opened Hub
  import Client
  import HubLaws
  import RoomHubs
  import Authority
  import Identity
  import GuessWho
  import GuessWhoLaws
  import GuessWhoRecords
  import MostLikelyTo
  import MostLikelyToLaws
  import MostLikelyToRecords
  import Session
  import SessionLaws
  import Rooms
  import Games
  import GamesLaws
  import Prompts

  // -------------------------------------------------------------- the screen

  /** The transport knows its room and has not ended. */
  predicate Ready(t: Client.State) {
    t.code.Some? && !t.stopped
  }

  /** The message a transport takes for an action. */
  function Message(t: Client.State, a: Client.Action): ClientMessage
    requires Ready(t)
  {
    var taken := Client.Send(t, a).accepted;
    if |taken| > |t.accepted| then taken[|t.accepted|] else Ping
  }

  /** A ready transport takes exactly one message for an action; any other takes none. */
  lemma EveryActionIsTaken(t: Client.State, a: Client.Action)
    ensures Ready(t) ==> Client.Send(t, a).accepted == t.accepted + [Message(t, a)]
    ensures !Ready(t) ==> Client.Send(t, a) == t
  {
    hide Client.EnsureStarted, Client.Transmit, Client.ToWire;
    if Ready(t) {
      var m := Client.ToWire(a, t.code.value);
      StartTakesNothing(t.(accepted := t.accepted + [m]));
      assert Client.Send(t, a).accepted == t.accepted + [m];
    }
  }

  lemma StartTakesNothing(t: Client.State)
    ensures Client.EnsureStarted(t).accepted == t.accepted
    ensures forall m :: Client.Transmit(t, m).accepted == t.accepted
  {
  }

  lemma MessageIs(t: Client.State, a: Client.Action)
    requires Ready(t)
    ensures Message(t, a) == Client.ToWire(a, t.code.value)
  {
    hide Client.EnsureStarted, Client.Transmit, Client.ToWire;
    var m := Client.ToWire(a, t.code.value);
    StartTakesNothing(t.(accepted := t.accepted + [m]));
  }

  // ----------------------------------------------------------------- the hub

  /** The connection is attached to the room as this viewer. */
  ghost predicate At(h: Hub.State, used: Issued, c: Conn, home: RoomCode, viewer: Viewer) {
    Hub.Inv(h, used) && IsIn(h, c, home) && h.rooms[home].members[c] == viewer
  }

  /** The room under a code. */
  function RoomIn(h: Hub.State, home: RoomCode): Rooms.Room {
    if home in h.rooms then h.rooms[home].room else Rooms.CreateRoom(home, "")
  }

  /** One session takes a step, and nothing else of the hub moves. */
  ghost predicate Steps(h: Hub.State, g: Hub.State, home: RoomCode, op: SessionLaws.Op, draw: Rooms.Draw) {
    && home in h.rooms && SessionLaws.Enabled(h.rooms[home], op)
    && g == h.(rooms := h.rooms[home := SessionLaws.Step(h.rooms[home], op, draw)])
  }

  /** One room becomes another, nobody comes or goes, and nothing else of the hub moves. */
  ghost predicate Becomes(h: Hub.State, g: Hub.State, home: RoomCode, room: Rooms.Room) {
    && home in h.rooms && home in g.rooms && g == h.(rooms := h.rooms[home := g.rooms[home]])
    && g.rooms[home].members == h.rooms[home].members && g.rooms[home].registry == h.rooms[home].registry
    && g.rooms[home].room == room
  }

  lemma BecomesIs(h: Hub.State, g: Hub.State, home: RoomCode, room: Rooms.Room)
    requires Becomes(h, g, home, room)
    ensures RoomIn(g, home) == room
  {
  }

  lemma HandleRoutes(h: Hub.State, c: Conn, m: ClientMessage, code: RoomCode, draw: Rooms.Draw)
    ensures m.HostCommand? ==>
      Hub.Handle(h, c, m, code, draw) == Hub.Route(h, m.code, SessionLaws.OpHostAct(c, m.action, m.gameId, m.config), draw)
    ensures m.Play? ==> Hub.Handle(h, c, m, code, draw) == Hub.Route(h, m.code, SessionLaws.OpPlay(c, m.event), draw)
    ensures m.Leave? ==> Hub.Handle(h, c, m, code, draw) == Hub.Route(h, m.code, SessionLaws.OpLeave(c), draw)
  {
    hide Hub.Open, Hub.Attach, Hub.Route;
  }

  lemma Routes(h: Hub.State, used: Issued, c: Conn, home: RoomCode, viewer: Viewer, op: SessionLaws.Op, code: RoomCode,
               draw: Rooms.Draw)
    requires At(h, used, c, home, viewer) && (op.OpHostAct? || op.OpPlay? || op.OpLeave?) && op.c == c
    ensures Steps(h, Hub.Route(h, code, op, draw), home, op, draw)
  {
    hide Sessions, WithinLimits, RoomOf, SessionLaws.Step;
    HubLaws.RoomOfIs(h, c, home);
  }

  lemma RoomIsWhole(h: Hub.State, used: Issued, c: Conn, home: RoomCode, viewer: Viewer)
    requires At(h, used, c, home, viewer)
    ensures home in h.rooms && SessionLaws.Inv(h.rooms[home], used) && h.rooms[home].registry == h.registry
    ensures RoomLaws.Inv(RoomIn(h, home), h.registry, used) && RoomIn(h, home) == h.rooms[home].room
    ensures c in h.rooms[home].members && h.rooms[home].members[c] == viewer
  {
    hide WithinLimits, OneRoomEach, RoomLaws.Inv, SessionLaws.TimersMatch, SessionLaws.SeatsHeld, SessionLaws.BoardHeld,
         SessionLaws.ScreensCurrent;
  }

  /** The room event a host action asks for. */
  predicate AsksFor(a: Client.Action, event: Rooms.RoomEvent) {
    match a
    case SelectGame(id) => event == Rooms.SelectGame(id)
    case ConfigureGame(config) => event == Rooms.ConfigureGame(config)
    case StartGame => event == Rooms.StartGame
    case EndGame => event == Rooms.EndGame
    case _ => false
  }

  /** The board's action reaches the room as the event it asks for. */
  lemma HostActionReaches(h: Hub.State, used: Issued, c: Conn, home: RoomCode, t: Client.State, a: Client.Action,
                          code: RoomCode, draw: Rooms.Draw, event: Rooms.RoomEvent)
    requires At(h, used, c, home, Host) && Ready(t) && AsksFor(a, event)
    ensures Becomes(h, Hub.Handle(h, c, Message(t, a), code, draw), home,
                    Take(RoomIn(h, home), RoomLaws.Step(event, Host, draw), h.registry))
  {
    hide At, Becomes, Message, Take, SessionLaws.Step, Hub.Handle, Hub.Route, Steps, RoomIn;
    MessageIs(t, a);
    var m := Message(t, a);
    HandleRoutes(h, c, m, code, draw);
    var op := SessionLaws.OpHostAct(c, m.action, m.gameId, m.config);
    Routes(h, used, c, home, Host, op, m.code, draw);
    RoomIsWhole(h, used, c, home, Host);
    ActsOnRoom(h, Hub.Route(h, m.code, op, draw), c, home, m.action, m.gameId, m.config, draw, event);
  }

  lemma ActsOnRoom(h: Hub.State, g: Hub.State, c: Conn, home: RoomCode, action: HostAction, gameId: Option<GameId>,
                   config: Option<Json>, draw: Rooms.Draw, event: Rooms.RoomEvent)
    requires Steps(h, g, home, SessionLaws.OpHostAct(c, action, gameId, config), draw)
    requires HostEvent(action, gameId, config) == Some(event)
    requires c in h.rooms[home].members && h.rooms[home].members[c] == Host && h.rooms[home].registry == h.registry
    ensures Becomes(h, g, home, Take(RoomIn(h, home), RoomLaws.Step(event, Host, draw), h.registry))
  {
    hide Take, HostEvent, Session.ApplyFor;
    SessionLaws.ApplyForMoves(h.rooms[home], c, event, Host, draw);
  }

  // --------------------------------------------------------- the host's actions

  /** `JSON.stringify` of both is the same. */
  predicate SameSet(a: Option<Json>, b: Option<Json>) {
    if a.Some? && b.Some? then Stringify(a.value) == Stringify(b.value) else a == b
  }

  /** Between rounds a saved question set becomes the room's and starts the session over;
      the set the room has, or one saved in a round, changes nothing. */
  lemma ConfigureReaches(h: Hub.State, used: Issued, c: Conn, home: RoomCode, t: Client.State, config: Option<Json>,
                         code: RoomCode, draw: Rooms.Draw)
    requires At(h, used, c, home, Host) && Ready(t)
    ensures var room := RoomIn(h, home);
      Becomes(h, Hub.Handle(h, c, Message(t, Client.ConfigureGame(config)), code, draw), home,
        if room.phase == Rooms.InGame || SameSet(config, room.gameConfig) then room
        else room.(gameConfig := config, round := 0, sessionScores := Collections.Empty()))
  {
    hide At, Becomes, Message, Hub.Handle, RoomIn;
    HostActionReaches(h, used, c, home, t, Client.ConfigureGame(config), code, draw, Rooms.ConfigureGame(config));
  }

  /** Between rounds a registered game is selected: the lobby of a new session, with empty
      books, keeping the question set only if it was this game's. */
  lemma SelectReaches(h: Hub.State, used: Issued, c: Conn, home: RoomCode, t: Client.State, id: GameId, code: RoomCode,
                      draw: Rooms.Draw)
    requires At(h, used, c, home, Host) && Ready(t)
    ensures var room := RoomIn(h, home);
      Becomes(h, Hub.Handle(h, c, Message(t, Client.SelectGame(id)), code, draw), home,
        if room.phase == Rooms.InGame || id !in h.registry then room
        else room.(phase := Rooms.Lobby, selectedGameId := Some(id), round := 0,
                   sessionScores := Collections.Empty(), scoreLedger := Collections.Empty(),
                   gameConfig := if room.selectedGameId == Some(id) then room.gameConfig else None))
  {
    hide At, Becomes, Message, Hub.Handle, RoomIn;
    HostActionReaches(h, used, c, home, t, Client.SelectGame(id), code, draw, Rooms.SelectGame(id));
  }

  /** A game is selected, enough players are there and questions are left. */
  predicate CanStart(room: Rooms.Room, registry: Games.Registry) {
    && room.phase != Rooms.InGame && room.selectedGameId.Some? && room.selectedGameId.value in registry
    && (var game := registry[room.selectedGameId.value];
        && |room.players| >= game.minPlayers
        && (game.counted ==> room.round < |Prompts.Bank(room.gameConfig, Games.Builtin(game))|))
  }

  /** A round in its first phase in which nobody has left, written or voted. */
  predicate Blank(state: Games.GameState) {
    match state
    case NoState => false
    case GuessState(s) =>
      && s.phase == GuessWho.Collect && s.left == [] && s.drafts.vals == map[] && s.skipped == [] && s.guesses.vals == map[]
    case VoteState(s) => s.phase == MostLikelyTo.Vote && s.left == [] && s.votes.vals == map[]
  }

  lemma RoundsStartBlank(game: Games.AnyGame, active: seq<Player>, round: int, random: Games.Random, config: Option<Json>)
    ensures Blank(Games.Init(game, active, round, random, config))
  {
  }

  /** The room after its next round began: the same people, the selected game in its first
      phase, the next question of the set. */
  ghost predicate RoundBegan(room: Rooms.Room, after: Rooms.Room, game: Games.AnyGame) {
    && after == room.(phase := Rooms.InGame, round := room.round + 1, players := after.players, gameState := after.gameState)
    && |after.players| == |room.players|
    && (forall i :: 0 <= i < |room.players| ==>
          after.players[i].id == room.players[i].id && after.players[i].nickname == room.players[i].nickname)
    && Games.BuiltBy(game, after.gameState) && Blank(after.gameState)
    && (var bank := Prompts.Bank(room.gameConfig, Games.Builtin(game));
        room.round < |bank| ==> Games.PromptOf(after.gameState) == bank[room.round])
  }

  /** What a start makes of a room: its next round if one can begin, or nothing. */
  ghost predicate Started(room: Rooms.Room, after: Rooms.Room, registry: Games.Registry) {
    if CanStart(room, registry) then RoundBegan(room, after, registry[room.selectedGameId.value]) else after == room
  }

  lemma StartBegins(room: Rooms.Room, registry: Games.Registry, draw: Rooms.Draw, used: Issued)
    requires RoomLaws.Inv(room, registry, used)
    ensures Started(room, Take(room, RoomLaws.Step(Rooms.StartGame, Host, draw), registry), registry)
  {
    hide Prompts.Bank, Coupled, Played, Rooms.RoundStarted, RoundBegan;
    if CanStart(room, registry) {
      RoundIsBegun(room, registry[room.selectedGameId.value], draw);
    }
  }

  lemma RoundIsBegun(room: Rooms.Room, game: Games.AnyGame, draw: Rooms.Draw)
    requires DistinctIds(room.players)
    ensures RoundBegan(room, Rooms.RoundStarted(room, game, draw), game)
  {
    var seated := SeatWindow(room.players, Rooms.Capacity(game), room.round + 1);
    var active := Keep(seated, Active);
    StartCouples(room, game, draw);
    SeatsAreTheRoster(room.players, Rooms.Capacity(game), room.round + 1);
    GamesLaws.InitLaws(game, active, room.round + 1, draw.random, room.gameConfig);
    RoundsStartBlank(game, active, room.round + 1, draw.random, room.gameConfig);
    StartedIs(room, game, draw);
    hide Blank, SeatWindow, Games.Init, GamesLaws.Inv, Prompts.Bank, Active, DistinctIds, PlayingIds, InRound, Rooms.Capacity;
  }

  /** A tap on Start begins the next round exactly when one can begin. */
  lemma StartReaches(h: Hub.State, used: Issued, c: Conn, home: RoomCode, t: Client.State, code: RoomCode, draw: Rooms.Draw)
    requires At(h, used, c, home, Host) && Ready(t)
    ensures var g := Hub.Handle(h, c, Message(t, Client.StartGame), code, draw);
      Becomes(h, g, home, RoomIn(g, home)) && Started(RoomIn(h, home), RoomIn(g, home), h.registry)
  {
    hide At, Message, Hub.Handle, Take, Started, RoomIn, Becomes;
    HostActionReaches(h, used, c, home, t, Client.StartGame, code, draw, Rooms.StartGame);
    BecomesIs(h, Hub.Handle(h, c, Message(t, Client.StartGame), code, draw), home,
              Take(RoomIn(h, home), RoomLaws.Step(Rooms.StartGame, Host, draw), h.registry));
    RoomIsWhole(h, used, c, home, Host);
    StartBegins(RoomIn(h, home), h.registry, draw, used);
  }

  /** A tap on End, in a round, shows its scores, the round as it stands; what the tally
      gains is Screens.WhatIsShownIsFolded. Between rounds it does nothing. */
  lemma EndReaches(h: Hub.State, used: Issued, c: Conn, home: RoomCode, t: Client.State, code: RoomCode, draw: Rooms.Draw)
    requires At(h, used, c, home, Host) && Ready(t)
    ensures var g := Hub.Handle(h, c, Message(t, Client.EndGame), code, draw);
      var room, after := RoomIn(h, home), RoomIn(g, home);
      && Becomes(h, g, home, after)
      && after == if room.phase == Rooms.InGame then room.(phase := Rooms.ShowScores, sessionScores := after.sessionScores)
                  else room
  {
    hide At, Message, Hub.Handle, Take, RoomIn, Becomes;
    HostActionReaches(h, used, c, home, t, Client.EndGame, code, draw, Rooms.EndGame);
    BecomesIs(h, Hub.Handle(h, c, Message(t, Client.EndGame), code, draw), home,
              Take(RoomIn(h, home), RoomLaws.Step(Rooms.EndGame, Host, draw), h.registry));
    RoomIsWhole(h, used, c, home, Host);
    EndShowsScores(RoomIn(h, home), h.registry, draw, used);
  }

  lemma EndShowsScores(room: Rooms.Room, registry: Games.Registry, draw: Rooms.Draw, used: Issued)
    requires RoomLaws.Inv(room, registry, used)
    ensures var after := Take(room, RoomLaws.Step(Rooms.EndGame, Host, draw), registry);
      after == if room.phase == Rooms.InGame then room.(phase := Rooms.ShowScores, sessionScores := after.sessionScores)
               else room
  {
    hide Fold, Rooms.RoundScores, Identities;
  }

  /** A set saved between rounds is the one the next round asks from, its first question
      first. */
  lemma TheSavedSetIsAsked(h: Hub.State, used: Issued, c: Conn, home: RoomCode, t: Client.State, config: Option<Json>,
                           u: Client.State, code: RoomCode, draw: Rooms.Draw, code': RoomCode, draw': Rooms.Draw)
    requires At(h, used, c, home, Host) && Ready(t) && Ready(u)
    requires RoomLaws.Fresh(used, draw) && code !in h.rooms && Prompts.ValidPrompts(config).Some?
    requires var room := RoomIn(h, home);
      && room.phase != Rooms.InGame && !SameSet(config, room.gameConfig)
      && room.selectedGameId.Some? && room.selectedGameId.value in h.registry
      && |room.players| >= h.registry[room.selectedGameId.value].minPlayers
    ensures var g := Hub.Handle(h, c, Message(t, Client.ConfigureGame(config)), code, draw);
      var after := RoomIn(Hub.Handle(g, c, Message(u, Client.StartGame), code', draw'), home);
      && after.phase == Rooms.InGame && after.round == 1
      && |Prompts.ValidPrompts(config).value| > 0
      && Games.PromptOf(after.gameState) == Prompts.ValidPrompts(config).value[0]
  {
    hide Hub.Handle, Message, SameSet, Prompts.Bank, Hub.Inv, Prompts.ValidPrompts;
    var g := Hub.Handle(h, c, Message(t, Client.ConfigureGame(config)), code, draw);
    ConfigureReaches(h, used, c, home, t, config, code, draw);
    HubLaws.HandleKeepsInv(h, c, Message(t, Client.ConfigureGame(config)), code, draw, used);
    StartReaches(g, Spend(used, draw), c, home, u, code', draw');
    SavedIsTheBank(config, Games.Builtin(h.registry[RoomIn(h, home).selectedGameId.value]));
  }

  lemma SavedIsTheBank(config: Option<Json>, builtin: seq<string>)
    requires Prompts.ValidPrompts(config).Some?
    ensures Prompts.Bank(config, builtin) == Prompts.ValidPrompts(config).value != []
  {
    hide Prompts.Walk;
  }

  // ----------------------------------------------------- leaving and playing

  /** One connection is attached no more, and only its session moved. */
  ghost predicate Detached(h: Hub.State, g: Hub.State, home: RoomCode, c: Conn) {
    && home in h.rooms && home in g.rooms && g == h.(rooms := h.rooms[home := g.rooms[home]])
    && g.rooms[home].members == h.rooms[home].members - {c}
  }

  /** The room without a viewer: closed without its board, one seat free without a player. */
  ghost predicate Without(room: Rooms.Room, after: Rooms.Room, viewer: Viewer) {
    match viewer
    case Host => after == room.(closed := true)
    case Seat(id) =>
      && (forall p :: p in after.players <==> p in room.players && p.id != id)
      && after.tokens.vals == room.tokens.vals - {id} && after.closed == room.closed
  }

  /** A tap on Leave on the board closes the room; on a phone it frees the seat. Either
      way the connection is attached no more. */
  lemma LeaveReaches(h: Hub.State, used: Issued, c: Conn, home: RoomCode, viewer: Viewer, t: Client.State, code: RoomCode,
                     draw: Rooms.Draw)
    requires At(h, used, c, home, viewer) && Ready(t)
    ensures var g := Hub.Handle(h, c, Message(t, Client.Leave), code, draw);
      Detached(h, g, home, c) && Without(RoomIn(h, home), RoomIn(g, home), viewer)
  {
    hide At, Message, Hub.Handle, Hub.Route, SessionLaws.Step, Take, Steps, RoomIn, Detached, Without;
    MessageIs(t, Client.Leave);
    HandleRoutes(h, c, Message(t, Client.Leave), code, draw);
    var op := SessionLaws.OpLeave(c);
    Routes(h, used, c, home, viewer, op, t.code.value, draw);
    RoomIsWhole(h, used, c, home, viewer);
    LeaveSteps(h, Hub.Route(h, t.code.value, op, draw), home, c, viewer, draw);
    LeftRoom(RoomIn(h, home), viewer, h.registry, draw);
  }

  lemma LeaveSteps(h: Hub.State, g: Hub.State, home: RoomCode, c: Conn, viewer: Viewer, draw: Rooms.Draw)
    requires Steps(h, g, home, SessionLaws.OpLeave(c), draw)
    requires c in h.rooms[home].members && h.rooms[home].members[c] == viewer && h.rooms[home].registry == h.registry
    ensures Detached(h, g, home, c)
    ensures RoomIn(g, home) == Take(RoomIn(h, home), RoomLaws.Step(Rooms.Leave, viewer, draw), h.registry)
  {
    hide Session.Leave, Take;
    RoomHubs.LeaveMembers(h.rooms[home], c, draw);
    Authority.LeaveRoomIs(h.rooms[home], c, draw);
  }

  lemma LeftRoom(room: Rooms.Room, viewer: Viewer, registry: Games.Registry, draw: Rooms.Draw)
    ensures Without(room, Take(room, RoomLaws.Step(Rooms.Leave, viewer, draw), registry), viewer)
  {
    if viewer.Seat? {
      Identity.TokensAfter(room, RoomLaws.Step(Rooms.Leave, viewer, draw), registry);
    }
    hide Rooms.ForwardRoster, Rooms.Parked;
  }

  /** The app's event with the acting player's id in it, and nothing else changed. */
  ghost predicate Stamped(e: Json, raw: Json, id: PlayerId) {
    && (IsRecord(raw) ==> Field(e, "playerId") == Some(Str(id)))
    && forall name :: name != "playerId" && name != [] && name[0] > '9' ==> Field(e, name) == Field(raw, name)
  }

  lemma StampIsStamped(raw: Json, id: PlayerId)
    ensures Stamped(StampPlayerId(raw, id), raw, id)
  {
    hide StampPlayerId;
    StampLaws(raw, id, "playerId");
    forall name | name != "playerId" && name != [] && name[0] > '9'
      ensures Field(StampPlayerId(raw, id), name) == Field(raw, name)
    {
      StampLaws(raw, id, name);
    }
  }

  /** The running round took the event, and if that ended it the room shows its scores. */
  ghost predicate Reduced(room: Rooms.Room, after: Rooms.Room, e: Json, registry: Games.Registry) {
    && Rooms.ActiveGame(room, registry).Some?
    && (var game := Rooms.ActiveGame(room, registry).value;
        && after.gameState == GamesLaws.Step(game, room.gameState, e)
        && after == room.(gameState := after.gameState, sessionScores := after.sessionScores,
                          phase := if Games.IsComplete(game, after.gameState) then Rooms.ShowScores else Rooms.InGame)
        && (after.phase == Rooms.InGame ==> after.sessionScores == room.sessionScores))
  }

  /** Who may say what: the board only advances, and a phone anything but that. */
  predicate MaySay(viewer: Viewer, raw: Json) {
    viewer == Host <==> IsAdvance(raw)
  }

  /** An event the app sends in a round reaches the game's reducer as the app wrote it,
      stamped with the player of the seat; one its sender may not send changes nothing. */
  lemma EventReaches(h: Hub.State, used: Issued, c: Conn, home: RoomCode, viewer: Viewer, t: Client.State,
                     event: Option<Json>, code: RoomCode, draw: Rooms.Draw) returns (e: Json)
    requires At(h, used, c, home, viewer) && Ready(t)
    requires RoomIn(h, home).phase == Rooms.InGame
    requires event.Some? ==> !IsRosterType(event.value)
    ensures var raw := if event.Some? then event.value else Null;
      var g := Hub.Handle(h, c, Message(t, Client.GameEvent(event)), code, draw);
      && (if viewer == Host then e == raw else Stamped(e, raw, viewer.id))
      && Becomes(h, g, home, RoomIn(g, home))
      && if MaySay(viewer, raw) then Reduced(RoomIn(h, home), RoomIn(g, home), e, h.registry)
         else RoomIn(g, home) == RoomIn(h, home)
  {
    hide At, Message, Hub.Handle, Take, RoomIn, Becomes, Reduced, Stamped, IsAdvance, IsRosterType, StampPlayerId;
    var raw := if event.Some? then event.value else Null;
    e := if viewer == Host then raw else StampPlayerId(raw, viewer.id);
    EventArrives(h, used, c, home, viewer, t, event, code, draw, e);
    NullSaysNothing();
    if viewer.Seat? {
      StampIsStamped(raw, viewer.id);
      StampKeepsType(raw, viewer.id);
    }
    RoomIsWhole(h, used, c, home, viewer);
    EventIsReduced(RoomIn(h, home), e, viewer, h.registry, draw, used);
    BecomesIs(h, Hub.Handle(h, c, Message(t, Client.GameEvent(event)), code, draw), home,
              if MaySay(viewer, raw) then Take(RoomIn(h, home), RoomLaws.Step(Rooms.GameEvent(e), viewer, draw), h.registry)
              else RoomIn(h, home));
  }

  lemma EventArrives(h: Hub.State, used: Issued, c: Conn, home: RoomCode, viewer: Viewer, t: Client.State,
                     event: Option<Json>, code: RoomCode, draw: Rooms.Draw, e: Json)
    requires At(h, used, c, home, viewer) && Ready(t)
    requires var raw := if event.Some? then event.value else Null;
      e == if viewer == Host then raw else StampPlayerId(raw, viewer.id)
    ensures var raw := if event.Some? then event.value else Null;
      Becomes(h, Hub.Handle(h, c, Message(t, Client.GameEvent(event)), code, draw), home,
        if MaySay(viewer, raw) then Take(RoomIn(h, home), RoomLaws.Step(Rooms.GameEvent(e), viewer, draw), h.registry)
        else RoomIn(h, home))
  {
    hide At, Message, Hub.Handle, Hub.Route, SessionLaws.Step, Take, Steps, RoomIn, Becomes, MaySay, StampPlayerId;
    var raw := if event.Some? then event.value else Null;
    MessageIs(t, Client.GameEvent(event));
    HandleRoutes(h, c, Message(t, Client.GameEvent(event)), code, draw);
    var op := SessionLaws.OpPlay(c, raw);
    Routes(h, used, c, home, viewer, op, t.code.value, draw);
    RoomIsWhole(h, used, c, home, viewer);
    PlaySteps(h, Hub.Route(h, t.code.value, op, draw), home, c, viewer, raw, e, draw);
  }

  lemma NullSaysNothing()
    ensures !IsRosterType(Null) && !IsAdvance(Null)
  {
  }

  lemma StampKeepsType(raw: Json, id: PlayerId)
    ensures IsRosterType(StampPlayerId(raw, id)) == IsRosterType(raw)
  {
    hide StampPlayerId;
    StampLaws(raw, id, "type");
  }

  lemma PlaySteps(h: Hub.State, g: Hub.State, home: RoomCode, c: Conn, viewer: Viewer, raw: Json, e: Json, draw: Rooms.Draw)
    requires Steps(h, g, home, SessionLaws.OpPlay(c, raw), draw)
    requires c in h.rooms[home].members && h.rooms[home].members[c] == viewer && h.rooms[home].registry == h.registry
    requires e == if viewer == Host then raw else StampPlayerId(raw, viewer.id)
    ensures Becomes(h, g, home,
              if MaySay(viewer, raw) then Take(RoomIn(h, home), RoomLaws.Step(Rooms.GameEvent(e), viewer, draw), h.registry)
              else RoomIn(h, home))
  {
    hide Take, Session.ApplyFor, StampPlayerId, IsAdvance;
    SessionLaws.ApplyForMoves(h.rooms[home], c, Rooms.GameEvent(e), viewer, draw);
  }

  lemma EventIsReduced(room: Rooms.Room, e: Json, actor: Viewer, registry: Games.Registry, draw: Rooms.Draw, used: Issued)
    requires RoomLaws.Inv(room, registry, used) && room.phase == Rooms.InGame && !IsRosterType(e)
    ensures Reduced(room, Take(room, RoomLaws.Step(Rooms.GameEvent(e), actor, draw), registry), e, registry)
  {
    hide Games.Reduce, GamesLaws.Inv, Identities, Games.IsComplete, Fold, Rooms.RoundScores, IsAdvance, IsRosterType,
         Games.RosterOf, Games.LeftOf, PlayingIds;
  }

  // ------------------------------------------------ a tap and what it leaves

  /** A state holds what a player said in the event: their answer, their skip, the author
      they name beside those they named before, their vote; and nothing else moved. */
  ghost predicate Holds(before: Games.GameState, after: Games.GameState, raw: Json, id: PlayerId) {
    match (before, after)
    case (GuessState(s), GuessState(t)) =>
      && (HasType(raw, "submit") ==>
            && t == s.(drafts := t.drafts)
            && StrField(raw, "text").Some?
            && t.drafts.vals == s.drafts.vals[id := BoundedText(StrField(raw, "text").value, 200)])
      && (HasType(raw, "skip") ==> t == s.(skipped := s.skipped + [id]))
      && (HasType(raw, "guess") ==>
            && t == s.(guesses := t.guesses) && t.guesses.vals - {id} == s.guesses.vals - {id}
            && StrField(raw, "cardId").Some? && StrField(raw, "author").Some?
            && GuessWhoLaws.Names(t, id)
               == GuessWhoLaws.Names(s, id)[StrField(raw, "cardId").value := StrField(raw, "author").value])
    case (VoteState(s), VoteState(t)) =>
      HasType(raw, "vote") ==>
        && t == s.(votes := t.votes) && StrField(raw, "target").Some?
        && t.votes.vals == s.votes.vals[id := StrField(raw, "target").value]
    case _ => false
  }

  /** The round takes what the player says. */
  ghost predicate Takes(state: Games.GameState, raw: Json, id: PlayerId) {
    match state
    case NoState => false
    case GuessState(s) =>
      || (HasType(raw, "submit") && StrField(raw, "text").Some?
          && GuessWhoRecords.MaySubmit(s, id, StrField(raw, "text").value))
      || (HasType(raw, "skip") && GuessWhoRecords.MaySkip(s, id))
      || (HasType(raw, "guess") && StrField(raw, "cardId").Some? && StrField(raw, "author").Some?
          && GuessWhoRecords.MayGuess(s, id, StrField(raw, "cardId").value, StrField(raw, "author").value))
    case VoteState(s) =>
      && HasType(raw, "vote") && StrField(raw, "target").Some?
      && MostLikelyToRecords.MayVote(s, id, StrField(raw, "target").value)
  }

  lemma StampedFields(e: Json, raw: Json, id: PlayerId)
    requires Stamped(e, raw, id) && Field(raw, "type").Some?
    ensures StrField(e, "playerId") == Some(id)
    ensures forall name :: name in {"type", "text", "cardId", "author", "target"} ==> Field(e, name) == Field(raw, name)
  {
  }

  lemma GuessWhoHolds(s: GuessWho.State, e: Json, raw: Json, id: PlayerId)
    requires GuessWhoLaws.Inv(s) && Stamped(e, raw, id) && Takes(Games.GuessState(s), raw, id)
    ensures Holds(Games.GuessState(s), Games.GuessState(GuessWhoLaws.Step(s, e)), raw, id)
  {
    hide GuessWho.Reduce, GuessWhoLaws.Inv, GuessWhoLaws.Names, GuessWhoRecords.MayGuess, Stamped;
    StampedFields(e, raw, id);
    if HasType(raw, "submit") {
      GuessWhoRecords.SubmitIsRecorded(s, e, id, StrField(raw, "text").value);
    } else if HasType(raw, "skip") {
      GuessWhoRecords.SkipIsRecorded(s, e, id);
    } else {
      GuessWhoRecords.GuessIsRecorded(s, e, id, StrField(raw, "cardId").value, StrField(raw, "author").value);
    }
  }

  lemma MostLikelyToHolds(s: MostLikelyTo.State, e: Json, raw: Json, id: PlayerId)
    requires Stamped(e, raw, id) && Takes(Games.VoteState(s), raw, id)
    ensures Holds(Games.VoteState(s), Games.VoteState(MostLikelyToLaws.Step(s, e)), raw, id)
  {
    hide MostLikelyTo.Reduce, Stamped;
    StampedFields(e, raw, id);
    MostLikelyToRecords.VoteIsRecorded(s, e, id, StrField(raw, "target").value);
  }

  lemma ReducedHolds(room: Rooms.Room, after: Rooms.Room, e: Json, raw: Json, id: PlayerId, registry: Games.Registry, used: Issued)
    requires RoomLaws.Inv(room, registry, used) && room.phase == Rooms.InGame && Reduced(room, after, e, registry)
    requires Stamped(e, raw, id) && Takes(room.gameState, raw, id)
    ensures Holds(room.gameState, after.gameState, raw, id)
  {
    hide Identities, GuessWhoLaws.Inv, MostLikelyToLaws.Inv, GuessWho.Reduce, MostLikelyTo.Reduce, Stamped, Takes, Holds,
         Games.IsComplete, PlayingIds;
    match room.gameState
    case NoState =>
    case GuessState(s) => GuessWhoHolds(s, e, raw, id);
    case VoteState(s) => MostLikelyToHolds(s, e, raw, id);
  }

  /** From a phone to the record: what a player taps, when the round takes it, is what the
      room's state then holds for that player. */
  lemma ATapIsRecorded(h: Hub.State, used: Issued, c: Conn, home: RoomCode, id: PlayerId, t: Client.State, raw: Json,
                       code: RoomCode, draw: Rooms.Draw)
    requires At(h, used, c, home, Seat(id)) && Ready(t) && RoomIn(h, home).phase == Rooms.InGame
    requires Takes(RoomIn(h, home).gameState, raw, id)
    ensures var g := Hub.Handle(h, c, Message(t, Client.GameEvent(Some(raw))), code, draw);
      Holds(RoomIn(h, home).gameState, RoomIn(g, home).gameState, raw, id)
  {
    hide At, Message, Hub.Handle, RoomIn, Becomes, Reduced, Stamped, IsAdvance, IsRosterType, Takes, Holds;
    TakenIsNoFact(RoomIn(h, home).gameState, raw, id);
    RoomIsWhole(h, used, c, home, Seat(id));
    var e := EventReaches(h, used, c, home, Seat(id), t, Some(raw), code, draw);
    ReducedHolds(RoomIn(h, home), RoomIn(Hub.Handle(h, c, Message(t, Client.GameEvent(Some(raw))), code, draw), home), e, raw,
                 id, h.registry, used);
  }

  lemma TakenIsNoFact(state: Games.GameState, raw: Json, id: PlayerId)
    requires Takes(state, raw, id)
    ensures !IsRosterType(raw) && !IsAdvance(raw)
  {
    hide GuessWhoRecords.MaySubmit, GuessWhoRecords.MaySkip, GuessWhoRecords.MayGuess, MostLikelyToRecords.MayVote;
  }
}
