/** Who may change what in a running round: a player their own entry, the host the phase. */
module Authority {
  import opened Collections
  import opened Values
  import opened GameEvents
  import opened Protocol
  import opened Session
  import opened SessionLaws
  import opened RoomLaws
  import Rooms
  import Games
  import GamesLaws

  /** t differs from s at most in one player's entry of the running game. */
  ghost predicate OnlyOwnEntry(id: PlayerId, s: Rooms.Room, t: Rooms.Room) {
    && t == s.(gameState := t.gameState)
    && GamesLaws.OnlyOwnEntry(id, s.gameState, t.gameState)
  }

  lemma SameEntry(id: PlayerId, room: Rooms.Room)
    ensures OnlyOwnEntry(id, room, room)
  {
  }

  /** An event that is not an object is no game's event. */
  lemma NotAnEvent(g: Games.AnyGame, s: Games.GameState, e: Json)
    requires !IsRecord(e)
    ensures Games.Reduce(g, s, e).Rejected?
  {
  }

  lemma GameEventTouchesOwnEntry(room: Rooms.Room, registry: Games.Registry, raw: Json, id: PlayerId, used: Issued)
    requires RoomLaws.Inv(room, registry, used) && !IsAdvance(raw)
    ensures OnlyOwnEntry(id, room, Rooms.Becomes(room, Rooms.OnGameEvent(room, StampPlayerId(raw, id), registry)))
  {
    hide Games.Reduce, Identities, Rooms.Finished, Games.IsComplete, StampPlayerId, GamesLaws.Inv, GamesLaws.OnlyOwnEntry;
    var e := StampPlayerId(raw, id);
    SameEntry(id, room);
    StampLaws(raw, id, "type");
    var r := Rooms.OnGameEvent(room, e, registry);
    if r.Changed? {
      var game := Rooms.ActiveGame(room, registry).value;
      if IsRecord(raw) {
        GamesLaws.StepTouchesOwnEntry(game, room.gameState, e, id);
        OwnEntryKeepsComplete(game, room.gameState, After(room.gameState, Games.Reduce(game, room.gameState, e)), id);
      } else {
        StampOfNonRecord(raw, id);
        NotAnEvent(game, room.gameState, e);
      }
    }
  }

  lemma StampOfNonRecord(raw: Json, id: PlayerId)
    requires !IsRecord(raw)
    ensures StampPlayerId(raw, id) == raw
  {
  }

  lemma OwnEntryKeepsComplete(g: Games.AnyGame, s: Games.GameState, t: Games.GameState, id: PlayerId)
    requires GamesLaws.OnlyOwnEntry(id, s, t)
    ensures Games.IsComplete(g, s) == Games.IsComplete(g, t)
    ensures GamesLaws.StageOf(s) == GamesLaws.StageOf(t)
  {
  }

  /** Whatever JSON a player's connection sends, the room keeps its phase, its roster, its
      scores and everything else but that player's own draft, skip, guesses or vote, and
      nobody's seat or timer moves. */
  lemma APlayerWritesTheirOwnEntryOnly(s: State, c: Conn, raw: Json, draw: Rooms.Draw, used: Issued)
    requires SessionLaws.Inv(s, used) && c in s.members && s.members[c].Seat?
    ensures var t := Session.Play(s, c, raw, draw);
      && OnlyOwnEntry(s.members[c].id, s.room, t.room)
      && t == s.(room := t.room, log := t.log, pendingBroadcast := t.pendingBroadcast)
      && (forall d :: d != c ==> Log(t, d) == Log(s, d))
  {
    hide RoomLaws.Inv, SeatsHeld, BoardHeld, TimersMatch, ScreensCurrent, OnlyOwnEntry, Rooms.OnGameEvent, StampPlayerId,
         IsAdvance, ApplyFor;
    var id := s.members[c].id;
    SameEntry(id, s.room);
    if !IsAdvance(raw) {
      GameEventTouchesOwnEntry(s.room, s.registry, raw, id, used);
      ApplyForMoves(s, c, Rooms.GameEvent(StampPlayerId(raw, id)), Seat(id), draw);
    }
  }

  // ----------------------------------------------------------------- phase

  /** The stage of the running round, Public when none runs. */
  function RoomStage(room: Rooms.Room): GamesLaws.Stage {
    if room.phase == Rooms.InGame then GamesLaws.StageOf(room.gameState) else GamesLaws.Public
  }

  lemma RosterFactKeepsStage(room: Rooms.Room, step: RoomLaws.Step, registry: Games.Registry, used: Issued)
    requires RoomLaws.Inv(room, registry, used) && (step.event.Join? || step.event == Rooms.Leave)
    ensures RoomStage(Take(room, step, registry)) == RoomStage(room)
  {
    hide Games.Reduce, GamesLaws.Inv, Identities, GamesLaws.StageOf, Rooms.Parked, Keep, Put, Omit, Games.IsComplete,
         PlayerJoined, PlayerLeft;
    if room.phase == Rooms.InGame {
      var game := Rooms.ActiveGame(room, registry).value;
      match step.event
      case Join(nickname, _) =>
        GamesLaws.JoinFact(game, room.gameState, Rooms.NewPlayer(room, Rooms.NormaliseNickname(nickname), step.draw));
      case Leave =>
        if step.actor.Seat? {
          GamesLaws.LeaveFact(game, room.gameState, step.actor.id);
        }
    }
  }

  /** The operations that may move a running round on. */
  predicate MovesThePhase(s: State, op: Op) {
    match op
    case OpPlay(c, raw) => c in s.members && s.members[c] == Host && IsAdvance(raw)
    case OpHostAct(c, action, _, _) => c in s.members && s.members[c] == Host && action == EndGame
    case _ => false
  }

  lemma HostEventKeepsStage(s: State, c: Conn, event: Rooms.RoomEvent, draw: Rooms.Draw)
    requires s.room.phase == Rooms.InGame && (event.SelectGame? || event.ConfigureGame? || event.StartGame?)
    ensures ApplyFor(s, c, event, Host, draw).room == s.room
  {
  }

  /** While a round runs, nothing but the host's advance or the host's abort changes its
      phase: no player, no join, no leave, no timer and no drain. */
  lemma OnlyTheHostMovesThePhase(s: State, op: Op, draw: Rooms.Draw, used: Issued)
    requires SessionLaws.Inv(s, used) && RoomLaws.Fresh(used, draw) && Enabled(s, op)
    requires s.room.phase == Rooms.InGame && !MovesThePhase(s, op)
    ensures RoomStage(SessionLaws.Step(s, op, draw).room) == RoomStage(s.room)
    ensures SessionLaws.Step(s, op, draw).room.phase == Rooms.InGame
  {
    hide RoomLaws.Inv, SeatsHeld, BoardHeld, TimersMatch, ScreensCurrent, Rooms.Reduce, GamesLaws.StageOf;
    match op
    case OpResumeHost(c, token) => ResumeKeepsRoom(s, c, token);
    case OpJoin(c, nickname, token) => JoinRoomIs(s, c, nickname, token, draw);
      RosterStage(s, RoomLaws.Step(Rooms.Join(nickname, token), Host, draw), used);
    case OpHostAct(c, action, gameId, config) => HostActStage(s, c, action, gameId, config, draw);
    case OpPlay(c, raw) => PlayStage(s, c, raw, draw, used);
    case OpLeave(c) =>
      LeaveRoomIs(s, c, draw);
      if c in s.members {
        RosterStage(s, RoomLaws.Step(Rooms.Leave, s.members[c], draw), used);
      }
    case OpDisconnect(c) => DisconnectKeepsRoom(s, c);
    case OpFire(t) =>
      FireRoomIs(s, t, draw);
      RosterStage(s, RoomLaws.Step(Rooms.Leave, TaskViewer(s.timers[t].task), draw), used);
    case OpDrain =>
  }

  lemma RosterStage(s: State, step: RoomLaws.Step, used: Issued)
    requires SessionLaws.Inv(s, used) && s.room.phase == Rooms.InGame && (step.event.Join? || step.event == Rooms.Leave)
    ensures RoomStage(Take(s.room, step, s.registry)) == RoomStage(s.room)
    ensures Take(s.room, step, s.registry).phase == Rooms.InGame
  {
    RosterFactKeepsStage(s.room, step, s.registry, used);
    RosterMoves(s.room, step, s.registry);
  }

  function TaskViewer(task: Task): Viewer {
    match task case ReapHost => Host case ReapPlayer(id) => Seat(id)
  }

  lemma ResumeKeepsRoom(s: State, c: Conn, token: Token)
    ensures Session.ResumeHost(s, c, token).room == s.room
  {
    hide Supersede, CancelHostReap, Log;
    if ResumeAccepted(s, token) {
      ResumeHostMoves(s, c);
    }
  }

  lemma JoinRoomIs(s: State, c: Conn, nickname: string, token: Option<Token>, draw: Rooms.Draw)
    ensures Session.Join(s, c, nickname, token, draw).room
      == Take(s.room, RoomLaws.Step(Rooms.Join(nickname, token), Host, draw), s.registry)
  {
    hide Rooms.Reduce, JoinedId, IsNew, Log, Ids;
    if JoinAccepted(s, nickname, token, draw) {
      JoinMoves(s, c, nickname, token, draw);
    }
  }

  lemma LeaveRoomIs(s: State, c: Conn, draw: Rooms.Draw)
    ensures Session.Leave(s, c, draw).room
      == if c in s.members then Take(s.room, RoomLaws.Step(Rooms.Leave, s.members[c], draw), s.registry) else s.room
  {
    hide Rooms.Reduce, Apply, CancelReap;
    if c in s.members {
      var gone := s.(members := s.members - {c});
      match s.members[c]
      case Host => ApplyMoves(gone, Rooms.Leave, Host, draw);
      case Seat(id) =>
        CancelReapMoves(gone, id);
        ApplyMoves(CancelReap(gone, id), Rooms.Leave, Seat(id), draw);
    }
  }

  lemma DisconnectKeepsRoom(s: State, c: Conn)
    ensures Session.Disconnect(s, c).room == s.room
  {
  }

  lemma FireRoomIs(s: State, t: TimerId, draw: Rooms.Draw)
    requires t in s.timers
    ensures Session.Fire(s, t, draw).room
      == Take(s.room, RoomLaws.Step(Rooms.Leave, TaskViewer(s.timers[t].task), draw), s.registry)
  {
    hide Rooms.Reduce, Apply;
    match s.timers[t].task
    case ReapHost => ApplyMoves(Cancel(s, t).(hostReaper := None), Rooms.Leave, Host, draw);
    case ReapPlayer(id) => ApplyMoves(Cancel(s, t).(reapers := s.reapers - {id}), Rooms.Leave, Seat(id), draw);
  }

  lemma HostActStage(s: State, c: Conn, action: HostAction, gameId: Option<GameId>, config: Option<Json>, draw: Rooms.Draw)
    requires s.room.phase == Rooms.InGame && !MovesThePhase(s, OpHostAct(c, action, gameId, config))
    ensures HostAct(s, c, action, gameId, config, draw).room == s.room
  {
    hide ApplyFor;
    if c in s.members && s.members[c] == Host {
      match HostEvent(action, gameId, config)
      case Some(event) => HostEventKeepsStage(s, c, event, draw);
      case None =>
    }
  }

  lemma PlayStage(s: State, c: Conn, raw: Json, draw: Rooms.Draw, used: Issued)
    requires SessionLaws.Inv(s, used) && s.room.phase == Rooms.InGame && !MovesThePhase(s, OpPlay(c, raw))
    ensures RoomStage(Session.Play(s, c, raw, draw).room) == RoomStage(s.room)
    ensures Session.Play(s, c, raw, draw).room.phase == Rooms.InGame
  {
    if c in s.members && s.members[c].Seat? {
      APlayerWritesTheirOwnEntryOnly(s, c, raw, draw, used);
      hide SessionLaws.Inv, Session.Play;
      OwnEntryKeepsComplete(Games.GUESS_WHO, s.room.gameState, Session.Play(s, c, raw, draw).room.gameState, s.members[c].id);
    } else {
      hide SessionLaws.Inv, ApplyFor;
    }
  }

  // ------------------------------------------------------------ the board

  /** The operations of the connection attached as the board. */
  predicate ByBoard(s: State, op: Op) {
    match op
    case OpHostAct(c, _, _, _) => c in s.members && s.members[c] == Host
    case OpPlay(c, _) => c in s.members && s.members[c] == Host
    case OpLeave(c) => c in s.members && s.members[c] == Host
    case _ => false
  }

  /** What only the board decides: which game, with which questions, which round, and
      whether one is running. */
  ghost predicate SameProgramme(s: Rooms.Room, t: Rooms.Room) {
    && t.code == s.code && t.hostId == s.hostId && t.phase == s.phase && t.round == s.round
    && t.selectedGameId == s.selectedGameId && t.gameConfig == s.gameConfig
  }

  lemma RosterKeepsProgramme(room: Rooms.Room, step: RoomLaws.Step, registry: Games.Registry)
    requires step.event.Join? || step.event == Rooms.Leave
    ensures SameProgramme(room, Take(room, step, registry))
    ensures Take(room, step, registry).closed == (room.closed || (step.event == Rooms.Leave && step.actor == Host))
  {
    RosterMoves(room, step, registry);
    hide Rooms.ForwardRoster, Rooms.Parked, Keep, Put, Omit, Rooms.NormaliseNickname, Rooms.PlayerIdForToken, Rooms.LedgerKey;
  }

  /** Whatever anybody but the board does, the room keeps its game, its questions, its
      round and its phase; and it closes only when the board's grace runs out. */
  lemma OnlyTheBoardRunsTheRoom(s: State, op: Op, draw: Rooms.Draw, used: Issued)
    requires SessionLaws.Inv(s, used) && RoomLaws.Fresh(used, draw) && Enabled(s, op) && !ByBoard(s, op)
    ensures SameProgramme(s.room, SessionLaws.Step(s, op, draw).room)
    ensures SessionLaws.Step(s, op, draw).room.closed
      == (s.room.closed || (op.OpFire? && s.timers[op.t].task == ReapHost))
  {
    hide SessionLaws.Inv, Rooms.Reduce, SameProgramme, Take, Session.Join, Session.ResumeHost, Session.Leave, Session.Disconnect,
         Session.Fire, Session.Play, Session.Drain, ApplyFor;
    SameItself(s.room);
    match op
    case OpResumeHost(c, token) => ResumeKeepsRoom(s, c, token);
    case OpJoin(c, nickname, token) =>
      JoinRoomIs(s, c, nickname, token, draw);
      RosterKeepsProgramme(s.room, RoomLaws.Step(Rooms.Join(nickname, token), Host, draw), s.registry);
    case OpHostAct(_, _, _, _) =>
    case OpPlay(c, raw) => PlayKeepsProgramme(s, c, raw, draw, used);
    case OpLeave(c) =>
      LeaveRoomIs(s, c, draw);
      if c in s.members {
        RosterKeepsProgramme(s.room, RoomLaws.Step(Rooms.Leave, s.members[c], draw), s.registry);
      }
    case OpDisconnect(c) => DisconnectKeepsRoom(s, c);
    case OpFire(t) =>
      FireRoomIs(s, t, draw);
      RosterKeepsProgramme(s.room, RoomLaws.Step(Rooms.Leave, TaskViewer(s.timers[t].task), draw), s.registry);
    case OpDrain => DrainKeepsRoom(s);
  }

  lemma SameItself(room: Rooms.Room)
    ensures SameProgramme(room, room)
  {
  }

  lemma DrainKeepsRoom(s: State)
    ensures Session.Drain(s).room == s.room
  {
  }

  lemma PlayKeepsProgramme(s: State, c: Conn, raw: Json, draw: Rooms.Draw, used: Issued)
    requires SessionLaws.Inv(s, used) && !ByBoard(s, OpPlay(c, raw))
    ensures SameProgramme(s.room, Session.Play(s, c, raw, draw).room)
    ensures Session.Play(s, c, raw, draw).room.closed == s.room.closed
  {
    if c in s.members {
      APlayerWritesTheirOwnEntryOnly(s, c, raw, draw, used);
      hide SessionLaws.Inv, Session.Play;
    } else {
      hide SessionLaws.Inv;
    }
  }
}
