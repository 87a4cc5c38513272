/** packages/core/src/room.ts: the pure reducer of one room. */
module Rooms {
  import opened Collections
  import opened Values
  import opened GameEvents
  import opened Rounds
  import Games

  datatype Phase = Lobby | InGame | ShowScores

  datatype Room = Room(
    code: RoomCode,
    hostId: PlayerId,
    phase: Phase,
    players: seq<Player>,
    tokens: Record<Token>,
    selectedGameId: Option<GameId>,
    gameState: Games.GameState,
    closed: bool,
    sessionScores: Record<int>,
    round: nat,
    gameConfig: Option<Json>,
    scoreLedger: Record<int>)

  /** roomTypes.ts RoomError; GAME_REJECTED carries the game's own code. */
  datatype RoomError = RoomError(code: string, message: Option<string>)

  datatype RoomEvent =
    | Join(nickname: string, reconnectToken: Option<Token>)
    | Leave
    | SelectGame(gameId: GameId)
    | ConfigureGame(config: Option<Json>)
    | StartGame
    | GameEvent(event: Json)
    | EndGame

  /** What one reduction draws from the injected dependencies: the values `id()`,
      `secret()` and `random()` give if they are asked. */
  datatype Draw = Draw(id: PlayerId, secret: Token, random: Games.Random)

  /** `Result<Room, RoomError>`; Same is an `ok` holding the very same room object. */
  datatype RoomResult = Changed(room: Room) | Same | Refused(error: RoomError)

  function Becomes(room: Room, r: RoomResult): Room {
    if r.Changed? then r.room else room
  }

  function Refuse(code: string): RoomResult {
    Refused(RoomError(code, None))
  }

  function CreateRoom(code: RoomCode, hostId: PlayerId): Room {
    Room(code, hostId, Lobby, [], Empty(), None, Games.NoState, false, Empty(), 0, None, Empty())
  }

  function LedgerKey(nickname: string): string {
    Lower(nickname)
  }

  const MAX_NICKNAME_LENGTH: nat := 20

  /** nickname.ts: '' stands for its EMPTY_NICKNAME error. */
  function NormaliseNickname(raw: string): string {
    BoundedText(CollapseSpace(raw), MAX_NICKNAME_LENGTH)
  }

  function FindToken(keys: seq<PlayerId>, vals: map<PlayerId, Token>, token: Token): Option<PlayerId>
    requires forall k :: k in keys ==> k in vals
  {
    if keys == [] then None
    else if vals[keys[0]] == token then Some(keys[0])
    else FindToken(keys[1..], vals, token)
  }

  function PlayerIdForToken(room: Room, token: Token): Option<PlayerId> {
    FindToken(room.tokens.keys, room.tokens.vals, token)
  }

  function Reduce(room: Room, event: RoomEvent, actor: Viewer, registry: Games.Registry, draw: Draw): RoomResult {
    match event
    case Join(nickname, token) => OnJoin(room, nickname, token, registry, draw)
    case Leave => OnLeave(room, actor, registry)
    case SelectGame(gameId) => OnSelectGame(room, gameId, actor, registry)
    case ConfigureGame(config) => OnConfigureGame(room, config, actor)
    case StartGame => OnStartGame(room, actor, registry, draw)
    case GameEvent(e) => OnGameEvent(room, e, registry)
    case EndGame => OnEndGame(room, actor, registry)
  }

  // ---------------------------------------------------------------- roster

  function OnJoin(room: Room, raw: string, token: Option<Token>, registry: Games.Registry, draw: Draw): RoomResult {
    var nickname := NormaliseNickname(raw);
    if nickname == "" then Refuse("EMPTY_NICKNAME")
    else if token.Some? && PlayerIdForToken(room, token.value).Some? then Same
    else if |room.players| >= MAX_PLAYERS then Refuse("ROOM_FULL")
    else Changed(Seated(room, nickname, registry, draw))
  }

  function NewPlayer(room: Room, nickname: string, draw: Draw): Player {
    Player(draw.id, nickname, room.phase == InGame, room.phase == InGame)
  }

  /** The room with a fresh player, who reclaims the score parked under the nickname. */
  function Seated(room: Room, nickname: string, registry: Games.Registry, draw: Draw): Room {
    var player := NewPlayer(room, nickname, draw);
    var key := LedgerKey(nickname);
    var joined := room.(
      players := room.players + [player],
      tokens := Put(room.tokens, player.id, draw.secret),
      gameState := ForwardRoster(room, PlayerJoined(player), registry));
    if key in room.scoreLedger.vals then
      joined.(sessionScores := Put(room.sessionScores, player.id, room.scoreLedger.vals[key]),
              scoreLedger := Omit(room.scoreLedger, key))
    else joined
  }

  function FindPlayer(players: seq<Player>, id: PlayerId): Option<Player> {
    if players == [] then None
    else if players[0].id == id then Some(players[0])
    else FindPlayer(players[1..], id)
  }

  /** A leaver's score goes to the ledger slot of its nickname. */
  function Parked(room: Room, id: PlayerId): Record<int> {
    match FindPlayer(room.players, id)
    case Some(leaver) =>
      if id in room.sessionScores.vals
      then Put(room.scoreLedger, LedgerKey(leaver.nickname), room.sessionScores.vals[id])
      else room.scoreLedger
    case None => room.scoreLedger
  }

  function OnLeave(room: Room, actor: Viewer, registry: Games.Registry): RoomResult {
    match actor
    case Host => Changed(room.(closed := true))
    case Seat(id) =>
      Changed(room.(
        players := Keep(room.players, (p: Player) => p.id != id),
        tokens := Omit(room.tokens, id),
        gameState := ForwardRoster(room, PlayerLeft(id), registry),
        sessionScores := Omit(room.sessionScores, id),
        scoreLedger := Parked(room, id)))
  }

  function ActiveGame(room: Room, registry: Games.Registry): Option<Games.AnyGame> {
    if room.selectedGameId.Some? && room.selectedGameId.value in registry
    then Some(registry[room.selectedGameId.value]) else None
  }

  function ForwardRoster(room: Room, fact: Json, registry: Games.Registry): Games.GameState {
    if room.phase != InGame then room.gameState
    else
      match ActiveGame(room, registry)
      case None => room.gameState
      case Some(game) => After(room.gameState, Games.Reduce(game, room.gameState, fact))
  }

  // ----------------------------------------------------------- host actions

  function OnSelectGame(room: Room, gameId: GameId, actor: Viewer, registry: Games.Registry): RoomResult {
    if actor != Host then Refuse("NOT_HOST")
    else if gameId !in registry then Refuse("GAME_NOT_REGISTERED")
    else if room.phase == InGame then Refuse("WRONG_PHASE")
    else Changed(room.(
      phase := Lobby,
      selectedGameId := Some(gameId),
      round := 0,
      sessionScores := Empty(),
      scoreLedger := Empty(),
      gameConfig := if room.selectedGameId == Some(gameId) then room.gameConfig else None))
  }

  /** `JSON.stringify(a) === JSON.stringify(b)`; undefined serialises to undefined. */
  predicate SameBlob(a: Option<Json>, b: Option<Json>) {
    match (a, b)
    case (Some(x), Some(y)) => Stringify(x) == Stringify(y)
    case (None, None) => true
    case _ => false
  }

  function OnConfigureGame(room: Room, config: Option<Json>, actor: Viewer): RoomResult {
    if actor != Host then Refuse("NOT_HOST")
    else if room.phase == InGame then Refuse("WRONG_PHASE")
    else if SameBlob(config, room.gameConfig) then Same
    else Changed(room.(gameConfig := config, round := 0, sessionScores := Empty()))
  }

  predicate SessionComplete(room: Room, game: Games.AnyGame) {
    match Games.RoundCount(game, room.gameConfig)
    case Some(total) => room.round >= total
    case None => false
  }

  function OnStartGame(room: Room, actor: Viewer, registry: Games.Registry, draw: Draw): RoomResult {
    if actor != Host then Refuse("NOT_HOST")
    else if room.phase == InGame then Refuse("WRONG_PHASE")
    else if room.selectedGameId.None? then Refuse("NO_GAME_SELECTED")
    else
      match ActiveGame(room, registry)
      case None => Refuse("GAME_NOT_REGISTERED")
      case Some(game) =>
        if |room.players| < game.minPlayers then Refuse("BELOW_MIN_PLAYERS")
        else if SessionComplete(room, game) then Refuse("SESSION_COMPLETE")
        else Changed(RoundStarted(room, game, draw))
  }

  function Capacity(game: Games.AnyGame): nat {
    if game.maxPlayers < 0 then 0 else game.maxPlayers
  }

  function RoundStarted(room: Room, game: Games.AnyGame, draw: Draw): Room {
    var round := room.round + 1;
    var seated := SeatWindow(room.players, Capacity(game), round);
    var state := Games.Init(game, Keep(seated, Active), round, draw.random, room.gameConfig);
    room.(phase := InGame, gameState := state, players := seated, round := round)
  }

  // ------------------------------------------------------------ the running game

  /** The round's scores, kept to the players seated now. */
  function RoundScores(players: seq<Player>, state: Games.GameState, game: Games.AnyGame): seq<Score> {
    var seated := Ids(players);
    Keep(Games.Scores(game, state), (s: Score) => s.playerId in seated)
  }

  function OnGameEvent(room: Room, e: Json, registry: Games.Registry): RoomResult {
    if room.phase == ShowScores && IsAdvance(e) then Same
    else if room.phase != InGame then Refuse("GAME_EVENT_OUTSIDE_GAME")
    else if IsRosterType(e) then Refuse("FORBIDDEN_EVENT")
    else
      match ActiveGame(room, registry)
      case None => Refuse("GAME_NOT_REGISTERED")
      case Some(game) =>
        match Games.Reduce(game, room.gameState, e)
        case Rejected(code) => Refused(RoomError("GAME_REJECTED", Some(code)))
        case r =>
          var state := After(room.gameState, r);
          if Games.IsComplete(game, state) then Changed(Finished(room, game, state))
          else if r.Unchanged? then Same
          else Changed(room.(gameState := state))
  }

  function Finished(room: Room, game: Games.AnyGame, state: Games.GameState): Room {
    room.(gameState := state, phase := ShowScores,
          sessionScores := Fold(room.sessionScores, RoundScores(room.players, state, game)))
  }

  function OnEndGame(room: Room, actor: Viewer, registry: Games.Registry): RoomResult {
    if actor != Host then Refuse("NOT_HOST")
    else if room.phase != InGame then Refuse("WRONG_PHASE")
    else
      match ActiveGame(room, registry)
      case None => Refuse("GAME_NOT_REGISTERED")
      case Some(game) => Changed(Finished(room, game, room.gameState))
  }
}
