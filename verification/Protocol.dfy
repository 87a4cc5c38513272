/** The parsed messages of packages/protocol, and the connections they travel on. */
module Protocol {
  import opened Values
  import Rooms
  import Games

  /** A live client link as the room logic sees it (apps/server/src/connection.ts). */
  datatype Conn = Conn(serial: nat, address: Option<string>)

  datatype PublicPlayer = PublicPlayer(id: PlayerId, nickname: string, spectator: bool)

  datatype Frame = Frame(
    code: RoomCode,
    phase: Rooms.Phase,
    players: seq<PublicPlayer>,
    selectedGameId: Option<GameId>,
    gameView: Games.GameView,
    scores: Option<seq<Score>>,
    sessionScores: seq<Score>,
    round: nat,
    roundsTotal: nat)

  datatype ServerMessage =
    | Opened(code: RoomCode, hostToken: Token)
    | Joined(code: RoomCode, playerId: PlayerId, reconnectToken: Token)
    | FrameMessage(frame: Frame)
    | Error(code: RoomCode, message: Option<string>)
    | Pong

  datatype HostAction = SelectGame | ConfigureGame | StartGame | EndGame

  datatype ClientMessage =
    | Open(nickname: string)
    | Join(code: RoomCode, nickname: string, token: Option<Token>)
    | ResumeHost(code: RoomCode, hostToken: Token)
    | HostCommand(code: RoomCode, action: HostAction, gameId: Option<GameId>, config: Option<Json>)
    | Play(code: RoomCode, event: Json)
    | Leave(code: RoomCode)
    | Ping

  /** roomEvents.ts `hostEvent`: None iff selectGame arrived without a gameId. */
  function HostEvent(action: HostAction, gameId: Option<GameId>, config: Option<Json>): Option<Rooms.RoomEvent> {
    match action
    case SelectGame => (match gameId case Some(id) => Some(Rooms.SelectGame(id)) case None => None)
    case ConfigureGame => Some(Rooms.ConfigureGame(config))
    case StartGame => Some(Rooms.StartGame)
    case EndGame => Some(Rooms.EndGame)
  }

  /** The properties an array shows when it is spread into an object. */
  function Indexed(items: seq<Json>): map<string, Json> {
    if items == [] then map[]
    else Indexed(items[..|items| - 1])[Digits(|items| - 1) := items[|items| - 1]]
  }

  /** roomEvents.ts `stampPlayerId`: the authenticated id overwrites any the client sent. */
  function StampPlayerId(event: Json, id: PlayerId): Json {
    match event
    case Obj(fields) => Obj(fields["playerId" := Str(id)])
    case Arr(items) => Obj(Indexed(items)["playerId" := Str(id)])
    case _ => event
  }

  lemma {:induction false} DigitsAreDigits(n: nat)
    ensures forall c :: c in Digits(n) ==> '0' <= c <= '9'
  {
    if n >= 10 {
      DigitsAreDigits(n / 10);
    }
  }

  lemma {:induction false} IndexedHasNoNames(items: seq<Json>, name: string)
    requires name != [] && name[0] > '9'
    ensures name !in Indexed(items)
  {
    if items != [] {
      IndexedHasNoNames(items[..|items| - 1], name);
      DigitsAreDigits(|items| - 1);
      assert Digits(|items| - 1)[0] in Digits(|items| - 1);
    }
  }

  /** Stamping fixes who acts and nothing else the games or the room look at. */
  lemma StampLaws(event: Json, id: PlayerId, name: string)
    ensures IsRecord(event) ==> Field(StampPlayerId(event, id), "playerId") == Some(Str(id))
    ensures name != "playerId" && name != [] && name[0] > '9' ==>
      Field(StampPlayerId(event, id), name) == Field(event, name)
  {
    if event.Arr? && name != [] && name[0] > '9' {
      IndexedHasNoNames(event.items, name);
    }
  }
}
