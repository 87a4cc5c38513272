/** apps/web/src/transport/socket.ts on values: the transport of one screen, together with
    the sockets it created, the timers it has pending and what it was asked to send. The
    class SocketTransport is proved to follow these transitions; the laws are in
    ClientLaws.

    A socket opens at most once, delivers messages only while it is up, and neither opens
    nor delivers once it has failed or closed on either side. */
module Client {
  import opened Collections
  import opened Values
  import opened Protocol
  import Rooms

  const BASE_BACKOFF_MS: nat := 500
  const MAX_BACKOFF_MS: nat := 8_000
  const KEEPALIVE_MS: nat := 15_000
  const LIVENESS_MS: nat := 40_000
  const CONNECT_TIMEOUT_MS: nat := 8_000
  const PROBE_MS: nat := 4_000

  /** Server errors after which the transport stops for good. */
  const TERMINAL: set<string> :=
    {"SUPERSEDED", "ROOM_CLOSED", "NO_SUCH_ROOM", "BAD_HOST_TOKEN", "SERVER_FULL", "TOO_MANY_ROOMS",
     "ROOM_FULL", "EMPTY_NICKNAME", "JOIN_FAILED"}

  datatype HostSession = HostSession(code: RoomCode, hostToken: Token)

  datatype Init =
    | HostInit(nickname: string, resume: Option<HostSession>)
    | PlayerInit(code: RoomCode, nickname: string, reconnectToken: Option<Token>)

  datatype Action =
    | SelectGame(gameId: GameId)
    | ConfigureGame(config: Option<Json>)
    | StartGame
    | EndGame
    | Leave
    | GameEvent(event: Option<Json>)

  /** wire.ts `toWire`. */
  function ToWire(action: Action, code: RoomCode): ClientMessage {
    match action
    case SelectGame(id) => HostCommand(code, HostAction.SelectGame, Some(id), None)
    case ConfigureGame(config) => HostCommand(code, HostAction.ConfigureGame, None, config)
    case StartGame => HostCommand(code, HostAction.StartGame, None, None)
    case EndGame => HostCommand(code, HostAction.EndGame, None, None)
    case Leave => ClientMessage.Leave(code)
    case GameEvent(event) => Play(code, if event.Some? then event.value else Null)
  }

  predicate IsApp(m: ClientMessage) {
    m.HostCommand? || m.Play? || m.Leave?
  }

  predicate IsHandshake(m: ClientMessage) {
    m.Open? || m.Join? || m.ResumeHost?
  }

  datatype Phase = Connecting | Up | Over

  /** A socket: the generation its listeners belong to, what was handed to it, and how many
      server messages the transport had taken in when it opened. */
  datatype Socket = Socket(generation: nat, phase: Phase, sent: seq<ClientMessage>, known: nat)

  datatype Alarm = Retry | Watch | Stuck(generation: nat)

  datatype Timer = Timer(alarm: Alarm, ms: nat)

  type TimerId = nat

  datatype Status = StatusConnecting | Live | Reconnecting

  /** `sockets` holds every socket ever created; the last is `this.socket`. `accepted`,
      `heard` and `ended` are history: the messages taken by `send`, the server messages
      taken in, and the calls of `onTerminal`. */
  datatype State = State(
    init: Init,
    sockets: seq<Socket>,
    generation: nat,
    started: bool,
    stopped: bool,
    open: bool,
    awaiting: bool,
    attempt: nat,
    status: Status,
    pending: seq<ClientMessage>,
    code: Option<RoomCode>,
    reconnectToken: Option<Token>,
    hostToken: Option<Token>,
    keepalive: bool,
    watching: bool,
    backoff: Option<TimerId>,
    watchdog: Option<TimerId>,
    connectTimeout: Option<TimerId>,
    timers: map<TimerId, Timer>,
    nextTimer: TimerId,
    accepted: seq<ClientMessage>,
    heard: seq<ServerMessage>,
    ended: seq<string>)

  function InitialCode(init: Init): Option<RoomCode> {
    if init.HostInit? && init.resume.Some? then Some(init.resume.value.code) else None
  }

  function InitialHostToken(init: Init): Option<Token> {
    if init.HostInit? && init.resume.Some? then Some(init.resume.value.hostToken) else None
  }

  function InitialToken(init: Init): Option<Token> {
    if init.PlayerInit? then init.reconnectToken else None
  }

  function Created(init: Init): State {
    State(init, [], 0, false, false, false, false, 0, StatusConnecting, [], InitialCode(init), InitialToken(init),
          InitialHostToken(init), false, false, None, None, None, map[], 0, [], [], [])
  }

  // ---------------------------------------------------------------- timers

  function Schedule(s: State, alarm: Alarm, ms: nat): State {
    s.(timers := s.timers[s.nextTimer := Timer(alarm, ms)], nextTimer := s.nextTimer + 1)
  }

  function Without(timers: map<TimerId, Timer>, handle: Option<TimerId>): map<TimerId, Timer> {
    match handle case Some(t) => timers - {t} case None => timers
  }

  /** Calling a cancel handle; one whose timer already ran does nothing. */
  function Cancel(s: State, handle: Option<TimerId>): State {
    s.(timers := Without(s.timers, handle))
  }

  function ArmWatchdog(s: State, ms: nat): State {
    var calm := Cancel(s, s.watchdog);
    Schedule(calm, Watch, ms).(watchdog := Some(calm.nextTimer))
  }

  // --------------------------------------------------------------- sending

  /** A message is handed to the last socket, if there is one. */
  function Handed(sockets: seq<Socket>, m: ClientMessage): seq<Socket> {
    if sockets == [] then sockets
    else
      var k := |sockets| - 1;
      sockets[k := sockets[k].(sent := sockets[k].sent + [m])]
  }

  function HandedAll(sockets: seq<Socket>, ms: seq<ClientMessage>): seq<Socket> {
    if ms == [] then sockets else Handed(HandedAll(sockets, ms[..|ms| - 1]), ms[|ms| - 1])
  }

  /** The last socket, if there is one, is closed from this side. */
  function Closed(sockets: seq<Socket>): seq<Socket> {
    if sockets == [] then sockets
    else
      var k := |sockets| - 1;
      sockets[k := sockets[k].(phase := Over)]
  }

  /** `this.socket?.send` */
  function Transmit(s: State, m: ClientMessage): State {
    s.(sockets := Handed(s.sockets, m))
  }

  function TransmitAll(s: State, ms: seq<ClientMessage>): State {
    s.(sockets := HandedAll(s.sockets, ms))
  }

  /** `this.socket?.close` */
  function Close(s: State): State {
    s.(sockets := Closed(s.sockets))
  }

  function Handshake(s: State): ClientMessage {
    match s.init
    case HostInit(nickname, _) =>
      if s.code.Some? && s.hostToken.Some? then ResumeHost(s.code.value, s.hostToken.value) else Open(nickname)
    case PlayerInit(code, nickname, _) => Join(code, nickname, s.reconnectToken)
  }

  // ------------------------------------------------------------ connecting

  function Connect(s: State): State {
    var calm := Cancel(s, s.connectTimeout);
    Schedule(calm, Stuck(s.generation + 1), CONNECT_TIMEOUT_MS).(
      open := false,
      generation := s.generation + 1,
      sockets := s.sockets + [Socket(s.generation + 1, Connecting, [], 0)],
      connectTimeout := Some(calm.nextTimer))
  }

  function EnsureStarted(s: State): (t: State)
    ensures t.init == s.init
  {
    if !s.started && !s.stopped then Connect(s.(started := true, watching := true)) else s
  }

  function Pow2(n: nat): (p: nat)
    ensures p >= 1
  {
    if n == 0 then 1 else 2 * Pow2(n - 1)
  }

  function Backoff(attempt: nat): nat {
    var delay := BASE_BACKOFF_MS * Pow2(attempt);
    if delay < MAX_BACKOFF_MS then delay else MAX_BACKOFF_MS
  }

  function HandleDrop(s: State): (t: State)
    ensures t.init == s.init
  {
    if s.stopped || s.awaiting then s
    else
      var calm := Cancel(Cancel(s, s.watchdog), s.connectTimeout);
      Schedule(calm, Retry, Backoff(s.attempt)).(
        open := false, awaiting := true, status := Reconnecting, attempt := s.attempt + 1,
        backoff := Some(calm.nextTimer))
  }

  /** Abandon the current socket and go through the normal retry. */
  function ForceReconnect(s: State): State {
    Close(HandleDrop(s.(generation := s.generation + 1)))
  }

  function ReconnectNow(s: State): (t: State)
    ensures t.init == s.init
  {
    if s.stopped || !s.awaiting then s
    else Connect(Cancel(s, s.backoff).(backoff := None, awaiting := false))
  }

  function HandleOpen(s: State): (t: State)
    ensures t.init == s.init
  {
    var up := ArmWatchdog(Cancel(s, s.connectTimeout).(connectTimeout := None), LIVENESS_MS).(
      open := true, attempt := 0, awaiting := false, status := Live);
    if s.stopped then up.(pending := [], keepalive := true)
    else TransmitAll(up, [Handshake(up)] + up.pending).(pending := [], keepalive := true)
  }

  // ------------------------------------------------------------- stopping

  function Stop(s: State): (t: State)
    ensures t.init == s.init
  {
    Close(Cancel(Cancel(Cancel(s, s.backoff), s.watchdog), s.connectTimeout).(
      stopped := true, open := false, keepalive := false, watching := false,
      backoff := None, watchdog := None, connectTimeout := None))
  }

  // ------------------------------------------------------------- receiving

  function Receive(s: State, m: ServerMessage): (r: State)
    ensures r.init == s.init
  {
    var t := s.(heard := s.heard + [m]);
    match m
    case Joined(code, _, token) => t.(code := Some(code), reconnectToken := Some(token))
    case Opened(code, token) => t.(code := Some(code), hostToken := Some(token))
    case FrameMessage(frame) => t.(code := Some(frame.code))
    case Error(_, message) =>
      if message.Some? && message.value in TERMINAL then Stop(t).(ended := t.ended + [message.value]) else t
    case Pong => t
  }

  /** `data` is None for what does not parse. */
  function HandleMessage(s: State, data: Option<ServerMessage>): (t: State)
    ensures t.init == s.init
  {
    if s.stopped then s
    else
      var alive := ArmWatchdog(s, LIVENESS_MS);
      match data case Some(m) => Receive(alive, m) case None => alive
  }

  // ---------------------------------------------------------------- events

  /** A message goes to the open socket, or waits for one. */
  function Dispatch(s: State, m: ClientMessage): State {
    if s.stopped then s
    else if s.open then Transmit(s, m)
    else
      var ready := EnsureStarted(s);
      ready.(pending := ready.pending + [m])
  }

  /** An app action; one sent before the room is known or after the end is not taken. */
  function Send(s: State, action: Action): (t: State)
    ensures t.init == s.init
  {
    if s.code.None? || s.stopped then s
    else
      var m := ToWire(action, s.code.value);
      Dispatch(s.(accepted := s.accepted + [m]), m)
  }

  function OnVisible(s: State): (t: State)
    ensures t.init == s.init
  {
    if s.open then ArmWatchdog(Transmit(s, Ping), PROBE_MS) else ReconnectNow(s)
  }

  function OnKeepalive(s: State): (t: State)
    ensures t.init == s.init
  {
    if s.open then Transmit(s, Ping) else s
  }

  function OnTimer(s: State, t: TimerId, hidden: bool): (u: State)
    requires t in s.timers
    ensures u.init == s.init
  {
    var fired := s.(timers := s.timers - {t});
    match s.timers[t].alarm
    case Retry => Connect(fired.(backoff := None, awaiting := false))
    case Watch =>
      if hidden then ArmWatchdog(fired, LIVENESS_MS) else if s.open then ForceReconnect(fired) else fired
    case Stuck(generation) =>
      if generation == s.generation && !s.open then ForceReconnect(fired) else fired
  }

  /** The browser moves a socket on; its listeners act only while it is the current one. */
  function Moved(s: State, i: nat, phase: Phase): (t: State)
    requires i < |s.sockets|
    ensures t.init == s.init
  {
    s.(sockets := s.sockets[i := s.sockets[i].(phase := phase, known := if phase == Up then |s.heard| else s.sockets[i].known)])
  }

  predicate Current(s: State, i: nat)
    requires i < |s.sockets|
  {
    s.sockets[i].generation == s.generation
  }

  datatype Event =
    | Uses
    | Sends(action: Action)
    | Disposes
    | Opens(socket: nat)
    | Delivers(socket: nat, data: Option<ServerMessage>)
    | Ends(socket: nat)
    | Fires(timer: TimerId, hidden: bool)
    | Ticks
    | Shows
    | GoesOnline

  predicate Enabled(s: State, e: Event) {
    match e
    case Opens(i) => i < |s.sockets| && s.sockets[i].phase == Connecting
    case Delivers(i, _) => i < |s.sockets| && s.sockets[i].phase == Up
    case Ends(i) => i < |s.sockets|
    case Fires(t, _) => t in s.timers
    case Ticks => s.keepalive
    case Shows => s.watching
    case GoesOnline => s.watching
    case _ => true
  }

  function Step(s: State, e: Event): State
    requires Enabled(s, e)
  {
    match e
    case Uses => EnsureStarted(s)
    case Sends(action) => Send(s, action)
    case Disposes => Stop(s)
    case Opens(i) => if Current(s, i) then HandleOpen(Moved(s, i, Up)) else Moved(s, i, Up)
    case Delivers(i, data) => if Current(s, i) then HandleMessage(s, data) else s
    case Ends(i) => if Current(s, i) then HandleDrop(Moved(s, i, Over)) else Moved(s, i, Over)
    case Fires(t, hidden) => OnTimer(s, t, hidden)
    case Ticks => OnKeepalive(s)
    case Shows => OnVisible(s)
    case GoesOnline => ReconnectNow(s)
  }

  function Run(s: State, events: seq<Event>): State {
    if events == [] then s
    else
      var before := Run(s, events[..|events| - 1]);
      if Enabled(before, events[|events| - 1]) then Step(before, events[|events| - 1]) else before
  }
}
