/** apps/server/src/roomSession.ts, as transitions on values: what each handler, each timer
    and each drain of the microtask queue makes of one live room. The class RoomSession is
    proved to follow these; the laws of a session are proved of them.

    A session's state includes its pending timers (an abstract `deps.schedule`) and, for
    the statements only, everything it has sent on each connection. */
module Session {
  import opened Collections
  import opened Values
  import opened GameEvents
  import opened Protocol
  import Rooms
  import Games

  const PLAYER_GRACE_MS: nat := 180_000
  const HOST_GRACE_MS: nat := 60_000

  type TimerId = nat

  datatype Task = ReapPlayer(id: PlayerId) | ReapHost

  datatype Timer = Timer(task: Task, ms: nat)

  /** One message on a connection; a frame remembers whom it was rendered for. */
  datatype Delivery = Delivery(to: Option<Viewer>, message: ServerMessage)

  datatype State = State(
    registry: Games.Registry,
    room: Rooms.Room,
    members: map<Conn, Viewer>,
    reapers: map<PlayerId, TimerId>,
    hostToken: Token,
    hostReaper: Option<TimerId>,
    pendingBroadcast: bool,
    timers: map<TimerId, Timer>,
    nextTimer: TimerId,
    log: map<Conn, seq<Delivery>>,
    shut: set<Conn>)

  /** A new session around a room, before its host is attached. */
  function Fresh(room: Rooms.Room, registry: Games.Registry, hostToken: Token): State {
    State(registry, room, map[], map[], hostToken, None, false, map[], 0, map[], {})
  }

  // --------------------------------------------------------------- sending

  function Log(s: State, c: Conn): seq<Delivery> {
    if c in s.log then s.log[c] else []
  }

  function Tell(s: State, c: Conn, message: ServerMessage): State {
    s.(log := s.log[c := Log(s, c) + [Delivery(None, message)]])
  }

  function ErrorMessage(s: State, message: string): ServerMessage {
    Error(s.room.code, Some(message))
  }

  function ErrorText(e: Rooms.RoomError): string {
    match e.message case Some(m) => e.code + ": " + m case None => e.code
  }

  function Complain(s: State, c: Conn, message: string): State {
    Tell(s, c, ErrorMessage(s, message))
  }

  function ScheduleBroadcast(s: State): State {
    s.(pendingBroadcast := true)
  }

  // ---------------------------------------------------------------- timers

  function Schedule(s: State, task: Task, ms: nat): State {
    s.(timers := s.timers[s.nextTimer := Timer(task, ms)], nextTimer := s.nextTimer + 1)
  }

  function Cancel(s: State, t: TimerId): State {
    s.(timers := s.timers - {t})
  }

  function CancelReap(s: State, id: PlayerId): State {
    if id in s.reapers then Cancel(s, s.reapers[id]).(reapers := s.reapers - {id}) else s
  }

  function CancelHostReap(s: State): State {
    match s.hostReaper case Some(t) => Cancel(s, t).(hostReaper := None) case None => s
  }

  function ScheduleReap(s: State, id: PlayerId): State {
    var calm := CancelReap(s, id);
    Schedule(calm, ReapPlayer(id), PLAYER_GRACE_MS).(reapers := calm.reapers[id := calm.nextTimer])
  }

  function ScheduleHostReap(s: State): State {
    var calm := CancelHostReap(s);
    Schedule(calm, ReapHost, HOST_GRACE_MS).(hostReaper := Some(calm.nextTimer))
  }

  // ------------------------------------------------------------ transitions

  function Result(s: State, event: Rooms.RoomEvent, actor: Viewer, draw: Rooms.Draw): Rooms.RoomResult {
    Rooms.Reduce(s.room, event, actor, s.registry, draw)
  }

  /** A game event that changed nothing is not sent again; anything else accepted is. */
  function Apply(s: State, event: Rooms.RoomEvent, actor: Viewer, draw: Rooms.Draw): State {
    var r := Result(s, event, actor, draw);
    if r.Refused? || (r.Same? && event.GameEvent?) then s
    else ScheduleBroadcast(s.(room := Rooms.Becomes(s.room, r)))
  }

  /** Apply, and relay a refusal to the connection that asked. */
  function ApplyFor(s: State, c: Conn, event: Rooms.RoomEvent, actor: Viewer, draw: Rooms.Draw): State {
    match Result(s, event, actor, draw)
    case Refused(e) => Complain(s, c, ErrorText(e))
    case _ => Apply(s, event, actor, draw)
  }

  function AddHost(s: State, c: Conn): State {
    ScheduleBroadcast(Tell(s.(members := s.members[c := Host]), c, Opened(s.room.code, s.hostToken)))
  }

  /** The connections attached to a seat. */
  function Attached(s: State, viewer: Viewer): set<Conn> {
    set c | c in s.members && s.members[c] == viewer
  }

  /** The connections of a seat are told why, closed and forgotten. */
  function Supersede(s: State, conns: set<Conn>): State {
    s.(members := s.members - conns,
       log := map c | c in s.log.Keys + conns ::
         if c in conns then Log(s, c) + [Delivery(None, ErrorMessage(s, "SUPERSEDED"))] else s.log[c],
       shut := s.shut + conns)
  }

  predicate ResumeAccepted(s: State, hostToken: Token) {
    hostToken == s.hostToken
  }

  function ResumeHost(s: State, c: Conn, hostToken: Token): State {
    if !ResumeAccepted(s, hostToken) then Complain(s, c, "BAD_HOST_TOKEN")
    else
      var calm := CancelHostReap(s);
      AddHost(Supersede(calm, Attached(calm, Host)), c)
  }

  function FirstNew(players: seq<Player>, before: set<PlayerId>): Option<PlayerId> {
    if players == [] then None
    else if players[0].id !in before then Some(players[0].id)
    else FirstNew(players[1..], before)
  }

  /** The id a join attaches to: the new player's, or the one its token resumes. */
  function JoinedId(s: State, after: Rooms.Room, token: Option<Token>): Option<PlayerId> {
    match FirstNew(after.players, Ids(s.room.players))
    case Some(id) => Some(id)
    case None => if token.None? then None else Rooms.PlayerIdForToken(after, token.value)
  }

  predicate IsNew(s: State, after: Rooms.Room) {
    FirstNew(after.players, Ids(s.room.players)).Some?
  }

  predicate JoinAccepted(s: State, nickname: string, token: Option<Token>, draw: Rooms.Draw) {
    var r := Result(s, Rooms.Join(nickname, token), Host, draw);
    var after := Rooms.Becomes(s.room, r);
    && !r.Refused?
    && JoinedId(s, after, token).Some? && JoinedId(s, after, token).value in after.tokens.vals
  }

  /** What a join pushes out: the old connection of a resumed seat. */
  function JoinEvicts(s: State, nickname: string, token: Option<Token>, draw: Rooms.Draw): set<Conn> {
    if !JoinAccepted(s, nickname, token, draw) then {}
    else
      var after := Rooms.Becomes(s.room, Result(s, Rooms.Join(nickname, token), Host, draw));
      if IsNew(s, after) then {} else Attached(s, Seat(JoinedId(s, after, token).value))
  }

  function Join(s: State, c: Conn, nickname: string, token: Option<Token>, draw: Rooms.Draw): State {
    match Result(s, Rooms.Join(nickname, token), Host, draw)
    case Refused(e) => Complain(s, c, ErrorText(e))
    case r =>
      var applied := Apply(s, Rooms.Join(nickname, token), Host, draw);
      if !JoinAccepted(s, nickname, token, draw) then Complain(applied, c, "JOIN_FAILED")
      else
        var id := JoinedId(s, applied.room, token).value;
        var ready :=
          if IsNew(s, applied.room) then applied
          else Supersede(CancelReap(applied, id), Attached(applied, Seat(id)));
        Tell(ready.(members := ready.members[c := Seat(id)]), c,
             Joined(applied.room.code, id, applied.room.tokens.vals[id]))
  }

  function HostAct(s: State, c: Conn, action: HostAction, gameId: Option<GameId>, config: Option<Json>, draw: Rooms.Draw): State {
    if c !in s.members || s.members[c] != Host then Complain(s, c, "NOT_HOST")
    else
      match HostEvent(action, gameId, config)
      case None => Complain(s, c, "NO_GAME_ID")
      case Some(event) => ApplyFor(s, c, event, Host, draw)
  }

  function Play(s: State, c: Conn, raw: Json, draw: Rooms.Draw): State {
    if c !in s.members then Complain(s, c, "NOT_IN_ROOM")
    else
      match s.members[c]
      case Host =>
        if !IsAdvance(raw) then Complain(s, c, "HOST_CANNOT_PLAY")
        else ApplyFor(s, c, Rooms.GameEvent(raw), Host, draw)
      case Seat(id) =>
        if IsAdvance(raw) then Complain(s, c, "ADVANCE_IS_HOST_ONLY")
        else ApplyFor(s, c, Rooms.GameEvent(StampPlayerId(raw, id)), Seat(id), draw)
  }

  function Leave(s: State, c: Conn, draw: Rooms.Draw): State {
    if c !in s.members then s
    else
      var viewer := s.members[c];
      var gone := s.(members := s.members - {c});
      match viewer
      case Host => Apply(gone, Rooms.Leave, Host, draw)
      case Seat(id) => Apply(CancelReap(gone, id), Rooms.Leave, Seat(id), draw)
  }

  function Disconnect(s: State, c: Conn): State {
    if c !in s.members then s
    else
      var viewer := s.members[c];
      var gone := s.(members := s.members - {c});
      match viewer
      case Host => ScheduleHostReap(gone)
      case Seat(id) => ScheduleReap(gone, id)
  }

  /** A grace timer fires. */
  function Fire(s: State, t: TimerId, draw: Rooms.Draw): State
    requires t in s.timers
  {
    var fired := Cancel(s, t);
    match s.timers[t].task
    case ReapHost => Apply(fired.(hostReaper := None), Rooms.Leave, Host, draw)
    case ReapPlayer(id) => Apply(fired.(reapers := s.reapers - {id}), Rooms.Leave, Seat(id), draw)
  }

  // ------------------------------------------------------------- broadcast

  function RoundsTotal(room: Rooms.Room, registry: Games.Registry): nat {
    match Rooms.ActiveGame(room, registry)
    case Some(game) => (match Games.RoundCount(game, room.gameConfig) case Some(n) => n case None => 0)
    case None => 0
  }

  function PublicOf(p: Player): PublicPlayer {
    PublicPlayer(p.id, p.nickname, p.spectator)
  }

  /** The entries of the tally, in order. */
  function Standings(tally: Record<int>): seq<Score> {
    seq(|tally.keys|, i requires 0 <= i < |tally.keys| => Score(tally.keys[i], tally.vals[tally.keys[i]]))
  }

  /** The redacted payload of a viewer; scores only once the phase shows them. */
  function GameFor(room: Rooms.Room, registry: Games.Registry, viewer: Viewer): (Games.GameView, Option<seq<Score>>) {
    match Rooms.ActiveGame(room, registry)
    case None => (Games.NoView, None)
    case Some(game) =>
      if room.gameState.NoState? || room.phase == Rooms.Lobby then (Games.NoView, None)
      else (Games.View(game, room.gameState, viewer),
            if room.phase == Rooms.ShowScores
            then Some(Rooms.RoundScores(room.players, room.gameState, game)) else None)
  }

  function FrameFor(room: Rooms.Room, registry: Games.Registry, viewer: Viewer): Frame {
    var game := GameFor(room, registry, viewer);
    Frame(room.code, room.phase, Map(room.players, PublicOf), room.selectedGameId, game.0, game.1,
          Standings(room.sessionScores), room.round, RoundsTotal(room, registry))
  }

  function DrainMessage(s: State, c: Conn): Delivery
    requires c in s.members
  {
    if s.room.closed then Delivery(None, ErrorMessage(s, "ROOM_CLOSED"))
    else Delivery(Some(s.members[c]), FrameMessage(FrameFor(s.room, s.registry, s.members[c])))
  }

  /** Each of these members is sent its own message. */
  function SentTo(s: State, conns: set<Conn>): State
    requires conns <= s.members.Keys
  {
    s.(log := map c | c in s.log.Keys + conns ::
         if c in conns then Log(s, c) + [DrainMessage(s, c)] else s.log[c])
  }

  /** The queued microtask: one frame to every member, or the end of a closed room. */
  function Drain(s: State): State {
    var sent := SentTo(s, s.members.Keys).(pendingBroadcast := false);
    if !s.room.closed then sent
    else sent.(members := map[], reapers := map[], hostReaper := None,
               timers := s.timers - s.reapers.Values - HostTimer(s))
  }

  function HostTimer(s: State): set<TimerId> {
    match s.hostReaper case Some(t) => {t} case None => {}
  }
}
