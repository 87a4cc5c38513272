/** apps/server/src/roomHub.ts on values: the live rooms and who opened each, without the
    indices the server keeps beside them. Which room a connection acts in is read off the
    rooms themselves; the class RoomHub is proved to find the same answer in `sessionOf`,
    and its per-address counters to count these rooms. */
module Hub {
  import opened Collections
  import opened Values
  import opened Protocol
  import opened RoomLaws
  import Session
  import SessionLaws
  import SessionTheorems
  import Authority
  import Rooms
  import Games

  datatype State = State(
    registry: Games.Registry,
    maxRooms: nat,
    maxRoomsPerAddress: nat,
    rooms: map<RoomCode, Session.State>,
    openers: map<RoomCode, Conn>,
    said: map<Conn, seq<ServerMessage>>)

  function Empty(registry: Games.Registry, maxRooms: nat, maxRoomsPerAddress: nat): State {
    State(registry, maxRooms, maxRoomsPerAddress, map[], map[], map[])
  }

  function Said(said: map<Conn, seq<ServerMessage>>, c: Conn, m: ServerMessage): map<Conn, seq<ServerMessage>> {
    said[c := (if c in said then said[c] else []) + [m]]
  }

  function Reply(h: State, c: Conn, code: RoomCode, message: string): State {
    h.(said := Said(h.said, c, Error(code, Some(message))))
  }

  ghost predicate IsIn(h: State, c: Conn, code: RoomCode) {
    code in h.rooms && c in h.rooms[code].members
  }

  /** The room a connection is attached to. */
  ghost function RoomOf(h: State, c: Conn): Option<RoomCode> {
    if exists code :: IsIn(h, c, code) then
      var code :| IsIn(h, c, code);
      Some(code)
    else None
  }

  /** The live rooms opened from an address. */
  function OpenedFrom(openers: map<RoomCode, Conn>, address: string): set<RoomCode> {
    set code | code in openers && openers[code].address == Some(address)
  }

  // ------------------------------------------------------------ transitions

  /** `code` is the unused code createRoom picks. */
  ghost function Open(h: State, c: Conn, code: RoomCode, draw: Rooms.Draw): State {
    if RoomOf(h, c).Some? then Reply(h, c, "", "ALREADY_IN_ROOM")
    else if |h.rooms| >= h.maxRooms then Reply(h, c, "", "SERVER_FULL")
    else if c.address.Some? && |OpenedFrom(h.openers, c.address.value)| >= h.maxRoomsPerAddress then
      Reply(h, c, "", "TOO_MANY_ROOMS")
    else
      var session := Session.Fresh(Rooms.CreateRoom(code, draw.id), h.registry, draw.secret);
      h.(rooms := h.rooms[code := Session.AddHost(session, c)], openers := h.openers[code := c])
  }

  function Attempt(s: Session.State, op: SessionLaws.Op, draw: Rooms.Draw): Session.State
    requires op.OpJoin? || op.OpResumeHost?
  {
    if op.OpJoin? then Session.Join(s, op.c, op.nickname, op.token, draw) else Session.ResumeHost(s, op.c, op.hostToken)
  }

  ghost function Attach(h: State, code: RoomCode, op: SessionLaws.Op, draw: Rooms.Draw): State
    requires op.OpJoin? || op.OpResumeHost?
  {
    if RoomOf(h, op.c).Some? then Reply(h, op.c, code, "ALREADY_IN_ROOM")
    else if code !in h.rooms then Reply(h, op.c, code, "NO_SUCH_ROOM")
    else h.(rooms := h.rooms[code := Attempt(h.rooms[code], op, draw)])
  }

  /** The room a bound connection acts in is its own, whatever code the message names. */
  ghost function Route(h: State, code: RoomCode, op: SessionLaws.Op, draw: Rooms.Draw): State
    requires op.OpHostAct? || op.OpPlay? || op.OpLeave?
  {
    match RoomOf(h, op.c)
    case None => Reply(h, op.c, code, "NOT_IN_ROOM")
    case Some(home) =>
      if home in h.rooms then h.(rooms := h.rooms[home := SessionLaws.Step(h.rooms[home], op, draw)]) else h
  }

  ghost function Handle(h: State, c: Conn, m: ClientMessage, code: RoomCode, draw: Rooms.Draw): State {
    match m
    case Open(_) => Open(h, c, code, draw)
    case Join(room, nickname, token) => Attach(h, room, SessionLaws.OpJoin(c, nickname, token), draw)
    case ResumeHost(room, token) => Attach(h, room, SessionLaws.OpResumeHost(c, token), draw)
    case HostCommand(room, action, gameId, config) => Route(h, room, SessionLaws.OpHostAct(c, action, gameId, config), draw)
    case Play(room, event) => Route(h, room, SessionLaws.OpPlay(c, event), draw)
    case Leave(room) => Route(h, room, SessionLaws.OpLeave(c), draw)
    case Ping => h.(said := Said(h.said, c, Pong))
  }

  ghost function Disconnect(h: State, c: Conn): State {
    match RoomOf(h, c)
    case None => h
    case Some(home) =>
      if home in h.rooms then h.(rooms := h.rooms[home := Session.Disconnect(h.rooms[home], c)]) else h
  }

  function Fire(h: State, code: RoomCode, t: Session.TimerId, draw: Rooms.Draw): State
    requires code in h.rooms && t in h.rooms[code].timers
  {
    h.(rooms := h.rooms[code := Session.Fire(h.rooms[code], t, draw)])
  }

  /** A room whose farewell has been sent is forgotten, and so is who opened it. */
  function Drain(h: State, code: RoomCode): State
    requires code in h.rooms
  {
    if h.rooms[code].room.closed then h.(rooms := h.rooms - {code}, openers := h.openers - {code})
    else h.(rooms := h.rooms[code := Session.Drain(h.rooms[code])])
  }

  // -------------------------------------------------------------- invariant

  /** No connection is attached in two rooms. */
  ghost predicate OneRoomEach(h: State) {
    forall c, a, b :: IsIn(h, c, a) && IsIn(h, c, b) ==> a == b
  }

  ghost predicate Sessions(h: State, used: Issued) {
    forall code :: code in h.rooms ==>
      && SessionLaws.Inv(h.rooms[code], used) && !SessionLaws.Dead(h.rooms[code])
      && h.rooms[code].room.code == code && h.rooms[code].registry == h.registry
  }

  ghost predicate WithinLimits(h: State) {
    && |h.rooms| <= h.maxRooms
    && forall a :: |OpenedFrom(h.openers, a)| <= h.maxRoomsPerAddress
  }

  ghost predicate Inv(h: State, used: Issued) {
    && Games.WellFormed(h.registry)
    && Sessions(h, used) && OneRoomEach(h) && h.openers.Keys == h.rooms.Keys && WithinLimits(h)
  }

  datatype Event =
    | Receives(c: Conn, message: ClientMessage, code: RoomCode, draw: Rooms.Draw)
    | Drops(c: Conn, draw: Rooms.Draw)
    | Fires(room: RoomCode, timer: Session.TimerId, draw: Rooms.Draw)
    | Drains(room: RoomCode, draw: Rooms.Draw)

  /** What createRoom and the runtime guarantee: a new code is not in use, only pending
      timers fire and only scheduled drains run. */
  ghost predicate Enabled(h: State, e: Event) {
    match e
    case Receives(_, _, code, _) => code !in h.rooms
    case Drops(_, _) => true
    case Fires(room, t, _) => room in h.rooms && t in h.rooms[room].timers
    case Drains(room, _) => room in h.rooms && h.rooms[room].pendingBroadcast
  }

  ghost function Step(h: State, e: Event): State
    requires Enabled(h, e)
  {
    match e
    case Receives(c, m, code, draw) => Handle(h, c, m, code, draw)
    case Drops(c, _) => Disconnect(h, c)
    case Fires(room, t, draw) => Fire(h, room, t, draw)
    case Drains(room, _) => Drain(h, room)
  }

  ghost function Run(h: State, events: seq<Event>): State {
    if events == [] then h
    else
      var before := Run(h, events[..|events| - 1]);
      if Enabled(before, events[|events| - 1]) then Step(before, events[|events| - 1]) else before
  }

  function SpendAll(used: Issued, events: seq<Event>): Issued {
    if events == [] then used
    else Spend(SpendAll(used, events[..|events| - 1]), events[|events| - 1].draw)
  }

  ghost predicate FreshRun(used: Issued, events: seq<Event>) {
    events == [] ||
    (var front := events[..|events| - 1];
     FreshRun(used, front) && RoomLaws.Fresh(SpendAll(used, front), events[|events| - 1].draw))
  }
}
