/** Who gets in: what the hub makes of each handshake, said of connections, limits, tokens
    and nicknames; and that whoever is not let in stops asking. */
module Admission {
  import opened Collections
  import opened Values
  import opened GameEvents
  import opened Protocol
  import opened RoomLaws
  import opened Hub
  import opened SessionTheorems
  import Client
  import HubLaws
  import Session
  import SessionLaws
  import Rooms
  import Games

  ghost predicate Attached(h: Hub.State, c: Conn) {
    exists home :: IsIn(h, c, home)
  }

  /** The hub answers with one error and does nothing else. */
  ghost predicate Told(h: Hub.State, g: Hub.State, c: Conn, code: RoomCode, text: string) {
    g == h.(said := h.said[c := (if c in h.said then h.said[c] else []) + [Error(code, Some(text))]])
  }

  /** A session answers with one error and nothing else happens. */
  ghost predicate Warned(h: Hub.State, g: Hub.State, c: Conn, code: RoomCode, text: string) {
    && code in h.rooms
    && var s := h.rooms[code];
       g == h.(rooms := h.rooms[code :=
         s.(log := s.log[c := Session.Log(s, c) + [Session.Delivery(None, Error(code, Some(text)))]])])
  }

  lemma AttachedIs(h: Hub.State, c: Conn)
    ensures RoomOf(h, c).Some? <==> Attached(h, c)
  {
    HubLaws.RoomOfNone(h, c);
  }

  // --------------------------------------------------------------- opening

  /** A connection in no room, a server with room for one more, and an opener within the
      limit of their address. */
  ghost predicate MayOpen(h: Hub.State, c: Conn) {
    && !Attached(h, c) && |h.rooms| < h.maxRooms
    && (c.address.Some? ==>
          |set code | code in h.openers && h.openers[code].address == c.address| < h.maxRoomsPerAddress)
  }

  /** An empty room in its lobby, with this connection as its board and nobody else, told
      the code and the token that brings it back. */
  ghost predicate NewRoom(s: Session.State, c: Conn, code: RoomCode, token: Token) {
    && s.members == map[c := Host] && s.hostToken == token && s.hostReaper.None? && s.timers == map[]
    && Session.Log(s, c) == [Session.Delivery(None, Opened(code, token))] && s.pendingBroadcast
    && s.room.code == code && s.room.phase == Rooms.Lobby && s.room.players == [] && s.room.tokens.vals == map[]
    && s.room.selectedGameId.None? && !s.room.closed && s.room.round == 0
    && s.room.sessionScores.vals == map[] && s.room.scoreLedger.vals == map[]
  }

  /** Opening makes a new room exactly when the connection may open one, and leaves every
      other room alone. */
  lemma OpeningMakesARoom(h: Hub.State, c: Conn, nickname: string, code: RoomCode, draw: Rooms.Draw)
    requires code !in h.rooms
    ensures var g := Hub.Handle(h, c, Open(nickname), code, draw);
      && (MayOpen(h, c) ==>
            && code in g.rooms && NewRoom(g.rooms[code], c, code, draw.secret) && g.rooms[code].registry == h.registry
            && g == h.(rooms := h.rooms[code := g.rooms[code]], openers := h.openers[code := c]))
      && (!MayOpen(h, c) ==>
            Told(h, g, c, "", if Attached(h, c) then "ALREADY_IN_ROOM"
                              else if |h.rooms| >= h.maxRooms then "SERVER_FULL" else "TOO_MANY_ROOMS"))
  {
    hide RoomOf, Session.AddHost, Session.Fresh, Rooms.CreateRoom;
    AttachedIs(h, c);
    if c.address.Some? {
      assert OpenedFrom(h.openers, c.address.value)
        == set code | code in h.openers && h.openers[code].address == c.address;
    }
    OpenedIsNew(c, code, draw, h.registry);
  }

  lemma OpenedIsNew(c: Conn, code: RoomCode, draw: Rooms.Draw, registry: Games.Registry)
    ensures var s := Session.AddHost(Session.Fresh(Rooms.CreateRoom(code, draw.id), registry, draw.secret), c);
      NewRoom(s, c, code, draw.secret) && s.registry == registry
  {
  }

  // --------------------------------------------------------------- joining

  /** A visible nickname, and a token of a seat or a seat to spare. */
  predicate MayJoin(room: Rooms.Room, nickname: string, token: Option<Token>) {
    && Rooms.NormaliseNickname(nickname) != ""
    && ((token.Some? && Rooms.PlayerIdForToken(room, token.value).Some?) || |room.players| < 50)
  }

  lemma AttemptReaches(h: Hub.State, c: Conn, m: ClientMessage, code: RoomCode, draw: Rooms.Draw)
    requires m.Join? || m.ResumeHost?
    ensures var g := Hub.Handle(h, c, m, code, draw);
      && (Attached(h, c) ==> Told(h, g, c, m.code, "ALREADY_IN_ROOM"))
      && (!Attached(h, c) && m.code !in h.rooms ==> Told(h, g, c, m.code, "NO_SUCH_ROOM"))
      && (!Attached(h, c) && m.code in h.rooms ==>
            g == h.(rooms := h.rooms[m.code := if m.Join? then Session.Join(h.rooms[m.code], c, m.nickname, m.token, draw)
                                               else Session.ResumeHost(h.rooms[m.code], c, m.hostToken)]))
  {
    hide RoomOf, Session.Join, Session.ResumeHost;
    AttachedIs(h, c);
  }

  /** A joiner in no room, to a room there is, gets the seat their token names or a new one
      exactly when they may join; otherwise they are told why and the room goes on. */
  lemma JoiningReachesTheRoom(h: Hub.State, used: Issued, c: Conn, home: RoomCode, nickname: string, token: Option<Token>,
                              code: RoomCode, draw: Rooms.Draw)
    requires Hub.Inv(h, used) && RoomLaws.Fresh(used, draw) && !Attached(h, c) && home in h.rooms
    ensures var g := Hub.Handle(h, c, Join(home, nickname, token), code, draw);
      var s := h.rooms[home];
      && (MayJoin(s.room, nickname, token) ==>
            && home in g.rooms && g == h.(rooms := h.rooms[home := g.rooms[home]])
            && Welcomed(g.rooms[home], c, SeatOf(s, token, draw).0, SeatOf(s, token, draw).1))
      && (!MayJoin(s.room, nickname, token) ==>
            Warned(h, g, c, home, if Rooms.NormaliseNickname(nickname) == "" then "EMPTY_NICKNAME" else "ROOM_FULL"))
  {
    hide Hub.Handle, Session.Join, Welcomed, SeatOf, SessionLaws.Inv, Rooms.Reduce, Rooms.NormaliseNickname,
         Rooms.PlayerIdForToken;
    AttemptReaches(h, c, Join(home, nickname, token), code, draw);
    LiveRoom(h, used, c, home);
    JoinAnswer(h.rooms[home], nickname, token, draw);
    if MayJoin(h.rooms[home].room, nickname, token) {
      AnAcceptedJoinAlwaysAttaches(h.rooms[home], c, nickname, token, draw, used);
    } else {
      SessionLaws.JoinRefused(h.rooms[home], c, nickname, token, draw);
    }
  }

  lemma LiveRoom(h: Hub.State, used: Issued, c: Conn, home: RoomCode)
    requires Hub.Inv(h, used) && home in h.rooms && !Attached(h, c)
    ensures var s := h.rooms[home];
      SessionLaws.Inv(s, used) && !SessionLaws.Dead(s) && c !in s.members && s.room.code == home
  {
    hide SessionLaws.Inv, SessionLaws.Dead;
    assert !IsIn(h, c, home);
  }

  lemma JoinAnswer(s: Session.State, nickname: string, token: Option<Token>, draw: Rooms.Draw)
    ensures var r := Session.Result(s, Rooms.Join(nickname, token), Host, draw);
      && (r.Refused? <==> !MayJoin(s.room, nickname, token))
      && (r.Refused? ==>
            Session.ErrorText(r.error) == if Rooms.NormaliseNickname(nickname) == "" then "EMPTY_NICKNAME" else "ROOM_FULL")
  {
    hide Rooms.Seated, Rooms.PlayerIdForToken, Rooms.NormaliseNickname;
  }

  // -------------------------------------------------------------- the board

  /** The board is this connection alone, told its token again; the room is as it was. */
  ghost predicate BoardBack(s: Session.State, t: Session.State, c: Conn, token: Token) {
    && t.room == s.room && Session.Attached(t, Host) == {c} && t.hostReaper.None?
    && LastDelivery(t, c) == Some(Session.Delivery(None, Opened(s.room.code, token)))
    && (forall d :: d in t.members <==> d == c || (d in s.members && s.members[d] != Host))
  }

  /** The board comes back exactly on the room's own host token; any other is told so and
      the room goes on. */
  lemma OnlyTheHostTokenBringsTheBoardBack(
      h: Hub.State, used: Issued, c: Conn, home: RoomCode, token: Token, code: RoomCode, draw: Rooms.Draw)
    requires Hub.Inv(h, used) && !Attached(h, c) && home in h.rooms
    ensures var g := Hub.Handle(h, c, ResumeHost(home, token), code, draw);
      && (token == h.rooms[home].hostToken ==>
            && home in g.rooms && g == h.(rooms := h.rooms[home := g.rooms[home]])
            && BoardBack(h.rooms[home], g.rooms[home], c, token))
      && (token != h.rooms[home].hostToken ==> Warned(h, g, c, home, "BAD_HOST_TOKEN"))
  {
    hide Hub.Handle, SessionLaws.Inv, SessionLaws.Dead, Session.AddHost, Session.Supersede, Session.CancelHostReap, BoardBack;
    AttemptReaches(h, c, ResumeHost(home, token), code, draw);
    LiveRoom(h, used, c, home);
    if token == h.rooms[home].hostToken {
      BoardComesBack(h.rooms[home], c);
    }
  }

  lemma BoardComesBack(s: Session.State, c: Conn)
    requires c !in s.members
    ensures BoardBack(s, Session.ResumeHost(s, c, s.hostToken), c, s.hostToken)
  {
    SessionLaws.ResumeHostMoves(s, c);
    BoardIsTold(s, c);
    hide Session.ResumeHost, Session.CancelHostReap, LastDelivery;
  }

  lemma BoardIsTold(s: Session.State, c: Conn)
    ensures LastDelivery(Session.ResumeHost(s, c, s.hostToken), c)
      == Some(Session.Delivery(None, Opened(s.room.code, s.hostToken)))
  {
    hide Session.Supersede;
    RoomStays(s, Session.Attached(Session.CancelHostReap(s), Host));
  }

  lemma RoomStays(s: Session.State, conns: set<Conn>)
    ensures var t := Session.Supersede(Session.CancelHostReap(s), conns); t.room == s.room && t.hostToken == s.hostToken
  {
  }

  // ------------------------------------------------- losing one's connection

  /** The connection was told it is superseded, and closed. */
  ghost predicate PushedOut(s: Session.State, d: Conn) {
    && LastDelivery(s, d) == Some(Session.Delivery(None, Error(s.room.code, Some("SUPERSEDED"))))
    && d in s.shut && d !in s.members
  }

  lemma SupersededAreTold(s: Session.State, conns: set<Conn>, v: Viewer, c: Conn, m: ServerMessage, d: Conn)
    requires d in conns && d != c
    ensures var freed := Session.Supersede(s, conns);
      PushedOut(Session.Tell(freed.(members := freed.members[c := v]), c, m), d)
  {
  }

  /** A player who comes back pushes out whoever holds their seat. */
  lemma TheSeatsRivalIsPushedOut(s: Session.State, used: Issued, c: Conn, nickname: string, token: Token, draw: Rooms.Draw, d: Conn)
    requires SessionLaws.Inv(s, used) && RoomLaws.Fresh(used, draw) && c !in s.members
    requires Rooms.NormaliseNickname(nickname) != "" && Rooms.PlayerIdForToken(s.room, token).Some?
    requires d in s.members && s.members[d] == Seat(Rooms.PlayerIdForToken(s.room, token).value)
    ensures PushedOut(Session.Join(s, c, nickname, Some(token), draw), d)
  {
    hide SessionLaws.Inv, Session.Supersede, PushedOut, Rooms.NormaliseNickname, Rooms.PlayerIdForToken, Session.CancelReap,
         Session.Join, Session.JoinedId, Session.IsNew, SeatOf, Rooms.Reduce;
    JoinAnswer(s, nickname, Some(token), draw);
    RoomOfSession(s, used);
    JoinIsForTheSeat(s, nickname, Some(token), draw, used);
    SessionLaws.JoinIsAttach(s, c, nickname, Some(token), draw);
    RivalsOf(s, nickname, token, draw);
    var applied := Session.Apply(s, Rooms.Join(nickname, Some(token)), Host, draw);
    var id := Rooms.PlayerIdForToken(s.room, token).value;
    var calm := Session.CancelReap(applied, id);
    CalmIs(applied, id);
    SupersededAreTold(calm, Session.Attached(calm, Seat(id)), Seat(id), c,
                      Joined(applied.room.code, id, applied.room.tokens.vals[id]), d);
  }

  lemma RoomOfSession(s: Session.State, used: Issued)
    requires SessionLaws.Inv(s, used)
    ensures RoomLaws.Inv(s.room, s.registry, used)
  {
  }

  lemma CalmIs(s: Session.State, id: PlayerId)
    ensures var t := Session.CancelReap(s, id); t.members == s.members && t.room == s.room
  {
  }

  /** A resumed seat is nobody's new one. */
  lemma RivalsOf(s: Session.State, nickname: string, token: Token, draw: Rooms.Draw)
    requires Rooms.NormaliseNickname(nickname) != "" && Rooms.PlayerIdForToken(s.room, token).Some?
    ensures var applied := Session.Apply(s, Rooms.Join(nickname, Some(token)), Host, draw);
      && applied.room == s.room && applied.members == s.members
      && !Session.IsNew(s, applied.room) && Session.JoinedId(s, applied.room, Some(token)) == Rooms.PlayerIdForToken(s.room, token)
      && Rooms.Becomes(s.room, Session.Result(s, Rooms.Join(nickname, Some(token)), Host, draw)) == s.room
      && SeatOf(s, Some(token), draw).0 == Rooms.PlayerIdForToken(s.room, token).value
  {
    SessionLaws.FirstNewIs(s.room.players, Ids(s.room.players));
    hide Rooms.PlayerIdForToken, Rooms.NormaliseNickname, Session.FirstNew, Rooms.Seated;
  }

  /** A board that comes back pushes out the board there is. */
  lemma TheRivalBoardIsPushedOut(s: Session.State, c: Conn, d: Conn)
    requires c !in s.members && d in s.members && s.members[d] == Host
    ensures PushedOut(Session.ResumeHost(s, c, s.hostToken), d)
  {
    hide Session.Supersede, Session.CancelHostReap, PushedOut;
    var calm := Session.CancelHostReap(s);
    CalmBoard(s);
    SupersededAreTold(calm, Session.Attached(calm, Host), Host, c, Opened(s.room.code, s.hostToken), d);
    RoomStays(s, Session.Attached(calm, Host));
    PendingDoesNotMatter(Session.Tell(
      Session.Supersede(calm, Session.Attached(calm, Host)).(
        members := Session.Supersede(calm, Session.Attached(calm, Host)).members[c := Host]),
      c, Opened(s.room.code, s.hostToken)), d);
  }

  lemma CalmBoard(s: Session.State)
    ensures var t := Session.CancelHostReap(s); t.members == s.members && t.room == s.room
  {
  }

  lemma PendingDoesNotMatter(s: Session.State, d: Conn)
    ensures PushedOut(Session.ScheduleBroadcast(s), d) == PushedOut(s, d)
  {
  }

  /** A dropped socket is attached nowhere, and its seat waits three minutes for it, or its
      board one; the room goes on as it was. */
  ghost predicate InGrace(s: Session.State, t: Session.State, c: Conn, viewer: Viewer) {
    && t.members == s.members - {c} && t.room == s.room
    && match viewer
       case Host =>
         t.hostReaper.Some? && t.hostReaper.value in t.timers
         && t.timers[t.hostReaper.value] == Session.Timer(Session.ReapHost, 60_000)
       case Seat(id) =>
         id in t.reapers && t.reapers[id] in t.timers
         && t.timers[t.reapers[id]] == Session.Timer(Session.ReapPlayer(id), 180_000)
  }

  lemma DroppedIsInGrace(s: Session.State, c: Conn)
    requires c in s.members
    ensures InGrace(s, Session.Disconnect(s, c), c, s.members[c])
  {
  }

  lemma ADropStartsTheGrace(h: Hub.State, c: Conn, home: RoomCode)
    requires OneRoomEach(h)
    ensures !Attached(h, c) ==> Hub.Disconnect(h, c) == h
    ensures IsIn(h, c, home) ==>
      var g := Hub.Disconnect(h, c);
      && home in g.rooms && g == h.(rooms := h.rooms[home := g.rooms[home]])
      && InGrace(h.rooms[home], g.rooms[home], c, h.rooms[home].members[c])
  {
    hide RoomOf, Session.Disconnect, InGrace;
    AttachedIs(h, c);
    if IsIn(h, c, home) {
      HubLaws.RoomOfIs(h, c, home);
      DroppedIsInGrace(h.rooms[home], c);
    }
  }

  // ------------------------------------------------------- asking no longer

  /** A transport that is told this stops for good. */
  ghost predicate EndsATransport(code: RoomCode, text: string) {
    forall t :: Client.HandleMessage(t, Some(Error(code, Some(text)))).stopped
  }

  /** A running transport stops on exactly nine errors: those that say its room or its
      place in it is gone or out of reach. */
  lemma ATransportStopsOn(t: Client.State, code: RoomCode, text: string)
    requires !t.stopped
    ensures Client.HandleMessage(t, Some(Error(code, Some(text)))).stopped <==>
      text in {"SUPERSEDED", "ROOM_CLOSED", "NO_SUCH_ROOM", "BAD_HOST_TOKEN", "SERVER_FULL", "TOO_MANY_ROOMS",
               "ROOM_FULL", "EMPTY_NICKNAME", "JOIN_FAILED"}
  {
  }

  lemma TerminalEnds(code: RoomCode, text: string)
    requires text in {"NO_SUCH_ROOM", "SERVER_FULL", "TOO_MANY_ROOMS", "EMPTY_NICKNAME", "ROOM_FULL", "BAD_HOST_TOKEN"}
    ensures EndsATransport(code, text)
  {
    hide Client.HandleMessage;
    forall t ensures Client.HandleMessage(t, Some(Error(code, Some(text)))).stopped {
      if t.stopped {
        StaysStopped(t, code, text);
      } else {
        ATransportStopsOn(t, code, text);
      }
    }
  }

  lemma StaysStopped(t: Client.State, code: RoomCode, text: string)
    requires t.stopped
    ensures Client.HandleMessage(t, Some(Error(code, Some(text)))).stopped
  {
  }

  /** A handshake of a connection in no room either attaches it or is answered with an
      error that ends the transport which sent it: nobody asks again in vain. */
  lemma NobodyAsksAgainInVain(h: Hub.State, used: Issued, c: Conn, m: ClientMessage, code: RoomCode, draw: Rooms.Draw)
    returns (room: RoomCode, text: string)
    requires Hub.Inv(h, used) && RoomLaws.Fresh(used, draw) && !Attached(h, c) && code !in h.rooms
    requires m.Open? || m.Join? || m.ResumeHost?
    ensures var g := Hub.Handle(h, c, m, code, draw);
      Attached(g, c) || (EndsATransport(room, text) && (Told(h, g, c, room, text) || Warned(h, g, c, room, text)))
  {
    hide Hub.Handle, EndsATransport, Told, Warned, MayOpen, MayJoin, Hub.Inv, NewRoom, Welcomed, BoardBack, Session.Attached;
    var g := Hub.Handle(h, c, m, code, draw);
    room, text := "", "SERVER_FULL";
    match m {
      case Open(nickname) =>
        OpeningMakesARoom(h, c, nickname, code, draw);
        text := if |h.rooms| >= h.maxRooms then "SERVER_FULL" else "TOO_MANY_ROOMS";
        if MayOpen(h, c) {
          NewRoomHasBoard(g, c, code, draw.secret);
        }
      case Join(home, nickname, token) =>
        room := home;
        AttemptReaches(h, c, m, code, draw);
        if home in h.rooms {
          JoiningReachesTheRoom(h, used, c, home, nickname, token, code, draw);
          text := if Rooms.NormaliseNickname(nickname) == "" then "EMPTY_NICKNAME" else "ROOM_FULL";
          if MayJoin(h.rooms[home].room, nickname, token) {
            WelcomedIsIn(g, c, home, SeatOf(h.rooms[home], token, draw).0, SeatOf(h.rooms[home], token, draw).1);
          }
        } else {
          text := "NO_SUCH_ROOM";
        }
      case ResumeHost(home, token) =>
        room := home;
        AttemptReaches(h, c, m, code, draw);
        if home in h.rooms {
          OnlyTheHostTokenBringsTheBoardBack(h, used, c, home, token, code, draw);
          text := "BAD_HOST_TOKEN";
          if token == h.rooms[home].hostToken {
            BoardIsIn(h.rooms[home], g, c, home, token);
          }
        } else {
          text := "NO_SUCH_ROOM";
        }
    }
    TerminalEnds(room, text);
  }

  lemma NewRoomHasBoard(g: Hub.State, c: Conn, code: RoomCode, token: Token)
    requires code in g.rooms && NewRoom(g.rooms[code], c, code, token)
    ensures Attached(g, c)
  {
    assert IsIn(g, c, code);
  }

  lemma WelcomedIsIn(g: Hub.State, c: Conn, home: RoomCode, id: PlayerId, secret: Token)
    requires home in g.rooms && Welcomed(g.rooms[home], c, id, secret)
    ensures Attached(g, c)
  {
    assert IsIn(g, c, home);
  }

  lemma BoardIsIn(s: Session.State, g: Hub.State, c: Conn, home: RoomCode, token: Token)
    requires home in g.rooms && BoardBack(s, g.rooms[home], c, token)
    ensures Attached(g, c)
  {
    assert IsIn(g, c, home);
  }
}
