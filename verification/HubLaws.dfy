/** What the hub keeps over every run: a connection is in one room at most, every live
    session keeps its own invariant, and the limits on rooms hold. */
module HubLaws {
  import opened Values
  import opened Protocol
  import opened RoomLaws
  import opened Hub
  import Session
  import SessionLaws
  import SessionTheorems
  import Rooms
  import Games

  // ---------------------------------------------------------- connections

  lemma RoomOfIs(h: Hub.State, c: Conn, code: RoomCode)
    requires OneRoomEach(h) && IsIn(h, c, code)
    ensures RoomOf(h, c) == Some(code)
  {
  }

  lemma RoomOfNone(h: Hub.State, c: Conn)
    ensures RoomOf(h, c).None? <==> forall code :: !IsIn(h, c, code)
    ensures RoomOf(h, c).Some? ==> IsIn(h, c, RoomOf(h, c).value)
  {
  }

  // ------------------------------------------- what one session step touches

  /** A step other than a drain leaves the code and the registry, attaches nobody but who
      asked, and either leaves the room alone or is about to broadcast. */
  ghost predicate Tame(s: Session.State, t: Session.State, joining: set<Conn>) {
    && t.registry == s.registry && t.room.code == s.room.code
    && t.members.Keys <= s.members.Keys + joining
    && (t.pendingBroadcast || (t.room == s.room && t.pendingBroadcast == s.pendingBroadcast))
  }

  lemma TakeKeepsCode(room: Rooms.Room, step: RoomLaws.Step, registry: Games.Registry)
    ensures Take(room, step, registry).code == room.code
  {
    hide Take;
    if step.event.Join? || step.event == Rooms.Leave {
      RosterMoves(room, step, registry);
    } else {
      SessionLaws.RosterAfter(room, step, registry);
    }
  }

  lemma ApplyIsTame(s: Session.State, event: Rooms.RoomEvent, actor: Viewer, draw: Rooms.Draw)
    ensures Tame(s, Session.Apply(s, event, actor, draw), {})
  {
    hide Rooms.Reduce, Take;
    SessionLaws.ApplyMoves(s, event, actor, draw);
    TakeKeepsCode(s.room, RoomLaws.Step(event, actor, draw), s.registry);
    ApplyPends(s, event, actor, draw);
  }

  lemma ApplyPends(s: Session.State, event: Rooms.RoomEvent, actor: Viewer, draw: Rooms.Draw)
    ensures var t := Session.Apply(s, event, actor, draw); t.pendingBroadcast || t == s
  {
    hide Rooms.Reduce;
  }

  lemma ApplyForIsTame(s: Session.State, c: Conn, event: Rooms.RoomEvent, actor: Viewer, draw: Rooms.Draw)
    ensures Tame(s, Session.ApplyFor(s, c, event, actor, draw), {})
  {
    hide Rooms.Reduce, Session.Apply;
    ApplyIsTame(s, event, actor, draw);
  }

  lemma JoinIsTame(s: Session.State, c: Conn, nickname: string, token: Option<Token>, draw: Rooms.Draw)
    ensures Tame(s, Session.Join(s, c, nickname, token, draw), {c})
  {
    hide Rooms.Reduce, Session.Apply, Session.JoinedId, Session.IsNew, Session.CancelReap, Session.Supersede, Session.Tell,
         Session.JoinAccepted, Session.Join, Session.Attached, Take;
    var e := Rooms.Join(nickname, token);
    ApplyIsTame(s, e, Host, draw);
    if Session.JoinAccepted(s, nickname, token, draw) {
      TakeKeepsCode(s.room, RoomLaws.Step(e, Host, draw), s.registry);
      TakenIs(s, e, Host, draw);
      SessionLaws.JoinMoves(s, c, nickname, token, draw);
    } else {
      RefusedJoin(s, c, nickname, token, draw);
    }
  }

  lemma TakenIs(s: Session.State, event: Rooms.RoomEvent, actor: Viewer, draw: Rooms.Draw)
    ensures Rooms.Becomes(s.room, Session.Result(s, event, actor, draw))
      == Take(s.room, RoomLaws.Step(event, actor, draw), s.registry)
  {
    hide Rooms.Reduce;
  }

  lemma RefusedJoin(s: Session.State, c: Conn, nickname: string, token: Option<Token>, draw: Rooms.Draw)
    requires !Session.JoinAccepted(s, nickname, token, draw)
    ensures var t := Session.Join(s, c, nickname, token, draw);
      t == s.(log := t.log) || t == Session.Apply(s, Rooms.Join(nickname, token), Host, draw).(log := t.log)
  {
    hide Rooms.Reduce, Session.Apply, Session.JoinedId, Session.IsNew, Session.CancelReap, Session.Supersede,
         Session.JoinAccepted;
  }

  lemma ResumeHostIsTame(s: Session.State, c: Conn, token: Token)
    ensures Tame(s, Session.ResumeHost(s, c, token), {c})
  {
    hide Session.CancelHostReap, Session.Supersede, Session.AddHost;
    if Session.ResumeAccepted(s, token) {
      hide Session.ResumeHost;
      SessionLaws.ResumeHostMoves(s, c);
    }
  }

  lemma LeaveIsTame(s: Session.State, c: Conn, draw: Rooms.Draw)
    ensures Tame(s, Session.Leave(s, c, draw), {})
    ensures c !in Session.Leave(s, c, draw).members
  {
    hide Session.Apply, Session.CancelReap;
    if c in s.members {
      var gone := s.(members := s.members - {c});
      match s.members[c]
      case Host =>
        ApplyIsTame(gone, Rooms.Leave, Host, draw);
      case Seat(id) =>
        SessionLaws.CancelReapMoves(gone, id);
        ApplyIsTame(Session.CancelReap(gone, id), Rooms.Leave, Seat(id), draw);
    }
  }

  lemma DisconnectIsTame(s: Session.State, c: Conn)
    ensures Tame(s, Session.Disconnect(s, c), {})
    ensures c !in Session.Disconnect(s, c).members
  {
    hide Session.ScheduleReap, Session.ScheduleHostReap;
    if c in s.members {
      var gone := s.(members := s.members - {c});
      SessionLaws.ScheduleMoves(gone, if s.members[c].Seat? then s.members[c].id else "");
    }
  }

  lemma FireIsTame(s: Session.State, t: Session.TimerId, draw: Rooms.Draw)
    requires t in s.timers
    ensures Tame(s, Session.Fire(s, t, draw), {})
  {
    hide Session.Apply;
    var fired := Session.Cancel(s, t);
    match s.timers[t].task
    case ReapHost => ApplyIsTame(fired.(hostReaper := None), Rooms.Leave, Host, draw);
    case ReapPlayer(id) => ApplyIsTame(fired.(reapers := s.reapers - {id}), Rooms.Leave, Seat(id), draw);
  }

  function Asking(op: SessionLaws.Op): set<Conn> {
    match op
    case OpJoin(c, _, _) => {c}
    case OpResumeHost(c, _) => {c}
    case _ => {}
  }

  lemma StepIsTame(s: Session.State, op: SessionLaws.Op, draw: Rooms.Draw)
    requires SessionLaws.Enabled(s, op) && !op.OpDrain?
    ensures Tame(s, SessionLaws.Step(s, op, draw), Asking(op))
  {
    hide Session.Join, Session.ResumeHost, Session.HostAct, Session.Play, Session.Leave, Session.Disconnect, Session.Fire, Tame;
    match op
    case OpResumeHost(c, token) => ResumeHostIsTame(s, c, token);
    case OpJoin(c, nickname, token) => JoinIsTame(s, c, nickname, token, draw);
    case OpHostAct(c, action, gameId, config) => HostActIsTame(s, c, action, gameId, config, draw);
    case OpPlay(c, event) => PlayIsTame(s, c, event, draw);
    case OpLeave(c) => LeaveIsTame(s, c, draw);
    case OpDisconnect(c) => DisconnectIsTame(s, c);
    case OpFire(t) => FireIsTame(s, t, draw);
  }

  lemma HostActIsTame(s: Session.State, c: Conn, action: HostAction, gameId: Option<GameId>, config: Option<Json>, draw: Rooms.Draw)
    ensures Tame(s, Session.HostAct(s, c, action, gameId, config, draw), {})
  {
    hide Session.ApplyFor, HostEvent;
    var event := HostEvent(action, gameId, config);
    if event.Some? {
      ApplyForIsTame(s, c, event.value, Host, draw);
    }
  }

  lemma PlayIsTame(s: Session.State, c: Conn, raw: Json, draw: Rooms.Draw)
    ensures Tame(s, Session.Play(s, c, raw, draw), {})
  {
    hide Session.ApplyFor, StampPlayerId;
    ApplyForIsTame(s, c, Rooms.GameEvent(raw), Host, draw);
    if c in s.members && s.members[c].Seat? {
      ApplyForIsTame(s, c, Rooms.GameEvent(StampPlayerId(raw, s.members[c].id)), s.members[c], draw);
    }
  }

  // ------------------------------------------------------------- invariant

  lemma SpendKeepsSessions(h: Hub.State, used: Issued, draw: Rooms.Draw)
    requires Hub.Inv(h, used)
    ensures Hub.Inv(h, Spend(used, draw))
  {
    hide SessionLaws.Inv, SessionLaws.Dead, WithinLimits, OneRoomEach;
    forall code | code in h.rooms ensures SessionLaws.Inv(h.rooms[code], Spend(used, draw)) {
      SessionLaws.SpendKeepsInv(h.rooms[code], used, draw);
    }
  }

  lemma ReplyKeepsInv(h: Hub.State, c: Conn, code: RoomCode, message: string, used: Issued)
    requires Hub.Inv(h, used)
    ensures Hub.Inv(Reply(h, c, code, message), used)
  {
    hide SessionLaws.Inv, SessionLaws.Dead;
    assert forall d, x :: IsIn(Reply(h, c, code, message), d, x) == IsIn(h, d, x);
  }

  /** One session moves on. */
  lemma SessionMoves(h: Hub.State, code: RoomCode, t: Session.State, joining: set<Conn>, used: Issued, draw: Rooms.Draw)
    requires Hub.Inv(h, used) && code in h.rooms && Tame(h.rooms[code], t, joining)
    requires SessionLaws.Inv(t, Spend(used, draw))
    requires forall c :: c in joining ==> RoomOf(h, c).None?
    ensures Hub.Inv(h.(rooms := h.rooms[code := t]), Spend(used, draw))
  {
    hide SessionLaws.Inv, WithinLimits, OneRoomEach, RoomOf;
    SpendKeepsSessions(h, used, draw);
    var h' := h.(rooms := h.rooms[code := t]);
    assert h'.rooms.Keys == h.rooms.Keys;
    SameLimits(h, h');
    MovedAlone(h, code, t, joining);
  }

  lemma MovedAlone(h: Hub.State, code: RoomCode, t: Session.State, joining: set<Conn>)
    requires OneRoomEach(h) && code in h.rooms && t.members.Keys <= h.rooms[code].members.Keys + joining
    requires forall c :: c in joining ==> RoomOf(h, c).None?
    ensures OneRoomEach(h.(rooms := h.rooms[code := t]))
  {
    hide RoomOf;
    var h' := h.(rooms := h.rooms[code := t]);
    forall c, a, b | IsIn(h', c, a) && IsIn(h', c, b) ensures a == b {
      RoomOfNone(h, c);
      StillIn(h, code, t, joining, c, a);
      StillIn(h, code, t, joining, c, b);
    }
  }

  lemma StillIn(h: Hub.State, code: RoomCode, t: Session.State, joining: set<Conn>, c: Conn, a: RoomCode)
    requires code in h.rooms && t.members.Keys <= h.rooms[code].members.Keys + joining
    requires IsIn(h.(rooms := h.rooms[code := t]), c, a)
    ensures IsIn(h, c, a) || (c in joining && a == code)
  {
  }

  lemma SameLimits(h: Hub.State, h': Hub.State)
    requires WithinLimits(h) && h'.rooms.Keys == h.rooms.Keys
    requires h' == h.(rooms := h'.rooms)
    ensures WithinLimits(h')
  {
    assert |h'.rooms| == |h'.rooms.Keys| && |h.rooms| == |h.rooms.Keys|;
  }

  lemma OpenKeepsInv(h: Hub.State, c: Conn, code: RoomCode, draw: Rooms.Draw, used: Issued)
    requires Hub.Inv(h, used) && RoomLaws.Fresh(used, draw) && code !in h.rooms
    ensures Hub.Inv(Hub.Open(h, c, code, draw), Spend(used, draw))
  {
    hide Hub.Inv, RoomOf, Session.AddHost, Session.Fresh;
    SpendKeepsSessions(h, used, draw);
    ReplyKeepsInv(h, c, "", "ALREADY_IN_ROOM", Spend(used, draw));
    ReplyKeepsInv(h, c, "", "SERVER_FULL", Spend(used, draw));
    ReplyKeepsInv(h, c, "", "TOO_MANY_ROOMS", Spend(used, draw));
    if Admitted(h, c) {
      OpenedKeepsInv(h, c, code, draw, Spend(used, draw));
    }
  }

  ghost predicate Admitted(h: Hub.State, c: Conn) {
    && RoomOf(h, c).None? && |h.rooms| < h.maxRooms
    && (c.address.Some? ==> |OpenedFrom(h.openers, c.address.value)| < h.maxRoomsPerAddress)
  }

  lemma OpenedKeepsInv(h: Hub.State, c: Conn, code: RoomCode, draw: Rooms.Draw, used: Issued)
    requires Hub.Inv(h, used) && code !in h.rooms && Admitted(h, c)
    ensures var s := Session.AddHost(Session.Fresh(Rooms.CreateRoom(code, draw.id), h.registry, draw.secret), c);
      Hub.Inv(h.(rooms := h.rooms[code := s], openers := h.openers[code := c]), used)
  {
    hide SessionLaws.Inv, RoomOf, Session.AddHost, Session.Fresh, RoomLaws.Inv, WithinLimits, OneRoomEach, Rooms.CreateRoom;
    var room := Rooms.CreateRoom(code, draw.id);
    CreateRoomInv(code, draw.id, h.registry, used);
    NewRoomIs(code, draw.id);
    SessionLaws.OpeningInv(room, h.registry, draw.secret, c, used);
    var s := Session.AddHost(Session.Fresh(room, h.registry, draw.secret), c);
    OpenedIs(room, h.registry, draw.secret, c);
    OpenedAlone(h, c, code, s);
    OpenedLimits(h, c, code, s);
  }

  lemma NewRoomIs(code: RoomCode, hostId: PlayerId)
    ensures var room := Rooms.CreateRoom(code, hostId); room.players == [] && !room.closed && room.code == code
  {
  }

  lemma OpenedIs(room: Rooms.Room, registry: Games.Registry, hostToken: Token, c: Conn)
    ensures var s := Session.AddHost(Session.Fresh(room, registry, hostToken), c);
      s.room == room && s.registry == registry && s.pendingBroadcast && s.members.Keys == {c}
  {
  }

  lemma OpenedAlone(h: Hub.State, c: Conn, code: RoomCode, s: Session.State)
    requires OneRoomEach(h) && RoomOf(h, c).None? && code !in h.rooms && s.members.Keys == {c}
    ensures OneRoomEach(h.(rooms := h.rooms[code := s], openers := h.openers[code := c]))
  {
    var h' := h.(rooms := h.rooms[code := s], openers := h.openers[code := c]);
    RoomOfNone(h, c);
    hide RoomOf;
    forall d, a, b | IsIn(h', d, a) && IsIn(h', d, b) ensures a == b {
      assert a != code ==> IsIn(h, d, a);
      assert b != code ==> IsIn(h, d, b);
    }
  }

  lemma OpenedLimits(h: Hub.State, c: Conn, code: RoomCode, s: Session.State)
    requires WithinLimits(h) && h.openers.Keys == h.rooms.Keys && code !in h.rooms && |h.rooms| < h.maxRooms
    requires c.address.Some? ==> |OpenedFrom(h.openers, c.address.value)| < h.maxRoomsPerAddress
    ensures WithinLimits(h.(rooms := h.rooms[code := s], openers := h.openers[code := c]))
  {
    var openers := h.openers[code := c];
    forall a ensures |OpenedFrom(openers, a)| <= h.maxRoomsPerAddress {
      OneMoreFrom(h.openers, code, c, a);
    }
  }

  /** Opening a room adds one to its opener's address and nothing to any other. */
  lemma OneMoreFrom(openers: map<RoomCode, Conn>, code: RoomCode, c: Conn, a: string)
    requires code !in openers
    ensures OpenedFrom(openers[code := c], a) == OpenedFrom(openers, a) + if c.address == Some(a) then {code} else {}
    ensures |OpenedFrom(openers[code := c], a)| == |OpenedFrom(openers, a)| + if c.address == Some(a) then 1 else 0
  {
    assert OpenedFrom(openers[code := c], a) == OpenedFrom(openers, a) + if c.address == Some(a) then {code} else {};
  }

  /** Closing a room takes one from its opener's address and nothing from any other. */
  lemma OneLessFrom(openers: map<RoomCode, Conn>, code: RoomCode, a: string)
    requires code in openers
    ensures OpenedFrom(openers - {code}, a) == OpenedFrom(openers, a) - if openers[code].address == Some(a) then {code} else {}
    ensures |OpenedFrom(openers - {code}, a)| == |OpenedFrom(openers, a)| - if openers[code].address == Some(a) then 1 else 0
  {
    assert OpenedFrom(openers - {code}, a) == OpenedFrom(openers, a) - if openers[code].address == Some(a) then {code} else {};
  }

  lemma AttachKeepsInv(h: Hub.State, code: RoomCode, op: SessionLaws.Op, draw: Rooms.Draw, used: Issued)
    requires Hub.Inv(h, used) && RoomLaws.Fresh(used, draw) && (op.OpJoin? || op.OpResumeHost?)
    ensures Hub.Inv(Hub.Attach(h, code, op, draw), Spend(used, draw))
  {
    hide SessionLaws.Inv, SessionLaws.Step, RoomOf, Session.Join, Session.ResumeHost, WithinLimits, OneRoomEach;
    SpendKeepsSessions(h, used, draw);
    if RoomOf(h, op.c).Some? || code !in h.rooms {
      ReplyKeepsInv(h, op.c, code, "ALREADY_IN_ROOM", Spend(used, draw));
      ReplyKeepsInv(h, op.c, code, "NO_SUCH_ROOM", Spend(used, draw));
    } else {
      var s := h.rooms[code];
      RoomOfNone(h, op.c);
      assert !IsIn(h, op.c, code);
      AttemptIs(s, op, draw);
      SessionLaws.StepKeepsInv(s, op, draw, used);
      StepIsTame(s, op, draw);
      SessionMoves(h, code, Attempt(s, op, draw), Asking(op), used, draw);
    }
  }

  lemma AttemptIs(s: Session.State, op: SessionLaws.Op, draw: Rooms.Draw)
    requires (op.OpJoin? || op.OpResumeHost?) && SessionLaws.Enabled(s, op)
    ensures Attempt(s, op, draw) == SessionLaws.Step(s, op, draw)
  {
    hide Session.Join, Session.ResumeHost;
  }

  /** A session takes a step that attaches nobody. */
  lemma StepInRoom(h: Hub.State, code: RoomCode, op: SessionLaws.Op, draw: Rooms.Draw, used: Issued)
    requires Hub.Inv(h, used) && RoomLaws.Fresh(used, draw) && code in h.rooms && SessionLaws.Enabled(h.rooms[code], op)
    requires !op.OpJoin? && !op.OpResumeHost? && !op.OpDrain?
    ensures Hub.Inv(h.(rooms := h.rooms[code := SessionLaws.Step(h.rooms[code], op, draw)]), Spend(used, draw))
  {
    hide SessionLaws.Inv, SessionLaws.Step, RoomOf, WithinLimits, OneRoomEach, Tame;
    SessionLaws.StepKeepsInv(h.rooms[code], op, draw, used);
    StepIsTame(h.rooms[code], op, draw);
    SessionMoves(h, code, SessionLaws.Step(h.rooms[code], op, draw), {}, used, draw);
  }

  lemma RouteKeepsInv(h: Hub.State, code: RoomCode, op: SessionLaws.Op, draw: Rooms.Draw, used: Issued)
    requires Hub.Inv(h, used) && RoomLaws.Fresh(used, draw) && (op.OpHostAct? || op.OpPlay? || op.OpLeave?)
    ensures Hub.Inv(Hub.Route(h, code, op, draw), Spend(used, draw))
  {
    hide Hub.Inv, SessionLaws.Step, RoomOf;
    SpendKeepsSessions(h, used, draw);
    match RoomOf(h, op.c)
    case None => ReplyKeepsInv(h, op.c, code, "NOT_IN_ROOM", Spend(used, draw));
    case Some(home) =>
      if home in h.rooms {
        StepInRoom(h, home, op, draw, used);
      }
  }

  lemma DrainKeepsInv(h: Hub.State, code: RoomCode, used: Issued)
    requires Hub.Inv(h, used) && code in h.rooms && h.rooms[code].pendingBroadcast
    ensures Hub.Inv(Hub.Drain(h, code), used)
  {
    if h.rooms[code].room.closed {
      ForgetKeepsInv(h, code, used);
    } else {
      BroadcastKeepsInv(h, code, used);
    }
  }

  lemma ForgetKeepsInv(h: Hub.State, code: RoomCode, used: Issued)
    requires Hub.Inv(h, used) && code in h.rooms
    ensures Hub.Inv(h.(rooms := h.rooms - {code}, openers := h.openers - {code}), used)
  {
    hide SessionLaws.Inv, WithinLimits, SessionLaws.Dead;
    var h' := h.(rooms := h.rooms - {code}, openers := h.openers - {code});
    ForgetKeepsLimits(h, code);
    assert forall c, a :: IsIn(h', c, a) ==> IsIn(h, c, a);
  }

  lemma BroadcastKeepsInv(h: Hub.State, code: RoomCode, used: Issued)
    requires Hub.Inv(h, used) && code in h.rooms && h.rooms[code].pendingBroadcast && !h.rooms[code].room.closed
    ensures Hub.Inv(h.(rooms := h.rooms[code := Session.Drain(h.rooms[code])]), used)
  {
    hide SessionLaws.Inv, Session.Drain, WithinLimits;
    var h' := h.(rooms := h.rooms[code := Session.Drain(h.rooms[code])]);
    SessionLaws.DrainKeepsInv(h.rooms[code], used);
    DrainIs(h.rooms[code]);
    assert h'.rooms.Keys == h.rooms.Keys;
    SameLimits(h, h');
    assert forall c, a :: IsIn(h', c, a) ==> IsIn(h, c, a);
  }

  lemma DrainIs(s: Session.State)
    requires !s.room.closed
    ensures var t := Session.Drain(s);
      t.room == s.room && t.registry == s.registry && t.members == s.members
  {
  }

  lemma ForgetKeepsLimits(h: Hub.State, code: RoomCode)
    requires WithinLimits(h) && code in h.rooms && h.openers.Keys == h.rooms.Keys
    ensures WithinLimits(h.(rooms := h.rooms - {code}, openers := h.openers - {code}))
  {
    assert (h.rooms - {code}).Keys == h.rooms.Keys - {code};
    assert |h.rooms - {code}| == |(h.rooms - {code}).Keys|;
    forall a ensures |OpenedFrom(h.openers - {code}, a)| <= h.maxRoomsPerAddress {
      OneLessFrom(h.openers, code, a);
    }
  }

  lemma HandleKeepsInv(h: Hub.State, c: Conn, m: ClientMessage, code: RoomCode, draw: Rooms.Draw, used: Issued)
    requires Hub.Inv(h, used) && RoomLaws.Fresh(used, draw) && code !in h.rooms
    ensures Hub.Inv(Hub.Handle(h, c, m, code, draw), Spend(used, draw))
  {
    hide Hub.Inv, Hub.Open, Hub.Attach, Hub.Route;
    SpendKeepsSessions(h, used, draw);
    match m
    case Open(_) => OpenKeepsInv(h, c, code, draw, used);
    case Join(room, nickname, token) => AttachKeepsInv(h, room, SessionLaws.OpJoin(c, nickname, token), draw, used);
    case ResumeHost(room, token) => AttachKeepsInv(h, room, SessionLaws.OpResumeHost(c, token), draw, used);
    case HostCommand(room, action, gameId, config) =>
      RouteKeepsInv(h, room, SessionLaws.OpHostAct(c, action, gameId, config), draw, used);
    case Play(room, event) => RouteKeepsInv(h, room, SessionLaws.OpPlay(c, event), draw, used);
    case Leave(room) => RouteKeepsInv(h, room, SessionLaws.OpLeave(c), draw, used);
    case Ping => SaidKeepsInv(h, c, Pong, Spend(used, draw));
  }

  lemma SaidKeepsInv(h: Hub.State, c: Conn, m: ServerMessage, used: Issued)
    requires Hub.Inv(h, used)
    ensures Hub.Inv(h.(said := Said(h.said, c, m)), used)
  {
    hide SessionLaws.Inv, SessionLaws.Dead;
    assert forall d, x :: IsIn(h.(said := Said(h.said, c, m)), d, x) == IsIn(h, d, x);
  }

  lemma FireKeepsInv(h: Hub.State, room: RoomCode, t: Session.TimerId, draw: Rooms.Draw, used: Issued)
    requires Hub.Inv(h, used) && RoomLaws.Fresh(used, draw) && room in h.rooms && t in h.rooms[room].timers
    ensures Hub.Inv(Hub.Fire(h, room, t, draw), Spend(used, draw))
  {
    hide Hub.Inv, Session.Fire;
    StepInRoom(h, room, SessionLaws.OpFire(t), draw, used);
  }

  lemma DropKeepsInv(h: Hub.State, c: Conn, draw: Rooms.Draw, used: Issued)
    requires Hub.Inv(h, used) && RoomLaws.Fresh(used, draw)
    ensures Hub.Inv(Hub.Disconnect(h, c), Spend(used, draw))
  {
    hide Hub.Inv, RoomOf, Session.Disconnect;
    SpendKeepsSessions(h, used, draw);
    match RoomOf(h, c)
    case None =>
    case Some(home) =>
      if home in h.rooms {
        StepInRoom(h, home, SessionLaws.OpDisconnect(c), draw, used);
      }
  }

  lemma StepKeepsInv(h: Hub.State, e: Hub.Event, used: Issued)
    requires Hub.Inv(h, used) && RoomLaws.Fresh(used, e.draw) && Hub.Enabled(h, e)
    ensures Hub.Inv(Hub.Step(h, e), Spend(used, e.draw))
  {
    hide Hub.Inv, Hub.Handle, Hub.Drain, Hub.Disconnect, Hub.Fire;
    match e
    case Receives(c, m, code, draw) => HandleKeepsInv(h, c, m, code, draw, used);
    case Drops(c, draw) => DropKeepsInv(h, c, draw, used);
    case Fires(room, t, draw) => FireKeepsInv(h, room, t, draw, used);
    case Drains(room, draw) =>
      DrainKeepsInv(h, room, used);
      SpendKeepsSessions(Hub.Drain(h, room), used, draw);
  }

  lemma EmptyInv(registry: Games.Registry, maxRooms: nat, maxRoomsPerAddress: nat, used: Issued)
    requires Games.WellFormed(registry)
    ensures Hub.Inv(Hub.Empty(registry, maxRooms, maxRoomsPerAddress), used)
  {
    assert forall a :: OpenedFrom(map[], a) == {};
  }

  /** Whatever messages, drops, timers and drains arrive in whatever order, over all rooms:
      every connection stays in at most one room, every live room keeps its session's
      invariant, and the limits per server and per address hold. */
  lemma {:induction false} RunKeepsInv(h: Hub.State, events: seq<Hub.Event>, used: Issued)
    requires Hub.Inv(h, used) && Hub.FreshRun(used, events)
    ensures Hub.Inv(Hub.Run(h, events), Hub.SpendAll(used, events))
  {
    hide Hub.Inv, Hub.Step, Hub.Enabled;
    if events != [] {
      var front, last := events[..|events| - 1], events[|events| - 1];
      RunKeepsInv(h, front, used);
      SpendKeepsSessions(Hub.Run(h, front), Hub.SpendAll(used, front), last.draw);
      if Hub.Enabled(Hub.Run(h, front), last) {
        StepKeepsInv(Hub.Run(h, front), last, Hub.SpendAll(used, front));
      }
    }
  }

  // ---------------------------------------------------------------- theorems

  /** A closed room, once drained, is gone for good: its code is free, nobody is bound to
      it, its opener's address is one room lighter, and the session left behind has no
      member, no timer and no drain to come. */
  lemma AClosedRoomIsForgotten(h: Hub.State, code: RoomCode, used: Issued, c: Conn, a: string)
    requires Hub.Inv(h, used) && code in h.rooms && h.rooms[code].pendingBroadcast && h.rooms[code].room.closed
    ensures code !in Hub.Drain(h, code).rooms
    ensures RoomOf(Hub.Drain(h, code), c) == if RoomOf(h, c) == Some(code) then None else RoomOf(h, c)
    ensures |OpenedFrom(Hub.Drain(h, code).openers, a)|
      == |OpenedFrom(h.openers, a)| - if h.openers[code].address == Some(a) then 1 else 0
    ensures SessionLaws.Quiet(Session.Drain(h.rooms[code])) && SessionLaws.Dead(Session.Drain(h.rooms[code]))
  {
    hide Hub.Inv, Session.Drain, SessionLaws.Dead, SessionLaws.Quiet, RoomOf, OpenedFrom;
    QuietAtLast(h, code, used);
    OpenersOfRooms(h, used);
    RoomAfterForgetting(h, code, c);
    OneLessFrom(h.openers, code, a);
  }

  lemma QuietAtLast(h: Hub.State, code: RoomCode, used: Issued)
    requires Hub.Inv(h, used) && code in h.rooms && h.rooms[code].pendingBroadcast && h.rooms[code].room.closed
    ensures SessionLaws.Quiet(Session.Drain(h.rooms[code])) && SessionLaws.Dead(Session.Drain(h.rooms[code]))
  {
    SessionTheorems.AClosedRoomIsQuiet(h.rooms[code], used);
  }

  lemma OpenersOfRooms(h: Hub.State, used: Issued)
    requires Hub.Inv(h, used)
    ensures h.openers.Keys == h.rooms.Keys && OneRoomEach(h)
  {
  }

  lemma RoomAfterForgetting(h: Hub.State, code: RoomCode, c: Conn)
    requires OneRoomEach(h) && code in h.rooms && h.rooms[code].room.closed
    ensures RoomOf(Hub.Drain(h, code), c) == if RoomOf(h, c) == Some(code) then None else RoomOf(h, c)
  {
    var h' := Hub.Drain(h, code);
    RoomOfNone(h, c);
    RoomOfNone(h', c);
    assert forall d, a :: IsIn(h', d, a) <==> IsIn(h, d, a) && a != code;
    assert OneRoomEach(h');
    hide RoomOf;
    match RoomOf(h, c)
    case None =>
    case Some(a) =>
      if a != code {
        RoomOfIs(h', c, a);
      }
  }

  /** A rival that takes over a seat leaves the connection it pushed out unbound. */
  lemma TheSupersededAreUnbound(h: Hub.State, code: RoomCode, op: SessionLaws.Op, draw: Rooms.Draw, used: Issued, c: Conn)
    requires Hub.Inv(h, used) && RoomLaws.Fresh(used, draw) && (op.OpJoin? || op.OpResumeHost?)
    requires IsIn(h, c, code) && !IsIn(Hub.Attach(h, code, op, draw), c, code)
    ensures RoomOf(h, op.c).None? && RoomOf(Hub.Attach(h, code, op, draw), c).None?
  {
    hide Sessions, WithinLimits, Attempt, RoomOf;
    var h' := Hub.Attach(h, code, op, draw);
    RoomOfNone(h', c);
    if RoomOf(h', c).Some? {
      AttachElsewhere(h, code, op, draw, c, RoomOf(h', c).value);
      assert false;
    }
  }

  lemma AttachElsewhere(h: Hub.State, code: RoomCode, op: SessionLaws.Op, draw: Rooms.Draw, c: Conn, a: RoomCode)
    requires (op.OpJoin? || op.OpResumeHost?) && a != code && IsIn(Hub.Attach(h, code, op, draw), c, a)
    ensures IsIn(h, c, a)
  {
    hide Attempt, RoomOf;
  }
}
