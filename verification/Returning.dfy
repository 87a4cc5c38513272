/** Coming back: from the moment a player is seated until that seat is given up, its token
    gets its holder back in, whatever happens in the room in between. */
module Returning {
  import opened Collections
  import opened Values
  import opened GameEvents
  import opened Protocol
  import opened Session
  import opened SessionLaws
  import opened RoomLaws
  import opened SessionTheorems
  import Authority
  import Rooms
  import Games
  import Identity

  /** The two ways a seat is given up: its connection leaves, or its reaper fires. */
  predicate GivesUp(s: State, op: Op, id: PlayerId) {
    match op
    case OpLeave(c) => c in s.members && s.members[c] == Seat(id)
    case OpFire(t) => t in s.timers && s.timers[t].task == ReapPlayer(id)
    case _ => false
  }

  /** The seat is given up at no point of the run. */
  ghost predicate Held(s: State, events: seq<Event>, id: PlayerId) {
    events != [] ==>
      var front := events[..|events| - 1];
      Held(s, front, id) && !GivesUp(SessionLaws.Run(s, front), events[|events| - 1].op, id)
  }

  ghost predicate HasToken(room: Rooms.Room, id: PlayerId, token: Token) {
    id in room.tokens.vals && room.tokens.vals[id] == token
  }

  lemma TakeKeepsToken(s: State, step: RoomLaws.Step, used: Issued, id: PlayerId, token: Token)
    requires SessionLaws.Inv(s, used) && RoomLaws.Fresh(used, step.draw) && HasToken(s.room, id, token)
    requires !Identity.LeavesAs(step, id)
    ensures HasToken(Take(s.room, step, s.registry), id, token)
  {
    hide Take, TimersMatch, SeatsHeld, BoardHeld, ScreensCurrent, Coupled, Played;
    Identity.TokenSurvivesStep(s.room, step, s.registry, used, id);
  }

  lemma ApplyForKeepsToken(s: State, c: Conn, event: Rooms.RoomEvent, actor: Viewer, draw: Rooms.Draw, used: Issued,
                           id: PlayerId, token: Token)
    requires SessionLaws.Inv(s, used) && RoomLaws.Fresh(used, draw) && HasToken(s.room, id, token)
    requires event != Rooms.Leave
    ensures HasToken(ApplyFor(s, c, event, actor, draw).room, id, token)
  {
    hide SessionLaws.Inv, Take, ApplyFor, HasToken;
    ApplyForMoves(s, c, event, actor, draw);
    TakeKeepsToken(s, RoomLaws.Step(event, actor, draw), used, id, token);
  }

  lemma HostActKeepsToken(s: State, c: Conn, action: HostAction, gameId: Option<GameId>, config: Option<Json>,
                          draw: Rooms.Draw, used: Issued, id: PlayerId, token: Token)
    requires SessionLaws.Inv(s, used) && RoomLaws.Fresh(used, draw) && HasToken(s.room, id, token)
    ensures HasToken(HostAct(s, c, action, gameId, config, draw).room, id, token)
  {
    hide SessionLaws.Inv, ApplyFor, HasToken;
    match HostEvent(action, gameId, config)
    case Some(event) => ApplyForKeepsToken(s, c, event, Host, draw, used, id, token);
    case None =>
  }

  lemma PlayKeepsToken(s: State, c: Conn, raw: Json, draw: Rooms.Draw, used: Issued, id: PlayerId, token: Token)
    requires SessionLaws.Inv(s, used) && RoomLaws.Fresh(used, draw) && HasToken(s.room, id, token)
    ensures HasToken(Session.Play(s, c, raw, draw).room, id, token)
  {
    hide SessionLaws.Inv, ApplyFor, HasToken, StampPlayerId, IsAdvance;
    if c in s.members {
      var e := if s.members[c].Seat? then StampPlayerId(raw, s.members[c].id) else raw;
      ApplyForKeepsToken(s, c, Rooms.GameEvent(e), s.members[c], draw, used, id, token);
    }
  }

  /** A token is its player's until that player's seat is given up. */
  lemma StepKeepsToken(s: State, op: Op, draw: Rooms.Draw, used: Issued, id: PlayerId, token: Token)
    requires SessionLaws.Inv(s, used) && RoomLaws.Fresh(used, draw) && Enabled(s, op) && !GivesUp(s, op, id)
    requires HasToken(s.room, id, token)
    ensures HasToken(SessionLaws.Step(s, op, draw).room, id, token)
  {
    hide SessionLaws.Inv, HasToken, Take, Session.Join, Session.ResumeHost, Session.Leave, Session.Disconnect, Session.Fire,
         Session.Play, Session.Drain, HostAct;
    match op
    case OpResumeHost(c, t) => Authority.ResumeKeepsRoom(s, c, t);
    case OpJoin(c, nickname, t) =>
      Authority.JoinRoomIs(s, c, nickname, t, draw);
      TakeKeepsToken(s, RoomLaws.Step(Rooms.Join(nickname, t), Host, draw), used, id, token);
    case OpHostAct(c, action, gameId, config) => HostActKeepsToken(s, c, action, gameId, config, draw, used, id, token);
    case OpPlay(c, raw) => PlayKeepsToken(s, c, raw, draw, used, id, token);
    case OpLeave(c) =>
      Authority.LeaveRoomIs(s, c, draw);
      if c in s.members {
        TakeKeepsToken(s, RoomLaws.Step(Rooms.Leave, s.members[c], draw), used, id, token);
      }
    case OpDisconnect(c) => Authority.DisconnectKeepsRoom(s, c);
    case OpFire(t) =>
      Authority.FireRoomIs(s, t, draw);
      TakeKeepsToken(s, RoomLaws.Step(Rooms.Leave, Authority.TaskViewer(s.timers[t].task), draw), used, id, token);
    case OpDrain => Authority.DrainKeepsRoom(s);
  }

  lemma {:induction false} RunKeepsToken(s: State, events: seq<Event>, used: Issued, id: PlayerId, token: Token)
    requires SessionLaws.Inv(s, used) && SessionLaws.FreshRun(used, events) && Held(s, events, id)
    requires HasToken(s.room, id, token)
    ensures HasToken(SessionLaws.Run(s, events).room, id, token)
  {
    hide SessionLaws.Inv, SessionLaws.Step, Enabled, GivesUp, HasToken;
    if events != [] {
      var front, last := events[..|events| - 1], events[|events| - 1];
      RunKeepsToken(s, front, used, id, token);
      SessionLaws.RunKeepsInv(s, front, used);
      if Enabled(SessionLaws.Run(s, front), last.op) {
        StepKeepsToken(SessionLaws.Run(s, front), last.op, last.draw, SessionLaws.SpendAll(used, front), id, token);
      }
    }
  }

  /** With a token that resolves a join is refused for a blank nickname and for nothing
      else, full room or not, and leaves the room as it is. */
  lemma OnlyABlankNicknameIsRefused(s: State, nickname: string, token: Token, id: PlayerId, draw: Rooms.Draw, used: Issued)
    requires SessionLaws.Inv(s, used) && HasToken(s.room, id, token)
    ensures Result(s, Rooms.Join(nickname, Some(token)), Host, draw)
      == if Rooms.NormaliseNickname(nickname) == "" then Rooms.Refuse("EMPTY_NICKNAME") else Rooms.Same
    ensures Rooms.PlayerIdForToken(s.room, token) == Some(id)
  {
    hide RoomLaws.Inv, TimersMatch, SeatsHeld, BoardHeld, ScreensCurrent, Rooms.PlayerIdForToken, Identities,
         Rooms.NormaliseNickname, Rooms.Seated;
    RoomKeepsIdentities(s, used);
    Identity.TokenResolves(s.room, used, token, id);
  }

  /** A seated player's token gets them back to their own seat after every run in which the
      seat is not given up: however many others have come and gone, with the room full, in
      any phase, dropped or still attached elsewhere. The join is turned away only for a
      nickname that normalises to nothing, and changes nothing in the room. */
  lemma ThePlayerComesBack(s: State, events: seq<Event>, used: Issued, id: PlayerId, c: Conn, nickname: string, draw: Rooms.Draw)
    requires SessionLaws.Inv(s, used) && SessionLaws.FreshRun(used, events) && Held(s, events, id)
    requires id in s.room.tokens.vals
    requires var t := SessionLaws.Run(s, events);
      c !in t.members && !Dead(t) && RoomLaws.Fresh(SessionLaws.SpendAll(used, events), draw)
    ensures var token := s.room.tokens.vals[id];
      var t := SessionLaws.Run(s, events);
      var u := Session.Join(t, c, nickname, Some(token), draw);
      && (Rooms.NormaliseNickname(nickname) != "" ==> Welcomed(u, c, id, token))
      && (Rooms.NormaliseNickname(nickname) == "" ==> u == Complain(t, c, "EMPTY_NICKNAME"))
      && u.room == t.room
  {
    hide SessionLaws.Inv, SessionLaws.Run, SessionLaws.SpendAll, Held, Rooms.NormaliseNickname, Session.Join, Rooms.Reduce,
         Dead, RoomLaws.Fresh, Rooms.PlayerIdForToken, Welcomed, Complain;
    var token := s.room.tokens.vals[id];
    var t, spent := SessionLaws.Run(s, events), SessionLaws.SpendAll(used, events);
    SessionLaws.RunKeepsInv(s, events, used);
    RunKeepsToken(s, events, used, id, token);
    OnlyABlankNicknameIsRefused(t, nickname, token, id, draw, spent);
    Authority.JoinRoomIs(t, c, nickname, Some(token), draw);
    if Rooms.NormaliseNickname(nickname) == "" {
      JoinRefused(t, c, nickname, Some(token), draw);
    } else {
      AnAcceptedJoinAlwaysAttaches(t, c, nickname, Some(token), draw, spent);
    }
  }
}
