/** What follows for the people in a room: seats, screens and authority. Each statement is
    about one step from a state that keeps the session invariant, which by
    SessionLaws.RunKeepsInv is every state a session can reach. */
module SessionTheorems {
  import opened Collections
  import opened Values
  import opened GameEvents
  import opened Protocol
  import opened Session
  import opened SessionLaws
  import opened RoomLaws
  import Rooms
  import Rounds
  import Games
  import GamesLaws
  import Identity

  // ----------------------------------------------------------------- seats

  /** A seated player either has exactly one connection and no reaper, or one pending
      reaper and no connection; and nobody else has either. */
  lemma EverySeatIsHeldOnce(s: State, used: Issued, id: PlayerId)
    requires SessionLaws.Inv(s, used) && !Dead(s)
    ensures id in Ids(s.room.players) <==>
      (|Attached(s, Seat(id))| == 1 && id !in s.reapers) || (|Attached(s, Seat(id))| == 0 && id in s.reapers)
    ensures id !in Ids(s.room.players) ==> Attached(s, Seat(id)) == {} && id !in s.reapers
    ensures id in s.reapers ==> s.timers[s.reapers[id]] == Timer(ReapPlayer(id), PLAYER_GRACE_MS)
  {
    hide RoomLaws.Inv, ScreensCurrent, Ids, FrameFor;
    var conns := Attached(s, Seat(id));
    if id in SeatedIds(s.members) {
      var c :| c in s.members && s.members[c].Seat? && s.members[c].id == id;
      assert conns == {c};
    } else {
      forall c | c in conns ensures false {
        MemberSeated(s.members, c);
      }
      assert conns == {};
    }
  }

  /** An open room has exactly one board attached, or one pending host reaper. */
  lemma TheBoardIsHeldOnce(s: State, used: Issued)
    requires SessionLaws.Inv(s, used) && !s.room.closed
    ensures (|Attached(s, Host)| == 1 && s.hostReaper.None?) || (|Attached(s, Host)| == 0 && s.hostReaper.Some?)
    ensures s.hostReaper.Some? ==> s.timers[s.hostReaper.value] == Timer(ReapHost, HOST_GRACE_MS)
  {
    hide RoomLaws.Inv, ScreensCurrent, Ids, FrameFor;
    assert Attached(s, Host) == Boards(s.members);
    if Boards(s.members) != {} {
      var c :| c in Boards(s.members);
      assert Boards(s.members) == {c};
    }
  }

  /** A reaper that fires finds its seat taken and unattended, and removes it. */
  lemma AReaperRemovesAnUnattendedSeat(s: State, used: Issued, t: TimerId, draw: Rooms.Draw)
    requires SessionLaws.Inv(s, used) && t in s.timers && s.timers[t].task.ReapPlayer?
    ensures var id := s.timers[t].task.id;
      && id in Ids(s.room.players) && Attached(s, Seat(id)) == {}
      && Ids(Session.Fire(s, t, draw).room.players) == Ids(s.room.players) - {id}
      && Session.Fire(s, t, draw).members == s.members
  {
    hide RoomLaws.Inv, ScreensCurrent, Ids, FrameFor, Apply;
    var id := s.timers[t].task.id;
    assert HeldBySession(s, t);
    forall c | c in Attached(s, Seat(id)) ensures false {
      MemberSeated(s.members, c);
    }
    LeaveMoves(Cancel(s, t).(reapers := s.reapers - {id}), Seat(id), draw);
  }

  function LastDelivery(s: State, c: Conn): Option<Delivery> {
    var log := Log(s, c);
    if log == [] then None else Some(log[|log| - 1])
  }

  /** The connection was told its id and secret, holds that seat alone, and the secret
      resumes it. */
  ghost predicate Welcomed(t: State, c: Conn, id: PlayerId, secret: Token) {
    && LastDelivery(t, c) == Some(Delivery(None, Joined(t.room.code, id, secret)))
    && c in t.members && t.members[c] == Seat(id) && Attached(t, Seat(id)) == {c} && id !in t.reapers
    && Rooms.PlayerIdForToken(t.room, secret) == Some(id)
  }

  /** The seat a join is for, and the secret that resumes it: the seat its token names, or
      failing that a new player's. */
  function SeatOf(s: State, token: Option<Token>, draw: Rooms.Draw): (PlayerId, Token) {
    if token.Some? && Rooms.PlayerIdForToken(s.room, token.value).Some?
    then (Rooms.PlayerIdForToken(s.room, token.value).value, token.value)
    else (draw.id, draw.secret)
  }

  /** A join the room accepts ends in `joined` with the seat it is for, the one its token
      resumes or the new player's own, and with a secret that resumes that very seat;
      JOIN_FAILED is never sent. */
  lemma AnAcceptedJoinAlwaysAttaches(s: State, c: Conn, nickname: string, token: Option<Token>, draw: Rooms.Draw, used: Issued)
    requires SessionLaws.Inv(s, used) && RoomLaws.Fresh(used, draw) && c !in s.members && !Dead(s)
    requires !Result(s, Rooms.Join(nickname, token), Host, draw).Refused?
    ensures var seat := SeatOf(s, token, draw);
      Welcomed(Session.Join(s, c, nickname, token, draw), c, seat.0, seat.1)
  {
    hide RoomLaws.Inv, ScreensCurrent, Ids, FrameFor, JoinedId, IsNew, TimersMatch, Rooms.PlayerIdForToken, Rooms.Reduce,
         Identities, Session.Join, SeatOf;
    JoinIsForTheSeat(s, nickname, token, draw, used);
    JoinAttaches(s, nickname, token, draw, used);
    JoinMoves(s, c, nickname, token, draw);
    JoinTells(s, c, nickname, token, draw);
    SessionLaws.JoinKeepsInv(s, c, nickname, token, draw, used);
    WelcomedAt(Session.Join(s, c, nickname, token, draw), c, SeatOf(s, token, draw).0, Spend(used, draw));
  }

  lemma JoinIsForTheSeat(s: State, nickname: string, token: Option<Token>, draw: Rooms.Draw, used: Issued)
    requires RoomLaws.Inv(s.room, s.registry, used) && RoomLaws.Fresh(used, draw)
    requires !Result(s, Rooms.Join(nickname, token), Host, draw).Refused?
    ensures var after := Rooms.Becomes(s.room, Result(s, Rooms.Join(nickname, token), Host, draw));
      var seat := SeatOf(s, token, draw);
      JoinedId(s, after, token) == Some(seat.0) && seat.0 in after.tokens.vals && after.tokens.vals[seat.0] == seat.1
  {
    hide Coupled, Played, Rooms.ForwardRoster, DistinctIds, Rooms.PlayerIdForToken, Ids, FirstNew;
    JoinAttaches(s, nickname, token, draw, used);
    if Result(s, Rooms.Join(nickname, token), Host, draw).Same? {
      Identity.TokenResolves(s.room, used, token.value, SeatOf(s, token, draw).0);
    }
  }

  /** A connection that holds a seat and was just told its secret is welcomed. */
  lemma WelcomedAt(t: State, c: Conn, id: PlayerId, used: Issued)
    requires SessionLaws.Inv(t, used) && !Dead(t) && c in t.members && t.members[c] == Seat(id) && id in t.room.tokens.vals
    requires LastDelivery(t, c) == Some(Delivery(None, Joined(t.room.code, id, t.room.tokens.vals[id])))
    ensures Welcomed(t, c, id, t.room.tokens.vals[id])
  {
    hide RoomLaws.Inv, ScreensCurrent, Ids, FrameFor, TimersMatch, Rooms.PlayerIdForToken, Identities, LastDelivery;
    RoomKeepsIdentities(t, used);
    Identity.TokenResolves(t.room, used, t.room.tokens.vals[id], id);
    MemberSeated(t.members, c);
    OnlyOneThere(t, c);
    assert Attached(t, Seat(id)) == {c};
  }

  lemma JoinTells(s: State, c: Conn, nickname: string, token: Option<Token>, draw: Rooms.Draw)
    requires JoinAccepted(s, nickname, token, draw)
    ensures var after := Rooms.Becomes(s.room, Result(s, Rooms.Join(nickname, token), Host, draw));
      var id := JoinedId(s, after, token).value;
      LastDelivery(Session.Join(s, c, nickname, token, draw), c)
        == Some(Delivery(None, Joined(after.code, id, after.tokens.vals[id])))
  {
    hide Rooms.Reduce, JoinedId, IsNew, Supersede, CancelReap, Attached, Ids;
  }

  lemma RoomKeepsIdentities(s: State, used: Issued)
    requires SessionLaws.Inv(s, used)
    ensures Identities(s.room, used)
  {
  }

  /** Once a closed room has said farewell nothing of it is left to act: no connection,
      no timer, and nothing is enabled but asking in vain. */
  lemma AClosedRoomIsQuiet(s: State, used: Issued)
    requires SessionLaws.Inv(s, used) && s.room.closed && s.pendingBroadcast
    ensures Quiet(Session.Drain(s)) && Dead(Session.Drain(s))
  {
    DrainKeepsInv(s, used);
  }

  // --------------------------------------------------------------- screens

  /** One drain sends every attached connection exactly one message and nobody else any. */
  lemma OneDrainOneMessage(s: State, c: Conn)
    ensures Log(Session.Drain(s), c) == Log(s, c) + if c in s.members then [DrainMessage(s, c)] else []
  {
  }

  /** Two sessions alike in everything but what they have sent and whether they are about
      to send. */
  ghost predicate AlikeButSent(s: State, t: State) {
    t == s.(log := t.log, pendingBroadcast := t.pendingBroadcast)
  }

  lemma ApplyAlike(s: State, t: State, event: Rooms.RoomEvent, actor: Viewer, draw: Rooms.Draw)
    requires AlikeButSent(s, t)
    ensures AlikeButSent(Apply(s, event, actor, draw), Apply(t, event, actor, draw))
    ensures Result(s, event, actor, draw) == Result(t, event, actor, draw)
  {
    hide Rooms.Reduce;
  }

  lemma CancelAlike(s: State, t: State, id: PlayerId)
    requires AlikeButSent(s, t)
    ensures AlikeButSent(CancelReap(s, id), CancelReap(t, id))
    ensures AlikeButSent(CancelHostReap(s), CancelHostReap(t))
  {
  }

  lemma ScheduleAlike(s: State, t: State, id: PlayerId)
    requires AlikeButSent(s, t)
    ensures AlikeButSent(ScheduleReap(s, id), ScheduleReap(t, id))
    ensures AlikeButSent(ScheduleHostReap(s), ScheduleHostReap(t))
  {
    hide CancelReap, CancelHostReap;
    CancelAlike(s, t, id);
  }

  lemma TellAlike(s: State, t: State, c: Conn, m: ServerMessage)
    requires AlikeButSent(s, t)
    ensures AlikeButSent(Tell(s, c, m), Tell(t, c, m))
  {
  }

  lemma AcceptedAlike(s: State, t: State, nickname: string, token: Option<Token>, draw: Rooms.Draw)
    requires AlikeButSent(s, t)
    ensures JoinAccepted(s, nickname, token, draw) == JoinAccepted(t, nickname, token, draw)
    ensures forall room :: JoinedId(s, room, token) == JoinedId(t, room, token) && IsNew(s, room) == IsNew(t, room)
  {
    hide Rooms.Reduce, FirstNew, Rooms.PlayerIdForToken, Ids;
  }

  lemma JoinAlike(s: State, t: State, c: Conn, nickname: string, token: Option<Token>, draw: Rooms.Draw)
    requires AlikeButSent(s, t)
    ensures AlikeButSent(Session.Join(s, c, nickname, token, draw), Session.Join(t, c, nickname, token, draw))
  {
    hide Rooms.Reduce, JoinAccepted, JoinedId, IsNew, Session.Join, Apply;
    AcceptedAlike(s, t, nickname, token, draw);
    if JoinAccepted(s, nickname, token, draw) {
      JoinedAlike(s, t, c, nickname, token, draw);
    } else {
      TurnedAwayAlike(s, t, c, nickname, token, draw);
    }
  }

  lemma TurnedAwayAlike(s: State, t: State, c: Conn, nickname: string, token: Option<Token>, draw: Rooms.Draw)
    requires AlikeButSent(s, t) && !JoinAccepted(s, nickname, token, draw) && !JoinAccepted(t, nickname, token, draw)
    ensures AlikeButSent(Session.Join(s, c, nickname, token, draw), Session.Join(t, c, nickname, token, draw))
  {
    hide Rooms.Reduce, JoinAccepted, JoinedId, IsNew, Supersede, CancelReap, Apply, Log;
    ApplyAlike(s, t, Rooms.Join(nickname, token), Host, draw);
  }

  lemma JoinedAlike(s: State, t: State, c: Conn, nickname: string, token: Option<Token>, draw: Rooms.Draw)
    requires AlikeButSent(s, t) && JoinAccepted(s, nickname, token, draw) && JoinAccepted(t, nickname, token, draw)
    ensures AlikeButSent(Session.Join(s, c, nickname, token, draw), Session.Join(t, c, nickname, token, draw))
  {
    hide Rooms.Reduce, JoinedId, IsNew, Session.Join, CancelReap;
    JoinMoves(s, c, nickname, token, draw);
    JoinMoves(t, c, nickname, token, draw);
    AcceptedAlike(s, t, nickname, token, draw);
    var after := Rooms.Becomes(s.room, Result(s, Rooms.Join(nickname, token), Host, draw));
    CancelAlike(s, t, JoinedId(s, after, token).value);
    assert forall v :: Attached(s, v) == Attached(t, v);
  }

  lemma ResumeHostAlike(s: State, t: State, c: Conn, hostToken: Token)
    requires AlikeButSent(s, t)
    ensures AlikeButSent(Session.ResumeHost(s, c, hostToken), Session.ResumeHost(t, c, hostToken))
  {
    hide Supersede, CancelHostReap, AddHost, Log;
    if ResumeAccepted(s, hostToken) {
      HostResumedAlike(s, t, c);
    }
  }

  lemma HostResumedAlike(s: State, t: State, c: Conn)
    requires AlikeButSent(s, t)
    ensures AlikeButSent(Session.ResumeHost(s, c, s.hostToken), Session.ResumeHost(t, c, t.hostToken))
  {
    hide Session.ResumeHost, CancelHostReap;
    ResumeHostMoves(s, c);
    ResumeHostMoves(t, c);
    CancelAlike(s, t, "");
    assert Attached(s, Host) == Attached(t, Host);
  }

  lemma ApplyForAlike(s: State, t: State, c: Conn, event: Rooms.RoomEvent, actor: Viewer, draw: Rooms.Draw)
    requires AlikeButSent(s, t)
    ensures AlikeButSent(ApplyFor(s, c, event, actor, draw), ApplyFor(t, c, event, actor, draw))
  {
    hide Apply, Tell, Result;
    ApplyAlike(s, t, event, actor, draw);
    match Result(s, event, actor, draw)
    case Refused(e) => TellAlike(s, t, c, ErrorMessage(s, ErrorText(e)));
    case _ =>
  }

  lemma HostActAlike(s: State, t: State, c: Conn, action: HostAction, gameId: Option<GameId>, config: Option<Json>, draw: Rooms.Draw)
    requires AlikeButSent(s, t)
    ensures AlikeButSent(HostAct(s, c, action, gameId, config, draw), HostAct(t, c, action, gameId, config, draw))
  {
    hide ApplyFor, HostEvent, Tell;
    TellAlike(s, t, c, ErrorMessage(s, "NOT_HOST"));
    TellAlike(s, t, c, ErrorMessage(s, "NO_GAME_ID"));
    var event := HostEvent(action, gameId, config);
    if event.Some? {
      ApplyForAlike(s, t, c, event.value, Host, draw);
    }
  }

  lemma PlayAlike(s: State, t: State, c: Conn, raw: Json, draw: Rooms.Draw)
    requires AlikeButSent(s, t)
    ensures AlikeButSent(Session.Play(s, c, raw, draw), Session.Play(t, c, raw, draw))
  {
    hide ApplyFor, Tell, StampPlayerId, IsAdvance;
    TellAlike(s, t, c, ErrorMessage(s, "NOT_IN_ROOM"));
    TellAlike(s, t, c, ErrorMessage(s, "HOST_CANNOT_PLAY"));
    TellAlike(s, t, c, ErrorMessage(s, "ADVANCE_IS_HOST_ONLY"));
    ApplyForAlike(s, t, c, Rooms.GameEvent(raw), Host, draw);
    if c in s.members && s.members[c].Seat? {
      var id := s.members[c].id;
      ApplyForAlike(s, t, c, Rooms.GameEvent(StampPlayerId(raw, id)), Seat(id), draw);
    }
  }

  /** What a session does never depends on what it has sent or is about to send. */
  lemma StepAlike(s: State, t: State, op: Op, draw: Rooms.Draw)
    requires AlikeButSent(s, t) && !op.OpDrain? && Enabled(s, op) && Enabled(t, op)
    ensures AlikeButSent(SessionLaws.Step(s, op, draw), SessionLaws.Step(t, op, draw))
  {
    hide Session.Join, Session.ResumeHost, Session.HostAct, Session.Play, Session.Leave, Session.Disconnect, Session.Fire;
    match op
    case OpResumeHost(c, token) => ResumeHostAlike(s, t, c, token);
    case OpJoin(c, nickname, token) => JoinAlike(s, t, c, nickname, token, draw);
    case OpHostAct(c, action, gameId, config) => HostActAlike(s, t, c, action, gameId, config, draw);
    case OpPlay(c, raw) => PlayAlike(s, t, c, raw, draw);
    case OpLeave(c) => LeaveAlike(s, t, c, draw);
    case OpDisconnect(c) => DisconnectAlike(s, t, c);
    case OpFire(x) => FireAlike(s, t, x, draw);
  }

  lemma LeaveAlike(s: State, t: State, c: Conn, draw: Rooms.Draw)
    requires AlikeButSent(s, t)
    ensures AlikeButSent(Session.Leave(s, c, draw), Session.Leave(t, c, draw))
  {
    hide Apply, CancelReap;
    var a, b := s.(members := s.members - {c}), t.(members := t.members - {c});
    if c in s.members {
      match s.members[c]
      case Host => ApplyAlike(a, b, Rooms.Leave, Host, draw);
      case Seat(id) =>
        CancelAlike(a, b, id);
        ApplyAlike(CancelReap(a, id), CancelReap(b, id), Rooms.Leave, Seat(id), draw);
    }
  }

  lemma DisconnectAlike(s: State, t: State, c: Conn)
    requires AlikeButSent(s, t)
    ensures AlikeButSent(Session.Disconnect(s, c), Session.Disconnect(t, c))
  {
    hide ScheduleReap, ScheduleHostReap;
    if c in s.members {
      ScheduleAlike(s.(members := s.members - {c}), t.(members := t.members - {c}),
                    if s.members[c].Seat? then s.members[c].id else "");
    }
  }

  lemma FireAlike(s: State, t: State, x: TimerId, draw: Rooms.Draw)
    requires AlikeButSent(s, t) && x in s.timers
    ensures AlikeButSent(Session.Fire(s, x, draw), Session.Fire(t, x, draw))
  {
    hide Apply;
    var a, b := Cancel(s, x), Cancel(t, x);
    match s.timers[x].task
    case ReapHost => ApplyAlike(a.(hostReaper := None), b.(hostReaper := None), Rooms.Leave, Host, draw);
    case ReapPlayer(id) =>
      ApplyAlike(a.(reapers := s.reapers - {id}), b.(reapers := s.reapers - {id}), Rooms.Leave, Seat(id), draw);
  }

  /** A session that broadcasts at once after every event that scheduled it. */
  function Settle(s: State): State {
    if s.pendingBroadcast then Drain(s) else s
  }

  function EagerRun(s: State, events: seq<Event>): State {
    if events == [] then s else Settle(Advance(EagerRun(s, events[..|events| - 1]), events[|events| - 1]))
  }

  /** Drains at no point, and the room stays open. */
  ghost predicate OpenAndUndrained(s: State, events: seq<Event>) {
    && !SessionLaws.Run(s, events).room.closed
    && (events != [] ==> !events[|events| - 1].op.OpDrain? && OpenAndUndrained(s, events[..|events| - 1]))
  }

  lemma SettleAlike(s: State)
    requires !s.room.closed
    ensures AlikeButSent(s, Settle(s))
  {
  }

  lemma AdvanceAlike(s: State, t: State, e: Event)
    requires AlikeButSent(s, t) && !e.op.OpDrain? && !s.room.closed
    ensures AlikeButSent(Advance(s, e), Advance(t, e))
  {
    hide SessionLaws.Step;
    if Enabled(s, e.op) {
      StepAlike(s, t, e.op, e.draw);
    }
  }

  lemma {:induction false} RunsAlike(s: State, events: seq<Event>)
    requires OpenAndUndrained(s, events)
    ensures AlikeButSent(SessionLaws.Run(s, events), EagerRun(s, events))
  {
    hide Advance, Settle;
    if events != [] {
      var front, last := events[..|events| - 1], events[|events| - 1];
      RunsAlike(s, front);
      AdvanceAlike(SessionLaws.Run(s, front), EagerRun(s, front), last);
      SettleAlike(Advance(EagerRun(s, front), last));
    }
  }

  lemma {:induction false} EagerKeepsInv(s: State, events: seq<Event>, used: Issued)
    requires SessionLaws.Inv(s, used) && SessionLaws.FreshRun(used, events)
    ensures SessionLaws.Inv(EagerRun(s, events), SessionLaws.SpendAll(used, events))
  {
    hide SessionLaws.Inv, SessionLaws.Step, Drain;
    if events != [] {
      var front, last := events[..|events| - 1], events[|events| - 1];
      EagerKeepsInv(s, front, used);
      var mid, spent := EagerRun(s, front), SessionLaws.SpendAll(used, front);
      SpendKeepsInv(mid, spent, last.draw);
      if Enabled(mid, last.op) {
        StepKeepsInv(mid, last.op, last.draw, spent);
      }
      if Advance(mid, last).pendingBroadcast {
        DrainKeepsInv(Advance(mid, last), Spend(spent, last.draw));
      }
    }
  }

  /** Coalescing loses nothing: after any burst and the one drain that follows it, every
      attached connection shows the same last frame as if the session had broadcast after
      every single event. */
  lemma CoalescingLosesNothing(s: State, events: seq<Event>, used: Issued, c: Conn)
    requires SessionLaws.Inv(s, used) && SessionLaws.FreshRun(used, events) && OpenAndUndrained(s, events)
    requires !s.pendingBroadcast
    requires c in SessionLaws.Run(s, events).members
    ensures LastFrame(Log(Settle(SessionLaws.Run(s, events)), c)) == LastFrame(Log(EagerRun(s, events), c))
    ensures LastFrame(Log(Settle(SessionLaws.Run(s, events)), c)).Some?
  {
    var lazy, eager := Settle(SessionLaws.Run(s, events)), EagerRun(s, events);
    SessionLaws.RunKeepsInv(s, events, used);
    EagerKeepsInv(s, events, used);
    RunsAlike(s, events);
    EagerIsSettled(s, events);
    CurrentAfterSettle(SessionLaws.Run(s, events), SessionLaws.SpendAll(used, events));
    hide SessionLaws.Inv, SessionLaws.Run, EagerRun, FrameFor, LastFrame;
    assert ScreensCurrent(lazy) && ScreensCurrent(eager);
  }

  lemma CurrentAfterSettle(s: State, used: Issued)
    requires SessionLaws.Inv(s, used) && !s.room.closed
    ensures ScreensCurrent(Settle(s)) && AlikeButSent(s, Settle(s)) && !Settle(s).pendingBroadcast
  {
    hide RoomLaws.Inv, TimersMatch, SeatsHeld, BoardHeld, ScreensCurrent, Drain;
    SettleAlike(s);
    if s.pendingBroadcast {
      DrainKeepsInv(s, used);
      DrainSettles(s);
    }
  }

  lemma DrainSettles(s: State)
    ensures !Session.Drain(s).pendingBroadcast
  {
  }

  lemma EagerIsSettled(s: State, events: seq<Event>)
    requires !s.pendingBroadcast
    ensures !EagerRun(s, events).pendingBroadcast
  {
    hide Advance, Drain;
    if events != [] {
      DrainSettles(Advance(EagerRun(s, events[..|events| - 1]), events[|events| - 1]));
    }
  }
}
