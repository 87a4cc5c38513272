/** apps/server/src/roomSession.ts: one live room and the connections attached to it, as
    the object the server keeps. Every method is proved to be the transition of the same
    name in the module Session, and every handler to keep the session invariant.

    The callbacks `onSuperseded` and `onClosed` are out-parameters: the connections the
    hub is told about. The pending timers of `deps.schedule` and the messages handed to
    each connection are fields. */
module RoomSessions {
  import opened Values
  import opened GameEvents
  import opened Protocol
  import opened Session
  import SessionLaws
  import RoomLaws
  import Rooms
  import Games

  // ------------------------------------------------- one connection at a time

  lemma SupersedeNobody(s: State)
    ensures Session.Supersede(s, {}) == s
  {
    var t := Session.Supersede(s, {});
    assert t.members == s.members && t.log == s.log;
  }

  lemma SupersedeOneMore(s: State, done: set<Conn>, c: Conn)
    requires c !in done
    ensures Session.Supersede(Session.Supersede(s, done), {c}) == Session.Supersede(s, done + {c})
  {
    var one, both := Session.Supersede(Session.Supersede(s, done), {c}), Session.Supersede(s, done + {c});
    assert one.members == both.members;
    assert one.log == both.log;
    assert one.shut == both.shut;
  }

  lemma SentToNobody(s: State)
    ensures Session.SentTo(s, {}) == s
  {
    assert Session.SentTo(s, {}).log == s.log;
  }

  lemma SendOneMore(s: State, done: set<Conn>, c: Conn)
    requires done <= s.members.Keys && c in s.members && c !in done
    ensures var t := Session.SentTo(s, done);
      Session.SentTo(s, done + {c}) == t.(log := t.log[c := Session.Log(t, c) + [Session.DrainMessage(t, c)]])
  {
    var t := Session.SentTo(s, done);
    assert Session.DrainMessage(t, c) == Session.DrainMessage(s, c);
    hide Session.DrainMessage;
    assert Session.SentTo(s, done + {c}).log == t.log[c := Session.Log(t, c) + [Session.DrainMessage(t, c)]];
  }

  lemma SendingIgnoresPending(s: State, t: State)
    requires t == s.(pendingBroadcast := false)
    ensures Session.SentTo(t, t.members.Keys) == Session.SentTo(s, s.members.Keys).(pendingBroadcast := false)
  {
    assert forall c | c in s.members :: Session.DrainMessage(t, c) == Session.DrainMessage(s, c);
    hide Session.DrainMessage;
    assert Session.SentTo(t, t.members.Keys).log == Session.SentTo(s, s.members.Keys).log;
  }

  lemma CalmMembers(s: State)
    ensures Session.Attached(Session.CancelHostReap(s), Host) == Session.Attached(s, Host)
  {
  }

  lemma CalmReapMembers(s: State, id: PlayerId)
    ensures Session.Attached(Session.CancelReap(s, id), Seat(id)) == Session.Attached(s, Seat(id))
  {
  }

  lemma CancelOneMore(timers: map<TimerId, Timer>, gone: set<TimerId>, t: TimerId)
    ensures timers - gone - {t} == timers - (gone + {t})
  {
  }

  /** Making room for a returning player leaves the room's code. */
  lemma AttachCode(s: State, id: PlayerId)
    ensures Session.Supersede(Session.CancelReap(s, id), Session.Attached(Session.CancelReap(s, id), Seat(id))).room == s.room
  {
  }

  // --------------------------------------------------- what a handler keeps

  /** From every state that keeps the session invariant and allows the operation, this one
      keeps it too, whatever had been issued before. */
  ghost predicate Keeps(s: State, op: SessionLaws.Op, t: State) {
    forall used :: SessionLaws.Inv(s, used) && SessionLaws.Enabled(s, op) ==> SessionLaws.Inv(t, used)
  }

  /** The same for a handler that may hand out a new id and secret. */
  ghost predicate KeepsIssuing(s: State, op: SessionLaws.Op, draw: Rooms.Draw, t: State) {
    forall used :: SessionLaws.Inv(s, used) && SessionLaws.Enabled(s, op) && RoomLaws.Fresh(used, draw)
      ==> SessionLaws.Inv(t, RoomLaws.Spend(used, draw))
  }

  /** Around a new room, the session keeps its invariant as soon as its host is attached. */
  ghost predicate OpensWell(s: State, t: State) {
    s == Session.Fresh(s.room, s.registry, s.hostToken) && s.room.players == [] && !s.room.closed ==>
      forall used :: RoomLaws.Inv(s.room, s.registry, used) ==> SessionLaws.Inv(t, used)
  }

  lemma StepKeeps(s: State, op: SessionLaws.Op, draw: Rooms.Draw)
    requires SessionLaws.Enabled(s, op)
    ensures KeepsIssuing(s, op, draw, SessionLaws.Step(s, op, draw))
  {
    hide SessionLaws.Inv, SessionLaws.Step;
    forall used | SessionLaws.Inv(s, used) && RoomLaws.Fresh(used, draw)
      ensures SessionLaws.Inv(SessionLaws.Step(s, op, draw), RoomLaws.Spend(used, draw))
    {
      SessionLaws.StepKeepsInv(s, op, draw, used);
    }
  }

  lemma JoinKeeps(s: State, c: Conn, nickname: string, token: Option<Token>, draw: Rooms.Draw)
    ensures KeepsIssuing(s, SessionLaws.OpJoin(c, nickname, token), draw, Session.Join(s, c, nickname, token, draw))
  {
    hide SessionLaws.Inv, Session.Join;
    if SessionLaws.Enabled(s, SessionLaws.OpJoin(c, nickname, token)) {
      StepKeeps(s, SessionLaws.OpJoin(c, nickname, token), draw);
    }
  }

  lemma ResumeKeeps(s: State, c: Conn, token: Token)
    ensures Keeps(s, SessionLaws.OpResumeHost(c, token), Session.ResumeHost(s, c, token))
  {
    hide SessionLaws.Inv, Session.ResumeHost;
    forall used | SessionLaws.Inv(s, used) && SessionLaws.Enabled(s, SessionLaws.OpResumeHost(c, token))
      ensures SessionLaws.Inv(Session.ResumeHost(s, c, token), used)
    {
      SessionLaws.ResumeHostKeepsInv(s, c, token, used);
    }
  }

  lemma DisconnectKeeps(s: State, c: Conn)
    ensures Keeps(s, SessionLaws.OpDisconnect(c), Session.Disconnect(s, c))
  {
    hide SessionLaws.Inv, Session.Disconnect;
    forall used | SessionLaws.Inv(s, used) ensures SessionLaws.Inv(Session.Disconnect(s, c), used) {
      SessionLaws.DisconnectKeepsInv(s, c, used);
    }
  }

  lemma DrainKeeps(s: State)
    ensures Keeps(s, SessionLaws.OpDrain, Session.Drain(s))
  {
    hide SessionLaws.Inv, Session.Drain;
    forall used | SessionLaws.Inv(s, used) && s.pendingBroadcast ensures SessionLaws.Inv(Session.Drain(s), used) {
      SessionLaws.DrainKeepsInv(s, used);
    }
  }

  lemma AddHostOpens(s: State, c: Conn)
    ensures OpensWell(s, Session.AddHost(s, c))
  {
    hide SessionLaws.Inv, RoomLaws.Inv, Session.AddHost, Session.Fresh;
    forall used | RoomLaws.Inv(s.room, s.registry, used) && s.room.players == [] && !s.room.closed
                  && s == Session.Fresh(s.room, s.registry, s.hostToken)
      ensures SessionLaws.Inv(Session.AddHost(s, c), used)
    {
      SessionLaws.OpeningInv(s.room, s.registry, s.hostToken, c, used);
    }
  }

  class RoomSession {
    const registry: Games.Registry
    const hostToken: Token
    var room: Rooms.Room
    var members: map<Conn, Viewer>
    var reapers: map<PlayerId, TimerId>
    var hostReaper: Option<TimerId>
    var pendingBroadcast: bool

    var timers: map<TimerId, Timer>
    var nextTimer: TimerId
    var log: map<Conn, seq<Delivery>>
    var shut: set<Conn>

    ghost function Value(): (s: State)
      reads this
    {
      State(registry, room, members, reapers, hostToken, hostReaper, pendingBroadcast, timers, nextTimer, log, shut)
    }

    constructor (room: Rooms.Room, registry: Games.Registry, hostToken: Token)
      ensures Value() == Session.Fresh(room, registry, hostToken)
    {
      this.room, this.registry, this.hostToken := room, registry, hostToken;
      members, reapers, hostReaper, pendingBroadcast := map[], map[], None, false;
      timers, nextTimer, log, shut := map[], 0, map[], {};
    }

    lemma Shows()
      ensures Value().room == room && Value().members == members
    {
    }

    // ------------------------------------------------------------- sending

    method Deliver(c: Conn, d: Delivery)
      modifies this`log
      ensures Value() == old(Value()).(log := old(log)[c := Session.Log(old(Value()), c) + [d]])
    {
      log := log[c := (if c in log then log[c] else []) + [d]];
    }

    method Tell(c: Conn, message: ServerMessage)
      modifies this`log
      ensures Value() == Session.Tell(old(Value()), c, message)
    {
      Deliver(c, Delivery(None, message));
    }

    method Complain(c: Conn, message: string)
      modifies this`log
      ensures Value() == Session.Complain(old(Value()), c, message)
    {
      Tell(c, Error(room.code, Some(message)));
    }

    method ScheduleBroadcast()
      modifies this`pendingBroadcast
      ensures Value() == Session.ScheduleBroadcast(old(Value()))
    {
      if pendingBroadcast {
        return;
      }
      pendingBroadcast := true;
    }

    // -------------------------------------------------------------- timers

    method Schedule(task: Task, ms: nat) returns (t: TimerId)
      modifies this`timers, this`nextTimer
      ensures Value() == Session.Schedule(old(Value()), task, ms) && t == old(nextTimer)
    {
      t := nextTimer;
      timers := timers[t := Timer(task, ms)];
      nextTimer := nextTimer + 1;
    }

    method Cancel(t: TimerId)
      modifies this`timers
      ensures Value() == Session.Cancel(old(Value()), t)
    {
      timers := timers - {t};
    }

    method CancelReap(id: PlayerId)
      modifies this`timers, this`reapers
      ensures Value() == Session.CancelReap(old(Value()), id)
    {
      if id in reapers {
        Cancel(reapers[id]);
        reapers := reapers - {id};
      }
    }

    method CancelHostReap()
      modifies this`timers, this`hostReaper
      ensures Value() == Session.CancelHostReap(old(Value()))
    {
      if hostReaper.Some? {
        Cancel(hostReaper.value);
        hostReaper := None;
      }
    }

    method ScheduleReap(id: PlayerId)
      modifies this`timers, this`nextTimer, this`reapers
      ensures Value() == Session.ScheduleReap(old(Value()), id)
    {
      CancelReap(id);
      var t := Schedule(ReapPlayer(id), PLAYER_GRACE_MS);
      reapers := reapers[id := t];
    }

    method ScheduleHostReap()
      modifies this`timers, this`nextTimer, this`hostReaper
      ensures Value() == Session.ScheduleHostReap(old(Value()))
    {
      CancelHostReap();
      var t := Schedule(ReapHost, HOST_GRACE_MS);
      hostReaper := Some(t);
    }

    // ------------------------------------------------------------ eviction

    /** One connection is told why, closed and forgotten. */
    method Supersede(c: Conn)
      modifies this`members, this`log, this`shut
      ensures Value() == Session.Supersede(old(Value()), {c})
    {
      members := members - {c};
      Complain(c, "SUPERSEDED");
      shut := shut + {c};
    }

    /** Everybody attached to a seat is pushed out. */
    method Evict(viewer: Viewer) returns (superseded: set<Conn>)
      modifies this`members, this`log, this`shut
      ensures superseded == Session.Attached(old(Value()), viewer)
      ensures Value() == Session.Supersede(old(Value()), superseded)
    {
      hide Session.Supersede;
      var todo := set c | c in members && members[c] == viewer;
      superseded := {};
      SupersedeNobody(Value());
      while todo != {}
        invariant todo + superseded == Session.Attached(old(Value()), viewer) && todo !! superseded
        invariant Value() == Session.Supersede(old(Value()), superseded)
        decreases |todo|
      {
        var c :| c in todo;
        SupersedeOneMore(old(Value()), superseded, c);
        Supersede(c);
        todo, superseded := todo - {c}, superseded + {c};
      }
    }

    // ------------------------------------------------------------- applying

    method Apply(event: Rooms.RoomEvent, actor: Viewer, draw: Rooms.Draw) returns (r: Rooms.RoomResult)
      modifies this`room, this`pendingBroadcast
      ensures r == Session.Result(old(Value()), event, actor, draw)
      ensures Value() == Session.Apply(old(Value()), event, actor, draw)
    {
      hide Rooms.Reduce;
      r := Rooms.Reduce(room, event, actor, registry, draw);
      var noOp := r.Same? && event.GameEvent?;
      if !r.Refused? && !noOp {
        room := Rooms.Becomes(room, r);
        ScheduleBroadcast();
      }
    }

    method ApplyFor(c: Conn, event: Rooms.RoomEvent, actor: Viewer, draw: Rooms.Draw)
      modifies this`room, this`pendingBroadcast, this`log
      ensures Value() == Session.ApplyFor(old(Value()), c, event, actor, draw)
    {
      hide Rooms.Reduce;
      var r := Apply(event, actor, draw);
      if r.Refused? {
        Complain(c, ErrorText(r.error));
      }
    }

    // ------------------------------------------------------------- handlers

    method AddHost(c: Conn)
      modifies this`members, this`log, this`pendingBroadcast
      ensures Value() == Session.AddHost(old(Value()), c)
      ensures OpensWell(old(Value()), Value())
    {
      hide OpensWell;
      AddHostOpens(Value(), c);
      members := members[c := Host];
      Tell(c, Opened(room.code, hostToken));
      ScheduleBroadcast();
    }

    method ResumeHost(c: Conn, token: Token) returns (resumed: bool, superseded: set<Conn>)
      modifies this
      ensures Value() == Session.ResumeHost(old(Value()), c, token)
      ensures resumed == Session.ResumeAccepted(old(Value()), token)
      ensures superseded == if resumed then Session.Attached(old(Value()), Host) else {}
      ensures Keeps(old(Value()), SessionLaws.OpResumeHost(c, token), Value())
    {
      hide Keeps, OpensWell, Session.Supersede, Session.AddHost, Session.Tell, Session.CancelHostReap;
      ResumeKeeps(Value(), c, token);
      if token != hostToken {
        Complain(c, "BAD_HOST_TOKEN");
        return false, {};
      }
      CancelHostReap();
      CalmMembers(old(Value()));
      superseded := Evict(Host);
      AddHost(c);
      resumed := true;
    }

    /** A seat is taken: a new player's, or a returning one's from whoever holds it. */
    method TakeSeat(c: Conn, id: PlayerId, secret: Token, isNew: bool) returns (superseded: set<Conn>)
      modifies this
      ensures Value() == SessionLaws.Attach(old(Value()), c, id, secret, isNew)
      ensures superseded == if isNew then {} else Session.Attached(old(Value()), Seat(id))
    {
      hide Session.Supersede, Session.CancelReap, Session.Tell, Session.Attached;
      superseded := {};
      if !isNew {
        CalmReapMembers(Value(), id);
        CancelReap(id);
        superseded := Evict(Seat(id));
      }
      AttachCode(old(Value()), id);
      members := members[c := Seat(id)];
      Tell(c, Joined(room.code, id, secret));
    }

    method Join(c: Conn, nickname: string, token: Option<Token>, draw: Rooms.Draw)
      returns (joined: bool, superseded: set<Conn>)
      modifies this
      ensures Value() == Session.Join(old(Value()), c, nickname, token, draw)
      ensures joined == Session.JoinAccepted(old(Value()), nickname, token, draw)
      ensures superseded == Session.JoinEvicts(old(Value()), nickname, token, draw)
      ensures KeepsIssuing(old(Value()), SessionLaws.OpJoin(c, nickname, token), draw, Value())
    {
      hide KeepsIssuing, Rooms.Reduce, Session.FirstNew, Session.Tell, Session.Join, Session.JoinAccepted, Session.JoinEvicts,
           Session.JoinedId, Session.IsNew, Session.Apply, Session.Attached, SessionLaws.Attach, Rooms.PlayerIdForToken, Ids;
      ghost var start := Value();
      JoinKeeps(start, c, nickname, token, draw);
      var before := Ids(room.players);
      var r := Apply(Rooms.Join(nickname, token), Host, draw);
      if r.Refused? {
        SessionLaws.JoinRefused(start, c, nickname, token, draw);
        SessionLaws.RefusedIs(start, nickname, token, draw);
        Complain(c, ErrorText(r.error));
        return false, {};
      }
      SessionLaws.JoinIsAttach(start, c, nickname, token, draw);
      SessionLaws.AcceptedIs(start, nickname, token, draw);
      SessionLaws.JoinedIs(start, room, token);
      var added := FirstNew(room.players, before);
      var id := if added.Some? || token.None? then added else Rooms.PlayerIdForToken(room, token.value);
      if id.None? || id.value !in room.tokens.vals {
        Complain(c, "JOIN_FAILED");
        return false, {};
      }
      superseded := TakeSeat(c, id.value, room.tokens.vals[id.value], added.Some?);
      joined := true;
    }

    method HostAct(c: Conn, action: HostAction, gameId: Option<GameId>, config: Option<Json>, draw: Rooms.Draw)
      modifies this`room, this`pendingBroadcast, this`log
      ensures Value() == Session.HostAct(old(Value()), c, action, gameId, config, draw)
      ensures KeepsIssuing(old(Value()), SessionLaws.OpHostAct(c, action, gameId, config), draw, Value())
    {
      hide KeepsIssuing, Session.ApplyFor, HostEvent;
      StepKeeps(Value(), SessionLaws.OpHostAct(c, action, gameId, config), draw);
      if c !in members || members[c] != Host {
        Complain(c, "NOT_HOST");
        return;
      }
      var event := HostEvent(action, gameId, config);
      if event.None? {
        Complain(c, "NO_GAME_ID");
        return;
      }
      ApplyFor(c, event.value, Host, draw);
    }

    method Play(c: Conn, raw: Json, draw: Rooms.Draw)
      modifies this`room, this`pendingBroadcast, this`log
      ensures Value() == Session.Play(old(Value()), c, raw, draw)
      ensures KeepsIssuing(old(Value()), SessionLaws.OpPlay(c, raw), draw, Value())
    {
      hide KeepsIssuing, Session.ApplyFor, StampPlayerId, IsAdvance;
      StepKeeps(Value(), SessionLaws.OpPlay(c, raw), draw);
      if c !in members {
        Complain(c, "NOT_IN_ROOM");
        return;
      }
      var viewer := members[c];
      var advance := IsAdvance(raw);
      if viewer == Host {
        if !advance {
          Complain(c, "HOST_CANNOT_PLAY");
          return;
        }
        ApplyFor(c, Rooms.GameEvent(raw), viewer, draw);
        return;
      }
      if advance {
        Complain(c, "ADVANCE_IS_HOST_ONLY");
        return;
      }
      ApplyFor(c, Rooms.GameEvent(StampPlayerId(raw, viewer.id)), viewer, draw);
    }

    method Leave(c: Conn, draw: Rooms.Draw)
      modifies this
      ensures Value() == Session.Leave(old(Value()), c, draw)
      ensures KeepsIssuing(old(Value()), SessionLaws.OpLeave(c), draw, Value())
    {
      hide KeepsIssuing, Session.Apply, Session.CancelReap;
      StepKeeps(Value(), SessionLaws.OpLeave(c), draw);
      if c !in members {
        return;
      }
      var viewer := members[c];
      members := members - {c};
      if viewer.Seat? {
        CancelReap(viewer.id);
      }
      var _ := Apply(Rooms.Leave, viewer, draw);
    }

    method Disconnect(c: Conn)
      modifies this
      ensures Value() == Session.Disconnect(old(Value()), c)
      ensures Keeps(old(Value()), SessionLaws.OpDisconnect(c), Value())
    {
      hide Keeps, Session.ScheduleReap, Session.ScheduleHostReap;
      DisconnectKeeps(Value(), c);
      if c !in members {
        return;
      }
      var viewer := members[c];
      members := members - {c};
      if viewer == Host {
        ScheduleHostReap();
        return;
      }
      ScheduleReap(viewer.id);
    }

    /** A pending timer runs its callback. */
    method Fire(t: TimerId, draw: Rooms.Draw)
      requires t in timers
      modifies this
      ensures Value() == Session.Fire(old(Value()), t, draw)
      ensures KeepsIssuing(old(Value()), SessionLaws.OpFire(t), draw, Value())
    {
      hide KeepsIssuing, Session.Apply;
      StepKeeps(Value(), SessionLaws.OpFire(t), draw);
      match timers[t].task {
        case ReapHost =>
          LapseHost(t);
          var _ := Apply(Rooms.Leave, Host, draw);
        case ReapPlayer(id) =>
          Lapse(t, id);
          var _ := Apply(Rooms.Leave, Seat(id), draw);
      }
    }

    method Lapse(t: TimerId, id: PlayerId)
      modifies this`timers, this`reapers
      ensures Value() == Session.Cancel(old(Value()), t).(reapers := old(reapers) - {id})
    {
      Cancel(t);
      reapers := reapers - {id};
    }

    method LapseHost(t: TimerId)
      modifies this`timers, this`hostReaper
      ensures Value() == Session.Cancel(old(Value()), t).(hostReaper := None)
    {
      Cancel(t);
      hostReaper := None;
    }

    // ------------------------------------------------------------ broadcast

    /** The queued microtask. `closedOut` holds the bystanders when `onClosed` is called. */
    method Drain() returns (closedOut: Option<set<Conn>>)
      modifies this
      ensures Value() == Session.Drain(old(Value()))
      ensures closedOut == if old(room.closed) then Some(old(members.Keys)) else None
      ensures Keeps(old(Value()), SessionLaws.OpDrain, Value())
    {
      hide Keeps, Session.DrainMessage, Session.SentTo;
      DrainKeeps(Value());
      pendingBroadcast := false;
      SendingIgnoresPending(old(Value()), Value());
      Broadcast();
      if !room.closed {
        return None;
      }
      closedOut := Some(members.Keys);
      members := map[];
      CancelReapers();
      CancelHostReap();
    }

    /** Every member is sent its own message. */
    method Broadcast()
      modifies this`log
      ensures Value() == Session.SentTo(old(Value()), members.Keys)
    {
      hide FrameFor, Session.SentTo;
      var todo := members.Keys;
      ghost var done: set<Conn> := {};
      SentToNobody(Value());
      while todo != {}
        invariant todo + done == members.Keys && todo !! done
        invariant Value() == Session.SentTo(old(Value()), done)
        decreases |todo|
      {
        var c :| c in todo;
        SendOneMore(old(Value()), done, c);
        Deliver(c, if room.closed then Delivery(None, Error(room.code, Some("ROOM_CLOSED")))
                   else Delivery(Some(members[c]), FrameMessage(FrameFor(room, registry, members[c]))));
        todo := todo - {c};
        done := done + {c};
      }
    }

    method CancelReapers()
      modifies this`timers, this`reapers
      ensures Value() == old(Value()).(timers := old(timers) - old(reapers).Values, reapers := map[])
    {
      var todo := reapers.Values;
      ghost var gone: set<TimerId> := {};
      assert timers - gone == timers;
      while todo != {}
        invariant todo + gone == reapers.Values && reapers == old(reapers)
        invariant timers == old(timers) - gone
        decreases |todo|
      {
        var t :| t in todo;
        CancelOneMore(old(timers), gone, t);
        Cancel(t);
        todo, gone := todo - {t}, gone + {t};
      }
      reapers := map[];
    }
  }
}
