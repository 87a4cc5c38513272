/** What a session keeps after every handler, every timer and every drain, in any
    interleaving: who holds which seat, which timers are armed, and what every screen
    shows. */
module SessionLaws {
  import opened Collections
  import opened Values
  import opened GameEvents
  import opened Protocol
  import opened Session
  import opened RoomLaws
  import opened Rounds
  import Rooms
  import Games
  import Identity
  import ScoreKeeping

  // ------------------------------------------------------------ invariants

  /** The room is closed and its farewell has been sent. */
  predicate Dead(s: State) {
    s.room.closed && !s.pendingBroadcast
  }

  /** The pending timers are exactly the session's grace timers. */
  ghost predicate TimersMatch(s: State) {
    && (forall t :: t in s.timers ==> t < s.nextTimer && HeldBySession(s, t))
    && (forall id :: id in s.reapers ==>
          s.reapers[id] in s.timers && s.timers[s.reapers[id]] == Timer(ReapPlayer(id), PLAYER_GRACE_MS))
    && (s.hostReaper.Some? ==>
          s.hostReaper.value in s.timers && s.timers[s.hostReaper.value] == Timer(ReapHost, HOST_GRACE_MS))
  }

  ghost predicate HeldBySession(s: State, t: TimerId)
    requires t in s.timers
  {
    match s.timers[t].task
    case ReapPlayer(id) => id in s.reapers && s.reapers[id] == t
    case ReapHost => s.hostReaper == Some(t)
  }

  function SeatedIds(members: map<Conn, Viewer>): set<PlayerId> {
    set c | c in members && members[c].Seat? :: members[c].id
  }

  function Boards(members: map<Conn, Viewer>): set<Conn> {
    set c | c in members && members[c] == Host
  }

  ghost predicate OneEach(members: map<Conn, Viewer>) {
    forall c, d :: c in members && d in members && members[c] == members[d] ==> c == d
  }

  /** Every seat is held by exactly one connection or by exactly one pending reaper. */
  ghost predicate SeatsHeld(s: State) {
    && OneEach(s.members)
    && Ids(s.room.players) == SeatedIds(s.members) + s.reapers.Keys
    && SeatedIds(s.members) !! s.reapers.Keys
  }

  /** While the room is open, a board is attached or its reaper is pending, never both. */
  ghost predicate BoardHeld(s: State) {
    !s.room.closed ==> (s.hostReaper.Some? <==> Boards(s.members) == {})
  }

  function LastFrame(log: seq<Delivery>): Option<Delivery> {
    if log == [] then None
    else if log[|log| - 1].message.FrameMessage? then Some(log[|log| - 1])
    else LastFrame(log[..|log| - 1])
  }

  /** Every attached connection's last frame is its frame of the room as it is now. */
  ghost predicate ScreensCurrent(s: State) {
    forall c :: c in s.members ==>
      LastFrame(Log(s, c)) == Some(Delivery(Some(s.members[c]), FrameMessage(FrameFor(s.room, s.registry, s.members[c]))))
  }

  ghost predicate Quiet(s: State) {
    s.members == map[] && s.reapers == map[] && s.hostReaper == None && s.timers == map[]
  }

  ghost predicate Inv(s: State, used: Issued) {
    && RoomLaws.Inv(s.room, s.registry, used)
    && TimersMatch(s)
    && (!Dead(s) ==> SeatsHeld(s) && BoardHeld(s))
    && (Dead(s) ==> Quiet(s))
    && (!s.pendingBroadcast && !s.room.closed ==> ScreensCurrent(s))
  }

  // ------------------------------------------------------------------ steps

  datatype Op =
    | OpResumeHost(c: Conn, hostToken: Token)
    | OpJoin(c: Conn, nickname: string, token: Option<Token>)
    | OpHostAct(c: Conn, action: HostAction, gameId: Option<GameId>, config: Option<Json>)
    | OpPlay(c: Conn, event: Json)
    | OpLeave(c: Conn)
    | OpDisconnect(c: Conn)
    | OpFire(t: TimerId)
    | OpDrain

  /** What the hub and the runtime guarantee: only an unattached connection asks to attach,
      only pending timers fire, only a scheduled drain runs. */
  predicate Enabled(s: State, op: Op) {
    match op
    case OpResumeHost(c, _) => c !in s.members && !Dead(s)
    case OpJoin(c, _, _) => c !in s.members && !Dead(s)
    case OpFire(t) => t in s.timers
    case OpDrain => s.pendingBroadcast
    case _ => true
  }

  function Step(s: State, op: Op, draw: Rooms.Draw): State
    requires Enabled(s, op)
  {
    match op
    case OpResumeHost(c, token) => Session.ResumeHost(s, c, token)
    case OpJoin(c, nickname, token) => Session.Join(s, c, nickname, token, draw)
    case OpHostAct(c, action, gameId, config) => HostAct(s, c, action, gameId, config, draw)
    case OpPlay(c, event) => Session.Play(s, c, event, draw)
    case OpLeave(c) => Session.Leave(s, c, draw)
    case OpDisconnect(c) => Disconnect(s, c)
    case OpFire(t) => Fire(s, t, draw)
    case OpDrain => Drain(s)
  }

  datatype Event = Event(op: Op, draw: Rooms.Draw)

  /** An operation that is not enabled does not happen. */
  function Advance(s: State, e: Event): State {
    if Enabled(s, e.op) then Step(s, e.op, e.draw) else s
  }

  function Run(s: State, events: seq<Event>): State {
    if events == [] then s else Advance(Run(s, events[..|events| - 1]), events[|events| - 1])
  }

  function SpendAll(used: Issued, events: seq<Event>): Issued {
    if events == [] then used
    else Spend(SpendAll(used, events[..|events| - 1]), events[|events| - 1].draw)
  }

  ghost predicate FreshRun(used: Issued, events: seq<Event>) {
    events == [] ||
    (var front := events[..|events| - 1];
     FreshRun(used, front) && RoomLaws.Fresh(SpendAll(used, front), events[|events| - 1].draw))
  }

  // ---------------------------------------------------------------- pieces

  /** A message that is not a frame leaves every last frame as it was. */
  lemma TellKeepsLastFrames(s: State, c: Conn, message: ServerMessage)
    requires !message.FrameMessage?
    ensures forall d :: LastFrame(Log(Tell(s, c, message), d)) == LastFrame(Log(s, d))
  {
    var t := Tell(s, c, message);
    assert Log(t, c)[..|Log(s, c)|] == Log(s, c);
  }

  lemma TellKeepsInv(s: State, c: Conn, message: ServerMessage, used: Issued)
    requires Inv(s, used) && !message.FrameMessage?
    ensures Inv(Tell(s, c, message), used)
  {
    hide RoomLaws.Inv, FrameFor, SeatsHeld, BoardHeld, TimersMatch, LastFrame, Log;
    var t := Tell(s, c, message);
    SameTimers(s, t);
    SameSeats(s, t);
    TellKeepsLastFrames(s, c, message);
  }

  lemma SameSeats(s: State, t: State)
    requires t.members == s.members && t.reapers == s.reapers && t.room == s.room
    ensures SeatsHeld(t) == SeatsHeld(s)
    ensures t.hostReaper == s.hostReaper ==> BoardHeld(t) == BoardHeld(s)
  {
  }

  lemma CancelReapMatches(s: State, id: PlayerId)
    requires TimersMatch(s)
    ensures TimersMatch(CancelReap(s, id))
    ensures CancelReap(s, id).reapers == s.reapers - {id}
  {
    var t := CancelReap(s, id);
    if id in s.reapers {
      forall x | x in t.timers ensures HeldBySession(t, x) {
        assert HeldBySession(s, x);
      }
    }
  }

  lemma CancelHostReapMatches(s: State)
    requires TimersMatch(s)
    ensures TimersMatch(CancelHostReap(s))
  {
    var t := CancelHostReap(s);
    forall x | x in t.timers ensures HeldBySession(t, x) {
      assert HeldBySession(s, x);
    }
  }

  lemma ScheduleReapMatches(s: State, id: PlayerId)
    requires TimersMatch(s)
    ensures TimersMatch(ScheduleReap(s, id))
    ensures ScheduleReap(s, id).reapers.Keys == s.reapers.Keys + {id}
  {
    CancelReapMatches(s, id);
    var calm, t := CancelReap(s, id), ScheduleReap(s, id);
    forall x | x in t.timers ensures x < t.nextTimer && HeldBySession(t, x) {
      if x != calm.nextTimer {
        assert HeldBySession(calm, x);
      }
    }
  }

  lemma ScheduleHostReapMatches(s: State)
    requires TimersMatch(s)
    ensures TimersMatch(ScheduleHostReap(s))
  {
    CancelHostReapMatches(s);
    var calm, t := CancelHostReap(s), ScheduleHostReap(s);
    forall x | x in t.timers ensures x < t.nextTimer && HeldBySession(t, x) {
      if x != calm.nextTimer {
        assert HeldBySession(calm, x);
      }
    }
  }

  lemma SameTimers(s: State, t: State)
    requires TimersMatch(s)
    requires t.timers == s.timers && t.reapers == s.reapers && t.hostReaper == s.hostReaper && t.nextTimer == s.nextTimer
    ensures TimersMatch(t)
  {
    forall x | x in t.timers ensures x < t.nextTimer && HeldBySession(t, x) {
      assert HeldBySession(s, x);
    }
  }

  // ------------------------------------------------- room steps in a session

  /** Who is in the room changes by a join or by a seat's leave only, and only a host
      leave closes it. */
  lemma RosterAfter(room: Rooms.Room, step: RoomLaws.Step, registry: Games.Registry)
    requires !step.event.Join? && !(step.event == Rooms.Leave)
    ensures var after := Take(room, step, registry);
      Ids(after.players) == Ids(room.players) && after.closed == room.closed && after.tokens == room.tokens
      && after.code == room.code
  {
    hide Rooms.OnStartGame, Rooms.OnGameEvent, Rooms.OnEndGame, Ids;
    match step.event
    case SelectGame(_) =>
    case ConfigureGame(_) =>
    case StartGame => StartKeepsIds(room, step, registry);
    case GameEvent(e) => PlayMoves(room, e, registry);
    case EndGame => EndMoves(room, step.actor, registry);
  }

  lemma StartKeepsIds(room: Rooms.Room, step: RoomLaws.Step, registry: Games.Registry)
    ensures var after := Rooms.Becomes(room, Rooms.OnStartGame(room, step.actor, registry, step.draw));
      Ids(after.players) == Ids(room.players) && after.closed == room.closed && after.tokens == room.tokens
      && after.code == room.code
  {
    hide SeatWindow, Games.Init, Rooms.SessionComplete;
    var r := Rooms.OnStartGame(room, step.actor, registry, step.draw);
    if r.Changed? {
      WindowKeepsIds(room.players, Rooms.Capacity(Rooms.ActiveGame(room, registry).value), room.round + 1);
    }
  }

  lemma WindowKeepsIds(players: seq<Player>, m: nat, round: int)
    requires round >= 1
    ensures Ids(SeatWindow(players, m, round)) == Ids(players)
  {
    hide Benched;
    var seated := SeatWindow(players, m, round);
    forall id ensures id in Ids(seated) <==> id in Ids(players) {
      if id in Ids(players) {
        var i :| 0 <= i < |players| && players[i].id == id;
        assert seated[i].id == id;
      }
      if id in Ids(seated) {
        var i :| 0 <= i < |seated| && seated[i].id == id;
        assert players[i].id == id;
      }
    }
  }

  /** What applying an event can touch, and what relaying a refusal can. */
  lemma ApplyMoves(s: State, event: Rooms.RoomEvent, actor: Viewer, draw: Rooms.Draw)
    ensures var t := Apply(s, event, actor, draw);
      && t == s.(room := t.room, pendingBroadcast := t.pendingBroadcast)
      && t.room == Take(s.room, RoomLaws.Step(event, actor, draw), s.registry)
  {
    hide Rooms.Reduce;
  }

  lemma ApplyForMoves(s: State, c: Conn, event: Rooms.RoomEvent, actor: Viewer, draw: Rooms.Draw)
    ensures var t := ApplyFor(s, c, event, actor, draw);
      && t == s.(room := t.room, pendingBroadcast := t.pendingBroadcast, log := t.log)
      && t.room == Take(s.room, RoomLaws.Step(event, actor, draw), s.registry)
      && (forall d :: d != c ==> Log(t, d) == Log(s, d))
  {
    hide Rooms.Reduce, Apply;
    ApplyMoves(s, event, actor, draw);
  }

  lemma SpendKeepsInv(s: State, used: Issued, draw: Rooms.Draw)
    requires Inv(s, used)
    ensures Inv(s, Spend(used, draw))
  {
    hide RoomLaws.Inv, TimersMatch, ScreensCurrent, SeatsHeld, BoardHeld;
    SpendingIsHarmless(s.room, s.registry, used, draw);
  }

  /** Used by every handler that changes the room: the session stays whole as long as the
      seats are held, for a broadcast is then due. */
  lemma PendingIsEnough(s: State, used: Issued)
    requires RoomLaws.Inv(s.room, s.registry, used) && TimersMatch(s) && s.pendingBroadcast
    requires SeatsHeld(s) && BoardHeld(s)
    ensures Inv(s, used)
  {
    hide RoomLaws.Inv, TimersMatch, SeatsHeld, BoardHeld;
  }

  /** A room event relayed for a connection, other than a join or a leave. */
  lemma ApplyForKeepsInv(s: State, c: Conn, event: Rooms.RoomEvent, actor: Viewer, draw: Rooms.Draw, used: Issued)
    requires Inv(s, used) && RoomLaws.Fresh(used, draw) && !Dead(s)
    requires !event.Join? && event != Rooms.Leave
    ensures Inv(ApplyFor(s, c, event, actor, draw), Spend(used, draw))
  {
    hide RoomLaws.Inv, Rooms.Reduce, ScreensCurrent, Ids, TimersMatch, FrameFor;
    var step := RoomLaws.Step(event, actor, draw);
    SpendKeepsInv(s, used, draw);
    TakeKeepsInv(s.room, step, s.registry, used);
    RosterAfter(s.room, step, s.registry);
    match Result(s, event, actor, draw)
    case Refused(e) => TellKeepsInv(s, c, ErrorMessage(s, ErrorText(e)), Spend(used, draw));
    case _ =>
      var t := Apply(s, event, actor, draw);
      SameTimers(s, t);
      if t != s {
        PendingIsEnough(t, Spend(used, draw));
      }
  }

  // ------------------------------------------------------------ the members

  /** Dropping every connection of one viewer. */
  lemma DropSeat(members: map<Conn, Viewer>, conns: set<Conn>, v: Viewer)
    requires OneEach(members)
    requires forall c :: c in conns <==> c in members && members[c] == v
    ensures OneEach(members - conns)
    ensures SeatedIds(members - conns) == if v.Seat? then SeatedIds(members) - {v.id} else SeatedIds(members)
    ensures Boards(members - conns) == if v.Seat? then Boards(members) else {}
  {
    var rest := members - conns;
    forall id | id in SeatedIds(members) && Seat(id) != v ensures id in SeatedIds(rest) {
      var c :| c in members && members[c].Seat? && members[c].id == id;
      assert c in rest;
    }
    if v.Seat? {
      forall c | c in Boards(members) ensures c in Boards(rest) {
        assert c in rest;
      }
    }
  }

  /** Attaching one connection to a seat nobody is attached to. */
  lemma AddSeat(members: map<Conn, Viewer>, c: Conn, v: Viewer)
    requires OneEach(members) && c !in members
    requires if v.Seat? then v.id !in SeatedIds(members) else Boards(members) == {}
    ensures OneEach(members[c := v])
    ensures SeatedIds(members[c := v]) == SeatedIds(members) + if v.Seat? then {v.id} else {}
    ensures Boards(members[c := v]) == Boards(members) + if v.Seat? then {} else {c}
  {
    var more := members[c := v];
    forall d | d in members ensures members[d] != v {
      assert members[d].Seat? ==> members[d].id in SeatedIds(members);
      assert members[d] == Host ==> d in Boards(members);
    }
    forall id | id in SeatedIds(members) ensures id in SeatedIds(more) {
      var d :| d in members && members[d].Seat? && members[d].id == id;
      assert d in more && more[d] == members[d];
    }
    if v.Seat? {
      assert c in more && more[c].Seat?;
    }
    forall d | d in Boards(members) ensures d in Boards(more) {
      assert d in more;
    }
  }

  lemma OnlyOneThere(s: State, c: Conn)
    requires OneEach(s.members) && c in s.members
    ensures forall d :: d in {c} <==> d in s.members && s.members[d] == s.members[c]
  {
  }

  // ------------------------------------------------------------- resuming

  lemma ResumeHostMoves(s: State, c: Conn)
    ensures var t := Session.ResumeHost(s, c, s.hostToken);
      t == s.(members := (s.members - Attached(s, Host))[c := Host], hostReaper := None,
              timers := CancelHostReap(s).timers, pendingBroadcast := true, log := t.log,
              shut := s.shut + Attached(s, Host))
  {
    hide Log, Supersede, Tell, Attached;
    var calm := CancelHostReap(s);
    assert calm == s.(timers := calm.timers, hostReaper := None);
    AttachedSame(calm, s, Host);
    SupersedeMoves(calm, Attached(calm, Host));
    var freed := Supersede(calm, Attached(calm, Host));
    TellMoves(freed.(members := freed.members[c := Host]), c, Opened(freed.room.code, freed.hostToken));
  }

  lemma ResumeHostKeepsInv(s: State, c: Conn, hostToken: Token, used: Issued)
    requires Inv(s, used) && c !in s.members && !Dead(s)
    ensures Inv(Session.ResumeHost(s, c, hostToken), used)
  {
    if !ResumeAccepted(s, hostToken) {
      TellKeepsInv(s, c, ErrorMessage(s, "BAD_HOST_TOKEN"), used);
    } else {
      HostResumedInv(s, c, used);
    }
  }

  lemma HostResumedInv(s: State, c: Conn, used: Issued)
    requires Inv(s, used) && c !in s.members && !Dead(s)
    ensures Inv(Session.ResumeHost(s, c, s.hostToken), used)
  {
    hide RoomLaws.Inv, ScreensCurrent, Ids, TimersMatch, Session.ResumeHost, SeatedIds, Boards, OneEach;
    ResumeHostMoves(s, c);
    CancelHostReapMatches(s);
    var conns := Attached(s, Host);
    DropSeat(s.members, conns, Host);
    AddSeat(s.members - conns, c, Host);
    var t := Session.ResumeHost(s, c, s.hostToken);
    SameTimers(CancelHostReap(s), t);
    assert c in Boards(t.members);
    PendingIsEnough(t, used);
  }

  lemma {:induction false} FirstNewIs(players: seq<Player>, before: set<PlayerId>)
    ensures FirstNew(players, before).Some? ==>
      FirstNew(players, before).value in Ids(players) && FirstNew(players, before).value !in before
    ensures FirstNew(players, before).None? <==> Ids(players) <= before
  {
    if players != [] {
      FirstNewIs(players[1..], before);
      assert players == [players[0]] + players[1..];
      assert Ids(players) == {players[0].id} + Ids(players[1..]);
    }
  }

  /** What a join the room accepts attaches to: a seat of its own for a new player, the
      token's seat for a returning one. */
  lemma JoinAttaches(s: State, nickname: string, token: Option<Token>, draw: Rooms.Draw, used: Issued)
    requires RoomLaws.Inv(s.room, s.registry, used) && RoomLaws.Fresh(used, draw)
    requires !Result(s, Rooms.Join(nickname, token), Host, draw).Refused?
    ensures JoinAccepted(s, nickname, token, draw)
    ensures var after := Rooms.Becomes(s.room, Result(s, Rooms.Join(nickname, token), Host, draw));
      var id := JoinedId(s, after, token).value;
      && (IsNew(s, after) ==> id == draw.id && id !in Ids(s.room.players) && Ids(after.players) == Ids(s.room.players) + {id})
      && (!IsNew(s, after) ==> after == s.room && id in Ids(s.room.players))
      && after.code == s.room.code && after.closed == s.room.closed
  {
    hide Coupled, Played, Rooms.ForwardRoster, DistinctIds, Rooms.PlayerIdForToken, Ids, FirstNew;
    var r := Result(s, Rooms.Join(nickname, token), Host, draw);
    var after := Rooms.Becomes(s.room, r);
    FirstNewIs(after.players, Ids(s.room.players));
    TakeKeepsInv(s.room, RoomLaws.Step(Rooms.Join(nickname, token), Host, draw), s.registry, used);
    if r.Changed? {
      SeatedIdentities(s.room, Rooms.NormaliseNickname(nickname), s.registry, draw, used);
    } else {
      var id := Rooms.PlayerIdForToken(s.room, token.value).value;
      Identity.TokenResolves(s.room, used, token.value, id);
    }
  }

  /** What an accepted join does once the room has answered. */
  function Attach(applied: State, c: Conn, id: PlayerId, secret: Token, isNew: bool): State {
    var ready := if isNew then applied else Supersede(CancelReap(applied, id), Attached(applied, Seat(id)));
    Tell(ready.(members := ready.members[c := Seat(id)]), c, Joined(applied.room.code, id, secret))
  }

  lemma JoinIsAttach(s: State, c: Conn, nickname: string, token: Option<Token>, draw: Rooms.Draw)
    requires !Result(s, Rooms.Join(nickname, token), Host, draw).Refused?
    ensures var applied := Apply(s, Rooms.Join(nickname, token), Host, draw);
      var id := JoinedId(s, applied.room, token);
      Session.Join(s, c, nickname, token, draw) ==
      if id.None? || id.value !in applied.room.tokens.vals then Complain(applied, c, "JOIN_FAILED")
      else Attach(applied, c, id.value, applied.room.tokens.vals[id.value], IsNew(s, applied.room))
  {
    hide Rooms.Reduce, JoinedId, IsNew, Supersede, CancelReap, Attached, Tell, Ids;
  }

  lemma JoinRefused(s: State, c: Conn, nickname: string, token: Option<Token>, draw: Rooms.Draw)
    requires Result(s, Rooms.Join(nickname, token), Host, draw).Refused?
    ensures Session.Join(s, c, nickname, token, draw)
      == Complain(s, c, ErrorText(Result(s, Rooms.Join(nickname, token), Host, draw).error))
  {
    hide Rooms.Reduce, JoinedId, IsNew, JoinAccepted, Apply, Tell;
  }

  lemma JoinedIs(s: State, after: Rooms.Room, token: Option<Token>)
    ensures var added := FirstNew(after.players, Ids(s.room.players));
      && IsNew(s, after) == added.Some?
      && JoinedId(s, after, token)
         == if added.Some? || token.None? then added else Rooms.PlayerIdForToken(after, token.value)
  {
    hide FirstNew, Ids, Rooms.PlayerIdForToken;
  }

  /** When a join the room takes is accepted, and whom it then pushes out. */
  lemma AcceptedIs(s: State, nickname: string, token: Option<Token>, draw: Rooms.Draw)
    requires !Result(s, Rooms.Join(nickname, token), Host, draw).Refused?
    ensures var applied := Apply(s, Rooms.Join(nickname, token), Host, draw);
      var id := JoinedId(s, applied.room, token);
      && JoinAccepted(s, nickname, token, draw) == (id.Some? && id.value in applied.room.tokens.vals)
      && JoinEvicts(s, nickname, token, draw)
         == if !JoinAccepted(s, nickname, token, draw) || IsNew(s, applied.room) then {} else Attached(applied, Seat(id.value))
  {
    hide Rooms.Reduce, JoinedId, IsNew, Ids;
  }

  lemma RefusedIs(s: State, nickname: string, token: Option<Token>, draw: Rooms.Draw)
    requires Result(s, Rooms.Join(nickname, token), Host, draw).Refused?
    ensures !JoinAccepted(s, nickname, token, draw) && JoinEvicts(s, nickname, token, draw) == {}
    ensures Apply(s, Rooms.Join(nickname, token), Host, draw) == s
  {
    hide Rooms.Reduce, JoinedId, IsNew;
  }

  lemma JoinMoves(s: State, c: Conn, nickname: string, token: Option<Token>, draw: Rooms.Draw)
    requires JoinAccepted(s, nickname, token, draw)
    ensures var after := Rooms.Becomes(s.room, Result(s, Rooms.Join(nickname, token), Host, draw));
      var id := JoinedId(s, after, token).value;
      var t := Session.Join(s, c, nickname, token, draw);
      && t == s.(room := after, pendingBroadcast := true, members := t.members, reapers := t.reapers,
                 timers := t.timers, log := t.log, shut := t.shut)
      && (IsNew(s, after) ==>
            && t.members == s.members[c := Seat(id)]
            && t.reapers == s.reapers && t.timers == s.timers && t.shut == s.shut)
      && (!IsNew(s, after) ==>
            && t.members == (s.members - Attached(s, Seat(id)))[c := Seat(id)]
            && t.shut == s.shut + Attached(s, Seat(id))
            && t.reapers == CancelReap(s, id).reapers && t.timers == CancelReap(s, id).timers)
  {
    hide Rooms.Reduce, JoinedId, IsNew, Ids, Supersede, CancelReap, Attached, Tell;
    var r := Result(s, Rooms.Join(nickname, token), Host, draw);
    var after := Rooms.Becomes(s.room, r);
    var id := JoinedId(s, after, token).value;
    var applied := Apply(s, Rooms.Join(nickname, token), Host, draw);
    assert applied == s.(room := after, pendingBroadcast := true);
    AttachedSame(applied, s, Seat(id));
    CancelReapSame(applied, s, id);
    SupersedeMoves(CancelReap(applied, id), Attached(applied, Seat(id)));
    var ready :=
      if IsNew(s, after) then applied else Supersede(CancelReap(applied, id), Attached(applied, Seat(id)));
    TellMoves(ready.(members := ready.members[c := Seat(id)]), c, Joined(after.code, id, after.tokens.vals[id]));
  }

  lemma TellMoves(s: State, c: Conn, message: ServerMessage)
    ensures Tell(s, c, message) == s.(log := Tell(s, c, message).log)
  {
  }

  lemma SupersedeMoves(s: State, conns: set<Conn>)
    ensures var t := Supersede(s, conns);
      t == s.(members := s.members - conns, log := t.log, shut := s.shut + conns)
  {
  }

  lemma AttachedSame(a: State, s: State, v: Viewer)
    requires a.members == s.members
    ensures Attached(a, v) == Attached(s, v)
  {
  }

  lemma CancelReapSame(a: State, s: State, id: PlayerId)
    requires a == s.(room := a.room, pendingBroadcast := a.pendingBroadcast)
    ensures var t, u := CancelReap(a, id), CancelReap(s, id);
      && t == a.(timers := t.timers, reapers := t.reapers)
      && t.timers == u.timers && t.reapers == u.reapers
  {
  }

  lemma JoinKeepsInv(s: State, c: Conn, nickname: string, token: Option<Token>, draw: Rooms.Draw, used: Issued)
    requires Inv(s, used) && RoomLaws.Fresh(used, draw) && c !in s.members && !Dead(s)
    ensures Inv(Session.Join(s, c, nickname, token, draw), Spend(used, draw))
  {
    hide RoomLaws.Inv, ScreensCurrent, TimersMatch, SeatsHeld, BoardHeld, Rooms.Reduce, JoinAccepted, Tell;
    match Result(s, Rooms.Join(nickname, token), Host, draw)
    case Refused(e) =>
      SpendKeepsInv(s, used, draw);
      TellKeepsInv(s, c, ErrorMessage(s, ErrorText(e)), Spend(used, draw));
    case _ =>
      JoinedInv(s, c, nickname, token, draw, used);
  }

  lemma JoinedInv(s: State, c: Conn, nickname: string, token: Option<Token>, draw: Rooms.Draw, used: Issued)
    requires Inv(s, used) && RoomLaws.Fresh(used, draw) && c !in s.members && !Dead(s)
    requires !Result(s, Rooms.Join(nickname, token), Host, draw).Refused?
    ensures Inv(Session.Join(s, c, nickname, token, draw), Spend(used, draw))
  {
    hide RoomLaws.Inv, ScreensCurrent, TimersMatch, Rooms.Reduce, Session.Join, SeatedIds, Boards, OneEach,
         JoinedId, IsNew, Ids;
    JoinAttaches(s, nickname, token, draw, used);
    JoinMoves(s, c, nickname, token, draw);
    TakeKeepsInv(s.room, RoomLaws.Step(Rooms.Join(nickname, token), Host, draw), s.registry, used);
    var after := Rooms.Becomes(s.room, Result(s, Rooms.Join(nickname, token), Host, draw));
    var id := JoinedId(s, after, token).value;
    var t := Session.Join(s, c, nickname, token, draw);
    if IsNew(s, after) {
      AddSeat(s.members, c, Seat(id));
      SameTimers(s, t);
    } else {
      CancelReapMatches(s, id);
      var conns := Attached(s, Seat(id));
      DropSeat(s.members, conns, Seat(id));
      AddSeat(s.members - conns, c, Seat(id));
      SameTimers(CancelReap(s, id), t);
    }
    PendingIsEnough(t, Spend(used, draw));
  }

  // -------------------------------------------------- leaving and dropping

  lemma LeaveMoves(s: State, actor: Viewer, draw: Rooms.Draw)
    ensures var t := Apply(s, Rooms.Leave, actor, draw);
      && t == s.(room := t.room, pendingBroadcast := true)
      && t.room == Take(s.room, RoomLaws.Step(Rooms.Leave, actor, draw), s.registry)
      && Ids(t.room.players) == (if actor.Seat? then Ids(s.room.players) - {actor.id} else Ids(s.room.players))
      && t.room.closed == (s.room.closed || actor == Host)
  {
    hide Rooms.ForwardRoster, Rooms.Parked;
    if actor.Seat? {
      LeaverGone(s.room.players, actor.id);
    }
  }

  /** A seat is given up: by its connection or, from the timer, for want of one. */
  lemma GiveUpSeat(s: State, id: PlayerId, draw: Rooms.Draw, used: Issued)
    requires RoomLaws.Inv(s.room, s.registry, used) && RoomLaws.Fresh(used, draw) && TimersMatch(s)
    requires OneEach(s.members) && BoardHeld(s)
    requires Ids(s.room.players) - {id} == SeatedIds(s.members) + s.reapers.Keys
    requires SeatedIds(s.members) !! s.reapers.Keys
    ensures Inv(Apply(s, Rooms.Leave, Seat(id), draw), Spend(used, draw))
  {
    hide RoomLaws.Inv, ScreensCurrent, TimersMatch, Apply, Ids, SeatedIds, Boards, OneEach;
    LeaveMoves(s, Seat(id), draw);
    TakeKeepsInv(s.room, RoomLaws.Step(Rooms.Leave, Seat(id), draw), s.registry, used);
    var t := Apply(s, Rooms.Leave, Seat(id), draw);
    SameTimers(s, t);
    PendingIsEnough(t, Spend(used, draw));
  }

  /** The board is given up: the room closes. */
  lemma GiveUpBoard(s: State, draw: Rooms.Draw, used: Issued)
    requires RoomLaws.Inv(s.room, s.registry, used) && RoomLaws.Fresh(used, draw) && TimersMatch(s)
    requires SeatsHeld(s)
    ensures Inv(Apply(s, Rooms.Leave, Host, draw), Spend(used, draw))
  {
    hide RoomLaws.Inv, ScreensCurrent, TimersMatch, Apply, Ids, SeatedIds, Boards, OneEach;
    LeaveMoves(s, Host, draw);
    TakeKeepsInv(s.room, RoomLaws.Step(Rooms.Leave, Host, draw), s.registry, used);
    var t := Apply(s, Rooms.Leave, Host, draw);
    SameTimers(s, t);
    PendingIsEnough(t, Spend(used, draw));
  }

  lemma LeaveKeepsInv(s: State, c: Conn, draw: Rooms.Draw, used: Issued)
    requires Inv(s, used) && RoomLaws.Fresh(used, draw)
    ensures Inv(Session.Leave(s, c, draw), Spend(used, draw))
  {
    hide RoomLaws.Inv, ScreensCurrent, TimersMatch, Apply, Ids, SeatedIds, Boards, OneEach, CancelReap;
    if c !in s.members {
      SpendKeepsInv(s, used, draw);
    } else {
      OnlyOneThere(s, c);
      DropSeat(s.members, {c}, s.members[c]);
      var gone := s.(members := s.members - {c});
      SameTimers(s, gone);
      match s.members[c]
      case Host => GiveUpBoard(gone, draw, used);
      case Seat(id) =>
        CancelReapMatches(gone, id);
        CancelReapMoves(gone, id);
        assert id in SeatedIds(s.members) by { MemberSeated(s.members, c); }
        GiveUpSeat(CancelReap(gone, id), id, draw, used);
    }
  }

  lemma MemberSeated(members: map<Conn, Viewer>, c: Conn)
    requires c in members
    ensures members[c].Seat? ==> members[c].id in SeatedIds(members)
    ensures members[c] == Host ==> c in Boards(members)
  {
  }

  lemma CancelReapMoves(s: State, id: PlayerId)
    ensures var t := CancelReap(s, id);
      && t == s.(timers := t.timers, reapers := t.reapers)
      && t.reapers.Keys == s.reapers.Keys - {id}
  {
  }

  lemma DisconnectKeepsInv(s: State, c: Conn, used: Issued)
    requires Inv(s, used)
    ensures Inv(Session.Disconnect(s, c), used)
  {
    hide Inv, ScheduleReap, ScheduleHostReap;
    if c in s.members {
      match s.members[c]
      case Host => BoardDrops(s, c, used);
      case Seat(_) => SeatDrops(s, c, used);
    }
  }

  lemma BoardDrops(s: State, c: Conn, used: Issued)
    requires Inv(s, used) && c in s.members && s.members[c] == Host
    ensures Inv(ScheduleHostReap(s.(members := s.members - {c})), used)
  {
    hide RoomLaws.Inv, TimersMatch, Ids, SeatedIds, Boards, OneEach, ScheduleHostReap, ScreensCurrent;
    OnlyOneThere(s, c);
    MemberSeated(s.members, c);
    DropSeat(s.members, {c}, Host);
    var gone := s.(members := s.members - {c});
    SameTimers(s, gone);
    ScheduleHostReapMatches(gone);
    ScheduleMoves(gone, "");
    FewerScreens(s, ScheduleHostReap(gone));
  }

  lemma SeatDrops(s: State, c: Conn, used: Issued)
    requires Inv(s, used) && c in s.members && s.members[c].Seat?
    ensures Inv(ScheduleReap(s.(members := s.members - {c}), s.members[c].id), used)
  {
    hide RoomLaws.Inv, TimersMatch, Ids, SeatedIds, Boards, OneEach, ScheduleReap, ScreensCurrent;
    OnlyOneThere(s, c);
    MemberSeated(s.members, c);
    DropSeat(s.members, {c}, s.members[c]);
    var gone := s.(members := s.members - {c});
    SameTimers(s, gone);
    ScheduleReapMatches(gone, s.members[c].id);
    ScheduleMoves(gone, s.members[c].id);
    FewerScreens(s, ScheduleReap(gone, s.members[c].id));
  }

  lemma FewerScreens(s: State, t: State)
    requires forall c :: c in t.members ==> c in s.members && t.members[c] == s.members[c]
    requires t.log == s.log && t.room == s.room && t.registry == s.registry
    ensures ScreensCurrent(s) ==> ScreensCurrent(t)
  {
    hide LastFrame, FrameFor;
  }

  lemma ScheduleMoves(s: State, id: PlayerId)
    ensures var t := ScheduleReap(s, id);
      t == s.(timers := t.timers, reapers := t.reapers, nextTimer := t.nextTimer)
    ensures var t := ScheduleHostReap(s);
      t == s.(timers := t.timers, hostReaper := t.hostReaper, nextTimer := t.nextTimer) && t.hostReaper.Some?
  {
  }

  // ------------------------------------------------------ timers and drains

  lemma FiredMatches(s: State, t: TimerId)
    requires TimersMatch(s) && t in s.timers
    ensures match s.timers[t].task
      case ReapHost => s.hostReaper == Some(t) && TimersMatch(Cancel(s, t).(hostReaper := None))
      case ReapPlayer(id) => id in s.reapers && TimersMatch(Cancel(s, t).(reapers := s.reapers - {id}))
  {
    assert HeldBySession(s, t);
    var fired := match s.timers[t].task
      case ReapHost => Cancel(s, t).(hostReaper := None)
      case ReapPlayer(id) => Cancel(s, t).(reapers := s.reapers - {id});
    forall x | x in fired.timers ensures HeldBySession(fired, x) {
      assert HeldBySession(s, x);
    }
  }

  lemma FireKeepsInv(s: State, t: TimerId, draw: Rooms.Draw, used: Issued)
    requires Inv(s, used) && RoomLaws.Fresh(used, draw) && t in s.timers
    ensures Inv(Session.Fire(s, t, draw), Spend(used, draw))
  {
    hide RoomLaws.Inv, ScreensCurrent, TimersMatch, Apply, Ids, SeatedIds, Boards, OneEach;
    assert !Dead(s);
    FiredMatches(s, t);
    match s.timers[t].task
    case ReapHost => GiveUpBoard(Cancel(s, t).(hostReaper := None), draw, used);
    case ReapPlayer(id) => GiveUpSeat(Cancel(s, t).(reapers := s.reapers - {id}), id, draw, used);
  }

  lemma DrainKeepsInv(s: State, used: Issued)
    requires Inv(s, used) && s.pendingBroadcast
    ensures Inv(Session.Drain(s), used)
  {
    hide RoomLaws.Inv, Ids, FrameFor;
    var t := Session.Drain(s);
    if s.room.closed {
      forall x | x in s.timers ensures x in s.reapers.Values + HostTimer(s) {
        assert HeldBySession(s, x);
      }
      assert t.timers == map[];
    } else {
      SameTimers(s, t);
      SameSeats(s, t);
      hide SeatsHeld, TimersMatch;
      forall c | c in t.members
        ensures LastFrame(Log(t, c))
          == Some(Delivery(Some(t.members[c]), FrameMessage(FrameFor(t.room, t.registry, t.members[c]))))
      {
        assert Log(t, c) == Log(s, c) + [DrainMessage(s, c)];
      }
    }
  }

  // ------------------------------------------------------------- any step

  lemma HostActKeepsInv(s: State, c: Conn, action: HostAction, gameId: Option<GameId>, config: Option<Json>,
                        draw: Rooms.Draw, used: Issued)
    requires Inv(s, used) && RoomLaws.Fresh(used, draw)
    ensures Inv(HostAct(s, c, action, gameId, config, draw), Spend(used, draw))
  {
    hide RoomLaws.Inv, ScreensCurrent, TimersMatch, SeatsHeld, BoardHeld, Tell, ApplyFor;
    SpendKeepsInv(s, used, draw);
    if c !in s.members || s.members[c] != Host {
      TellKeepsInv(s, c, ErrorMessage(s, "NOT_HOST"), Spend(used, draw));
    } else {
      match HostEvent(action, gameId, config)
      case None => TellKeepsInv(s, c, ErrorMessage(s, "NO_GAME_ID"), Spend(used, draw));
      case Some(event) => ApplyForKeepsInv(s, c, event, Host, draw, used);
    }
  }

  lemma PlayKeepsInv(s: State, c: Conn, raw: Json, draw: Rooms.Draw, used: Issued)
    requires Inv(s, used) && RoomLaws.Fresh(used, draw)
    ensures Inv(Session.Play(s, c, raw, draw), Spend(used, draw))
  {
    hide RoomLaws.Inv, ScreensCurrent, TimersMatch, SeatsHeld, BoardHeld, Tell, ApplyFor, StampPlayerId;
    SpendKeepsInv(s, used, draw);
    if c !in s.members {
      TellKeepsInv(s, c, ErrorMessage(s, "NOT_IN_ROOM"), Spend(used, draw));
    } else {
      match s.members[c]
      case Host =>
        if IsAdvance(raw) {
          ApplyForKeepsInv(s, c, Rooms.GameEvent(raw), Host, draw, used);
        } else {
          TellKeepsInv(s, c, ErrorMessage(s, "HOST_CANNOT_PLAY"), Spend(used, draw));
        }
      case Seat(id) =>
        if IsAdvance(raw) {
          TellKeepsInv(s, c, ErrorMessage(s, "ADVANCE_IS_HOST_ONLY"), Spend(used, draw));
        } else {
          ApplyForKeepsInv(s, c, Rooms.GameEvent(StampPlayerId(raw, id)), Seat(id), draw, used);
        }
    }
  }

  lemma StepKeepsInv(s: State, op: Op, draw: Rooms.Draw, used: Issued)
    requires Inv(s, used) && RoomLaws.Fresh(used, draw) && Enabled(s, op)
    ensures Inv(Step(s, op, draw), Spend(used, draw))
  {
    hide Inv, Session.Join, Session.ResumeHost, HostAct, Session.Play, Session.Leave, Session.Disconnect, Session.Fire,
         Session.Drain;
    match op
    case OpResumeHost(c, token) =>
      ResumeHostKeepsInv(s, c, token, used);
      SpendKeepsInv(Step(s, op, draw), used, draw);
    case OpJoin(c, nickname, token) => JoinKeepsInv(s, c, nickname, token, draw, used);
    case OpHostAct(c, action, gameId, config) => HostActKeepsInv(s, c, action, gameId, config, draw, used);
    case OpPlay(c, event) => PlayKeepsInv(s, c, event, draw, used);
    case OpLeave(c) => LeaveKeepsInv(s, c, draw, used);
    case OpDisconnect(c) =>
      DisconnectKeepsInv(s, c, used);
      SpendKeepsInv(Step(s, op, draw), used, draw);
    case OpFire(t) => FireKeepsInv(s, t, draw, used);
    case OpDrain =>
      DrainKeepsInv(s, used);
      SpendKeepsInv(Step(s, op, draw), used, draw);
  }

  /** The session as the hub opens it: a new room whose host is attached. */
  lemma OpeningInv(room: Rooms.Room, registry: Games.Registry, hostToken: Token, c: Conn, used: Issued)
    requires RoomLaws.Inv(room, registry, used) && room.players == [] && !room.closed
    ensures Inv(AddHost(Session.Fresh(room, registry, hostToken), c), used)
  {
    hide RoomLaws.Inv;
    var s := AddHost(Session.Fresh(room, registry, hostToken), c);
    assert c in Boards(s.members);
  }

  /** Whatever the interleaving of handlers, timers and drains, the session keeps its
      invariant. */
  lemma {:induction false} RunKeepsInv(s: State, events: seq<Event>, used: Issued)
    requires Inv(s, used) && FreshRun(used, events)
    ensures Inv(Run(s, events), SpendAll(used, events))
  {
    hide Inv, Step, Enabled;
    if events != [] {
      var front, last := events[..|events| - 1], events[|events| - 1];
      RunKeepsInv(s, front, used);
      SpendKeepsInv(Run(s, front), SpendAll(used, front), last.draw);
      if Enabled(Run(s, front), last.op) {
        StepKeepsInv(Run(s, front), last.op, last.draw, SpendAll(used, front));
      }
    }
  }
}
