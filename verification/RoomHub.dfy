/** apps/server/src/roomHub.ts: the room registry and inbound router, as the object the
    server keeps. `sessionOf`, `openedBy` and `roomsPerAddress` are indices kept by hand;
    every method is proved to do what the module Hub does without them.

    The callbacks a session is built with run where its methods return: the connections it
    superseded, and those closed out with it. */
module RoomHubs {
  import opened Values
  import opened Protocol
  import opened RoomSessions
  import opened RoomLaws
  import Hub
  import HubLaws
  import Session
  import SessionLaws
  import Rooms
  import Games

  // ------------------------------------------------ who is attached afterwards

  lemma HostActMembers(s: Session.State, c: Conn, action: HostAction, gameId: Option<GameId>, config: Option<Json>,
                       draw: Rooms.Draw)
    ensures var t := Session.HostAct(s, c, action, gameId, config, draw);
      t.members == s.members && t.room.code == s.room.code
  {
    HubLaws.HostActIsTame(s, c, action, gameId, config, draw);
    hide Session.ApplyFor, HostEvent;
    var event := HostEvent(action, gameId, config);
    if event.Some? {
      SessionLaws.ApplyForMoves(s, c, event.value, Host, draw);
    }
  }

  lemma PlayMembers(s: Session.State, c: Conn, raw: Json, draw: Rooms.Draw)
    ensures var t := Session.Play(s, c, raw, draw); t.members == s.members && t.room.code == s.room.code
  {
    HubLaws.PlayIsTame(s, c, raw, draw);
    hide Session.ApplyFor, StampPlayerId;
    SessionLaws.ApplyForMoves(s, c, Rooms.GameEvent(raw), Host, draw);
    if c in s.members && s.members[c].Seat? {
      SessionLaws.ApplyForMoves(s, c, Rooms.GameEvent(StampPlayerId(raw, s.members[c].id)), s.members[c], draw);
    }
  }

  lemma LeaveMembers(s: Session.State, c: Conn, draw: Rooms.Draw)
    ensures var t := Session.Leave(s, c, draw); t.members == s.members - {c} && t.room.code == s.room.code
  {
    hide Session.Apply, Session.CancelReap;
    HubLaws.LeaveIsTame(s, c, draw);
    if c in s.members {
      var gone := s.(members := s.members - {c});
      match s.members[c]
      case Host => SessionLaws.ApplyMoves(gone, Rooms.Leave, Host, draw);
      case Seat(id) =>
        SessionLaws.CancelReapMoves(gone, id);
        SessionLaws.ApplyMoves(Session.CancelReap(gone, id), Rooms.Leave, Seat(id), draw);
    } else {
      assert s.members - {c} == s.members;
    }
  }

  lemma DisconnectMembers(s: Session.State, c: Conn)
    ensures var t := Session.Disconnect(s, c); t.members == s.members - {c} && t.room.code == s.room.code
  {
    hide Session.ScheduleReap, Session.ScheduleHostReap;
    HubLaws.DisconnectIsTame(s, c);
    if c in s.members {
      var gone := s.(members := s.members - {c});
      SessionLaws.ScheduleMoves(gone, if s.members[c].Seat? then s.members[c].id else "");
    } else {
      assert s.members - {c} == s.members;
    }
  }

  lemma FireMembers(s: Session.State, t: Session.TimerId, draw: Rooms.Draw)
    requires t in s.timers
    ensures var u := Session.Fire(s, t, draw); u.members == s.members && u.room.code == s.room.code
  {
    hide Session.Apply, HubLaws.Tame;
    HubLaws.FireIsTame(s, t, draw);
    TameCode(s, Session.Fire(s, t, draw), {});
    var fired := Session.Cancel(s, t);
    match s.timers[t].task
    case ReapHost => SessionLaws.ApplyMoves(fired.(hostReaper := None), Rooms.Leave, Host, draw);
    case ReapPlayer(id) => SessionLaws.ApplyMoves(fired.(reapers := s.reapers - {id}), Rooms.Leave, Seat(id), draw);
  }

  lemma TameCode(s: Session.State, t: Session.State, joining: set<Conn>)
    requires HubLaws.Tame(s, t, joining)
    ensures t.room.code == s.room.code
  {
  }

  lemma JoinMembers(s: Session.State, c: Conn, nickname: string, token: Option<Token>, draw: Rooms.Draw)
    ensures var t := Session.Join(s, c, nickname, token, draw);
      && t.members.Keys == s.members.Keys - Session.JoinEvicts(s, nickname, token, draw)
         + (if Session.JoinAccepted(s, nickname, token, draw) then {c} else {})
      && t.room.code == s.room.code
    ensures Session.JoinEvicts(s, nickname, token, draw) <= s.members.Keys
  {
    hide Rooms.Reduce, Session.Apply, Session.JoinedId, Session.IsNew, Session.CancelReap, Session.Supersede, Session.Tell,
         Session.JoinAccepted, Session.Join, Session.Attached;
    HubLaws.JoinIsTame(s, c, nickname, token, draw);
    if Session.JoinAccepted(s, nickname, token, draw) {
      SessionLaws.JoinMoves(s, c, nickname, token, draw);
      AcceptedId(s, nickname, token, draw);
      var after := Rooms.Becomes(s.room, Session.Result(s, Rooms.Join(nickname, token), Host, draw));
      AttachedMembers(s, Seat(Session.JoinedId(s, after, token).value));
    } else {
      HubLaws.RefusedJoin(s, c, nickname, token, draw);
      SessionLaws.ApplyMoves(s, Rooms.Join(nickname, token), Host, draw);
    }
  }

  lemma AcceptedId(s: Session.State, nickname: string, token: Option<Token>, draw: Rooms.Draw)
    requires Session.JoinAccepted(s, nickname, token, draw)
    ensures Session.JoinedId(s, Rooms.Becomes(s.room, Session.Result(s, Rooms.Join(nickname, token), Host, draw)), token).Some?
  {
    hide Rooms.Reduce, Session.JoinedId;
  }

  lemma AttachedMembers(s: Session.State, viewer: Viewer)
    ensures Session.Attached(s, viewer) <= s.members.Keys
  {
  }

  lemma ResumeMembers(s: Session.State, c: Conn, token: Token)
    ensures var t := Session.ResumeHost(s, c, token);
      && t.members.Keys == (if Session.ResumeAccepted(s, token) then s.members.Keys - Session.Attached(s, Host) + {c}
                            else s.members.Keys)
      && t.room.code == s.room.code
    ensures Session.Attached(s, Host) <= s.members.Keys
  {
    hide Session.CancelHostReap, Session.Supersede, Session.AddHost, Session.Attached;
    HubLaws.ResumeHostIsTame(s, c, token);
    AttachedMembers(s, Host);
    if Session.ResumeAccepted(s, token) {
      hide Session.ResumeHost;
      SessionLaws.ResumeHostMoves(s, c);
    }
  }

  // ---------------------------------------------------------------- counters

  function CountOf(counts: map<string, int>, address: string): int {
    if address in counts then counts[address] else 0
  }

  /** The index of openers and the counter per address say what the list of openers says:
      an address is counted while it has a room and for as many rooms as it has. */
  ghost predicate Counted(openers: map<RoomCode, Conn>, openedBy: map<RoomCode, string>, counts: map<string, int>) {
    && (forall code :: code in openedBy <==> code in openers && openers[code].address.Some?)
    && (forall code :: code in openedBy ==> openers[code].address == Some(openedBy[code]))
    && (forall a :: CountOf(counts, a) == |Hub.OpenedFrom(openers, a)|)
    && (forall a :: a in counts ==> counts[a] > 0)
  }

  lemma CountedOpen(openers: map<RoomCode, Conn>, openedBy: map<RoomCode, string>, counts: map<string, int>,
                    code: RoomCode, c: Conn)
    requires Counted(openers, openedBy, counts) && code !in openers
    ensures c.address.None? ==> Counted(openers[code := c], openedBy, counts)
    ensures c.address.Some? ==>
      var a := c.address.value;
      Counted(openers[code := c], openedBy[code := a], counts[a := CountOf(counts, a) + 1])
  {
    hide Hub.OpenedFrom;
    forall a ensures |Hub.OpenedFrom(openers[code := c], a)|
      == |Hub.OpenedFrom(openers, a)| + if c.address == Some(a) then 1 else 0
    {
      HubLaws.OneMoreFrom(openers, code, c, a);
    }
    if c.address.Some? {
      var a := c.address.value;
      assert CountOf(counts, a) == |Hub.OpenedFrom(openers, a)|;
      var counts', openers' := counts[a := CountOf(counts, a) + 1], openers[code := c];
      forall b ensures CountOf(counts', b) == |Hub.OpenedFrom(openers', b)| {
        assert CountOf(counts, b) == |Hub.OpenedFrom(openers, b)|;
      }
    }
  }

  lemma CountedForget(openers: map<RoomCode, Conn>, openedBy: map<RoomCode, string>, counts: map<string, int>, code: RoomCode)
    requires Counted(openers, openedBy, counts) && code in openers
    ensures code !in openedBy ==> Counted(openers - {code}, openedBy, counts)
    ensures code in openedBy ==>
      var a := openedBy[code];
      var left := CountOf(counts, a) - 1;
      && CountOf(counts, a) >= 1
      && Counted(openers - {code}, openedBy - {code}, if left <= 0 then counts - {a} else counts[a := left])
  {
    hide Hub.OpenedFrom;
    forall a ensures |Hub.OpenedFrom(openers - {code}, a)|
      == |Hub.OpenedFrom(openers, a)| - if openers[code].address == Some(a) then 1 else 0
    {
      HubLaws.OneLessFrom(openers, code, a);
    }
  }

  // ----------------------------------------------------------------- bindings

  /** Each live session is registered under its own code. */
  ghost predicate Keyed(live: map<RoomCode, Session.State>, rooms: map<RoomCode, RoomSession>) {
    && live.Keys == rooms.Keys
    && (forall code :: code in live ==> live[code].room.code == code)
    && (forall a, b :: a in rooms && b in rooms && rooms[a] == rooms[b] ==> a == b)
  }

  /** A connection is bound to a session exactly when that session has it as a member. */
  ghost predicate Agree(live: map<RoomCode, Session.State>, rooms: map<RoomCode, RoomSession>, sessionOf: map<Conn, RoomSession>)
    requires live.Keys == rooms.Keys
  {
    && (forall c :: c in sessionOf ==> sessionOf[c] in rooms.Values)
    && (forall code, c :: code in rooms ==>
          (c in live[code].members <==> c in sessionOf && sessionOf[c] == rooms[code]))
  }

  ghost predicate Bound(live: map<RoomCode, Session.State>, rooms: map<RoomCode, RoomSession>, sessionOf: map<Conn, RoomSession>) {
    Keyed(live, rooms) && Agree(live, rooms, sessionOf)
  }

  /** One session moves: some of its members go, some connections bound nowhere come. */
  ghost predicate Rebound(before: map<Conn, RoomSession>, after: map<Conn, RoomSession>, session: RoomSession,
                          gone: set<Conn>, come: set<Conn>)
  {
    && come !! before.Keys && after.Keys == before.Keys - gone + come
    && forall c :: c in after ==> after[c] == if c in come then session else before[c]
  }

  lemma ReboundNobody(bound: map<Conn, RoomSession>, session: RoomSession)
    ensures Rebound(bound, bound, session, {}, {})
  {
  }

  lemma ReboundGone(bound: map<Conn, RoomSession>, session: RoomSession, c: Conn)
    ensures Rebound(bound, bound - {c}, session, {c}, {})
  {
  }

  lemma ReboundAttach(bound: map<Conn, RoomSession>, session: RoomSession, gone: set<Conn>, c: Conn, attached: bool)
    requires c !in bound
    ensures Rebound(bound, if attached then (bound - gone)[c := session] else bound - gone, session, gone,
                    if attached then {c} else {})
  {
  }

  lemma Routed(h: Hub.State, code: RoomCode, op: SessionLaws.Op, draw: Rooms.Draw)
    requires op.OpHostAct? || op.OpPlay? || op.OpLeave?
    ensures Hub.RoomOf(h, op.c).None? ==> Hub.Route(h, code, op, draw) == Hub.Reply(h, op.c, code, "NOT_IN_ROOM")
    ensures Hub.RoomOf(h, op.c).Some? && Hub.RoomOf(h, op.c).value in h.rooms ==>
      Hub.Route(h, code, op, draw)
        == h.(rooms := h.rooms[Hub.RoomOf(h, op.c).value := SessionLaws.Step(h.rooms[Hub.RoomOf(h, op.c).value], op, draw)])
  {
    hide SessionLaws.Step, Hub.RoomOf;
  }

  lemma BoundMoved(live: map<RoomCode, Session.State>, rooms: map<RoomCode, RoomSession>, sessionOf: map<Conn, RoomSession>,
                   home: RoomCode, t: Session.State, gone: set<Conn>, come: set<Conn>, sessionOf': map<Conn, RoomSession>)
    requires Bound(live, rooms, sessionOf) && home in rooms && home in live && t.room.code == home
    requires gone <= live[home].members.Keys && t.members.Keys == live[home].members.Keys - gone + come
    requires Rebound(sessionOf, sessionOf', rooms[home], gone, come)
    ensures Bound(live[home := t], rooms, sessionOf')
  {
    hide Agree, Rebound;
    assert Keyed(live[home := t], rooms);
    MovedAgree(live, rooms, sessionOf, home, t, gone, come, sessionOf');
  }

  lemma MovedAgree(live: map<RoomCode, Session.State>, rooms: map<RoomCode, RoomSession>, sessionOf: map<Conn, RoomSession>,
                   home: RoomCode, t: Session.State, gone: set<Conn>, come: set<Conn>, sessionOf': map<Conn, RoomSession>)
    requires Bound(live, rooms, sessionOf) && home in rooms && live.Keys == rooms.Keys
    requires gone <= live[home].members.Keys && t.members.Keys == live[home].members.Keys - gone + come
    requires Rebound(sessionOf, sessionOf', rooms[home], gone, come)
    ensures Agree(live[home := t], rooms, sessionOf')
  {
    hide Bound;
    assert rooms[home] in rooms.Values;
    forall c | c in sessionOf' ensures sessionOf'[c] in rooms.Values {
      if c !in come {
        AgreeAt(live, rooms, sessionOf, home, c);
      }
    }
    forall code, c | code in rooms
      ensures c in live[home := t][code].members <==> c in sessionOf' && sessionOf'[c] == rooms[code]
    {
      AgreeAt(live, rooms, sessionOf, code, c);
      AgreeAt(live, rooms, sessionOf, home, c);
    }
  }

  lemma AgreeAt(live: map<RoomCode, Session.State>, rooms: map<RoomCode, RoomSession>, sessionOf: map<Conn, RoomSession>,
                code: RoomCode, c: Conn)
    requires Bound(live, rooms, sessionOf) && code in rooms && code in live
    ensures c in live[code].members <==> c in sessionOf && sessionOf[c] == rooms[code]
    ensures c in sessionOf ==> sessionOf[c] in rooms.Values
    ensures forall x :: x in rooms && rooms[x] == rooms[code] ==> x == code
  {
  }

  lemma ValuesOneMore(rooms: map<RoomCode, RoomSession>, code: RoomCode, session: RoomSession)
    requires code !in rooms
    ensures rooms[code := session].Values == rooms.Values + {session}
    ensures forall x :: x in rooms ==> rooms[x] in rooms.Values
  {
    forall s | s in rooms.Values + {session} ensures s in rooms[code := session].Values {
      if s == session {
        assert rooms[code := session][code] == s;
      } else {
        var x :| x in rooms && rooms[x] == s;
        assert rooms[code := session][x] == s;
      }
    }
  }

  lemma BoundOpened(live: map<RoomCode, Session.State>, rooms: map<RoomCode, RoomSession>, sessionOf: map<Conn, RoomSession>,
                    code: RoomCode, session: RoomSession, t: Session.State, c: Conn)
    requires Bound(live, rooms, sessionOf) && code !in rooms && session !in rooms.Values && c !in sessionOf
    requires t.room.code == code && t.members.Keys == {c}
    ensures Bound(live[code := t], rooms[code := session], sessionOf[c := session])
  {
    hide Agree;
    ValuesOneMore(rooms, code, session);
    assert Keyed(live[code := t], rooms[code := session]);
    OpenedAgree(live, rooms, sessionOf, code, session, t, c);
  }

  lemma OpenedAgree(live: map<RoomCode, Session.State>, rooms: map<RoomCode, RoomSession>, sessionOf: map<Conn, RoomSession>,
                    code: RoomCode, session: RoomSession, t: Session.State, c: Conn)
    requires Bound(live, rooms, sessionOf) && code !in rooms && session !in rooms.Values && c !in sessionOf
    requires live.Keys == rooms.Keys && t.members.Keys == {c}
    ensures Agree(live[code := t], rooms[code := session], sessionOf[c := session])
  {
    hide Bound;
    ValuesOneMore(rooms, code, session);
    BoundInRooms(live, rooms, sessionOf);
    var live', rooms', sessionOf' := live[code := t], rooms[code := session], sessionOf[c := session];
    forall x, d | x in rooms'
      ensures d in live'[x].members <==> d in sessionOf' && sessionOf'[d] == rooms'[x]
    {
      if x != code {
        AgreeAt(live, rooms, sessionOf, x, d);
      }
    }
  }

  lemma BoundInRooms(live: map<RoomCode, Session.State>, rooms: map<RoomCode, RoomSession>, sessionOf: map<Conn, RoomSession>)
    requires Bound(live, rooms, sessionOf)
    ensures forall d :: d in sessionOf ==> sessionOf[d] in rooms.Values
  {
  }

  lemma BoundForgotten(live: map<RoomCode, Session.State>, rooms: map<RoomCode, RoomSession>, sessionOf: map<Conn, RoomSession>,
                       code: RoomCode)
    requires Bound(live, rooms, sessionOf) && code in rooms
    ensures Bound(live - {code}, rooms - {code}, sessionOf - live[code].members.Keys)
  {
    hide Agree;
    assert Keyed(live - {code}, rooms - {code});
    ForgottenAgree(live, rooms, sessionOf, code);
  }

  lemma ForgottenAgree(live: map<RoomCode, Session.State>, rooms: map<RoomCode, RoomSession>, sessionOf: map<Conn, RoomSession>,
                       code: RoomCode)
    requires Bound(live, rooms, sessionOf) && code in rooms && live.Keys == rooms.Keys
    ensures Agree(live - {code}, rooms - {code}, sessionOf - live[code].members.Keys)
  {
    hide Bound;
    var live', rooms', sessionOf' := live - {code}, rooms - {code}, sessionOf - live[code].members.Keys;
    forall d | d in sessionOf' ensures sessionOf'[d] in rooms'.Values {
      StillBound(live, rooms, sessionOf, code, d);
    }
    forall x, d | x in rooms'
      ensures d in live'[x].members <==> d in sessionOf' && sessionOf'[d] == rooms'[x]
    {
      StillThere(live, rooms, sessionOf, code, x, d);
    }
  }

  lemma StillBound(live: map<RoomCode, Session.State>, rooms: map<RoomCode, RoomSession>, sessionOf: map<Conn, RoomSession>,
                   code: RoomCode, d: Conn)
    requires Bound(live, rooms, sessionOf) && code in rooms && d in sessionOf && d !in live[code].members
    ensures sessionOf[d] in (rooms - {code}).Values
  {
    assert sessionOf[d] in rooms.Values;
    var x :| x in rooms && rooms[x] == sessionOf[d];
    assert x in rooms - {code} && (rooms - {code})[x] == sessionOf[d];
  }

  lemma StillThere(live: map<RoomCode, Session.State>, rooms: map<RoomCode, RoomSession>, sessionOf: map<Conn, RoomSession>,
                   code: RoomCode, x: RoomCode, d: Conn)
    requires Bound(live, rooms, sessionOf) && code in rooms && x in rooms && x != code
    ensures d in live[x].members <==> d in sessionOf && d !in live[code].members && sessionOf[d] == rooms[x]
  {
    assert d in live[x].members <==> d in sessionOf && sessionOf[d] == rooms[x];
    assert d in live[code].members <==> d in sessionOf && sessionOf[d] == rooms[code];
  }

  /** `sessionOf` finds the room a connection is attached to. */
  lemma BoundFinds(h: Hub.State, rooms: map<RoomCode, RoomSession>, sessionOf: map<Conn, RoomSession>, c: Conn)
    requires Bound(h.rooms, rooms, sessionOf)
    ensures c in sessionOf <==> Hub.RoomOf(h, c).Some?
    ensures c in sessionOf ==>
      Hub.RoomOf(h, c).value in rooms && rooms[Hub.RoomOf(h, c).value] == sessionOf[c]
      && c in h.rooms[Hub.RoomOf(h, c).value].members
  {
    HubLaws.RoomOfNone(h, c);
    hide Hub.RoomOf;
    if c in sessionOf {
      assert sessionOf[c] in rooms.Values;
      var code :| code in rooms && rooms[code] == sessionOf[c];
      assert c in h.rooms[code].members;
      assert Hub.IsIn(h, c, code);
    }
  }

  // --------------------------------------------------------------- the object

  class RoomHub {
    const registry: Games.Registry
    const maxRooms: nat
    const maxRoomsPerAddress: nat

    var rooms: map<RoomCode, RoomSession>
    var sessionOf: map<Conn, RoomSession>
    var openedBy: map<RoomCode, string>
    var roomsPerAddress: map<string, int>
    var said: map<Conn, seq<ServerMessage>>

    ghost var openers: map<RoomCode, Conn>
    ghost var past: set<RoomSession>

    ghost function Live(): map<RoomCode, Session.State>
      reads this`rooms, rooms.Values
    {
      map code | code in rooms :: rooms[code].Value()
    }

    ghost function Value(): Hub.State
      reads this, rooms.Values
    {
      Hub.State(registry, maxRooms, maxRoomsPerAddress, Live(), openers, said)
    }

    ghost predicate Valid()
      reads this, rooms.Values
    {
      && Bound(Live(), rooms, sessionOf)
      && openers.Keys == rooms.Keys && Counted(openers, openedBy, roomsPerAddress)
      && rooms.Values !! past
    }

    /** A server starts with the games on offer registered, no room and nobody bound. */
    constructor (maxRooms: nat, maxRoomsPerAddress: nat)
      ensures Value() == Hub.Empty(Games.SHIPPED, maxRooms, maxRoomsPerAddress) && past == {} && rooms == map[]
      ensures forall used :: Safe(used)
    {
      hide Hub.Inv, Games.Registered, Games.WellFormed, Games.InBounds, Safe;
      Games.ShippedIsRegistered();
      var made := Games.CreateRegistry(Games.SHIPPED_GAMES);
      this.registry, this.maxRooms, this.maxRoomsPerAddress := made.value, maxRooms, maxRoomsPerAddress;
      rooms, sessionOf, openedBy, roomsPerAddress, said := map[], map[], map[], map[], map[];
      openers, past := map[], {};
      new;
      forall used ensures Safe(used) {
        StartsSafe(used);
      }
    }

    lemma StartsSafe(used: Issued)
      requires rooms == map[] && sessionOf == map[] && openedBy == map[] && roomsPerAddress == map[] && said == map[]
      requires openers == map[] && past == {} && Games.WellFormed(registry)
      ensures Safe(used) && Value() == Hub.Empty(registry, maxRooms, maxRoomsPerAddress)
    {
      hide Hub.Inv;
      assert forall a :: Hub.OpenedFrom(openers, a) == {};
      assert Live() == map[];
      HubLaws.EmptyInv(registry, maxRooms, maxRoomsPerAddress, used);
    }

    /** Where a bound connection's session is registered. */
    lemma Finds(c: Conn)
      requires Valid()
      ensures c in sessionOf <==> Hub.RoomOf(Value(), c).Some?
      ensures c in sessionOf ==>
        Hub.RoomOf(Value(), c).value in rooms && rooms[Hub.RoomOf(Value(), c).value] == sessionOf[c]
        && c in Live()[Hub.RoomOf(Value(), c).value].members
    {
      hide Bound, Hub.RoomOf, Live;
      BoundFinds(Value(), rooms, sessionOf, c);
    }

    lemma OnlyOne(home: RoomCode)
      requires Bound(Live(), rooms, sessionOf) && home in rooms
      ensures forall code :: code in rooms && code != home ==> rooms[code] != rooms[home]
      ensures Live().Keys == rooms.Keys && forall code :: code in rooms ==> Live()[code] == rooms[code].Value()
      ensures Live()[home].room.code == home
    {
    }

    method Say(c: Conn, m: ServerMessage)
      requires Valid()
      modifies this`said
      ensures Valid() && Value() == old(Value()).(said := Hub.Said(old(said), c, m))
    {
      hide Live, Bound, Counted;
      said := said[c := (if c in said then said[c] else []) + [m]];
    }

    method Refuse(c: Conn, code: RoomCode, message: string)
      requires Valid()
      modifies this`said
      ensures Valid() && Value() == Hub.Reply(old(Value()), c, code, message)
    {
      Say(c, Error(code, Some(message)));
    }

    // ------------------------------------------------------ routed messages

    /** The rooms are the ones before but for one session, and so are the bindings. */
    lemma Moved(before: map<RoomCode, Session.State>, bound: map<Conn, RoomSession>, home: RoomCode,
                gone: set<Conn>, come: set<Conn>)
      requires Bound(before, rooms, bound) && home in rooms && before.Keys == rooms.Keys
      requires forall code :: code in rooms && code != home ==> rooms[code].Value() == before[code]
      requires gone <= before[home].members.Keys && rooms[home].Value().room.code == home
      requires rooms[home].Value().members.Keys == before[home].members.Keys - gone + come
      requires Rebound(bound, sessionOf, rooms[home], gone, come)
      ensures Live() == before[home := rooms[home].Value()] && Bound(Live(), rooms, sessionOf)
    {
      hide Agree, Rebound, RoomSession.Value;
      assert Live() == before[home := rooms[home].Value()];
      BoundMoved(before, rooms, bound, home, rooms[home].Value(), gone, come, sessionOf);
    }

    method HostCommand(c: Conn, code: RoomCode, action: HostAction, gameId: Option<GameId>, config: Option<Json>, draw: Rooms.Draw)
      requires Valid()
      modifies this`said, rooms.Values
      ensures Valid() && past == old(past)
      ensures Value() == Hub.Route(old(Value()), code, SessionLaws.OpHostAct(c, action, gameId, config), draw)
    {
      hide KeepsIssuing, Session.HostAct, Bound, Counted, Rebound, Hub.RoomOf, Hub.Route, Hub.Reply, RoomSession.Value, Live;
      Finds(c);
      Routed(Value(), code, SessionLaws.OpHostAct(c, action, gameId, config), draw);
      if c !in sessionOf {
        Refuse(c, code, "NOT_IN_ROOM");
        return;
      }
      var session := sessionOf[c];
      ghost var before, bound, home := Live(), sessionOf, Hub.RoomOf(Value(), c).value;
      OnlyOne(home);
      session.HostAct(c, action, gameId, config, draw);
      ReboundNobody(bound, session);
      HostActMembers(before[home], c, action, gameId, config, draw);
      Moved(before, bound, home, {}, {});
    }

    method Play(c: Conn, code: RoomCode, event: Json, draw: Rooms.Draw)
      requires Valid()
      modifies this`said, rooms.Values
      ensures Valid() && past == old(past)
      ensures Value() == Hub.Route(old(Value()), code, SessionLaws.OpPlay(c, event), draw)
    {
      hide KeepsIssuing, Session.Play, Bound, Counted, Rebound, Hub.RoomOf, Hub.Route, Hub.Reply, RoomSession.Value, Live;
      Finds(c);
      Routed(Value(), code, SessionLaws.OpPlay(c, event), draw);
      if c !in sessionOf {
        Refuse(c, code, "NOT_IN_ROOM");
        return;
      }
      var session := sessionOf[c];
      ghost var before, bound, home := Live(), sessionOf, Hub.RoomOf(Value(), c).value;
      OnlyOne(home);
      session.Play(c, event, draw);
      ReboundNobody(bound, session);
      PlayMembers(before[home], c, event, draw);
      Moved(before, bound, home, {}, {});
    }

    method Leave(c: Conn, code: RoomCode, draw: Rooms.Draw)
      requires Valid()
      modifies this`said, this`sessionOf, rooms.Values
      ensures Valid() && past == old(past)
      ensures Value() == Hub.Route(old(Value()), code, SessionLaws.OpLeave(c), draw)
    {
      hide Session.Leave, Bound, Counted, Hub.RoomOf, Hub.Route, Hub.Reply, RoomSession.Value, Live;
      Finds(c);
      Routed(Value(), code, SessionLaws.OpLeave(c), draw);
      if c !in sessionOf {
        Refuse(c, code, "NOT_IN_ROOM");
        return;
      }
      LiveKeys();
      Unbind(c, Hub.RoomOf(Value(), c).value, draw);
    }

    /** The rooms and bindings once one session has lost one of its members. */
    lemma OneUnbound(before: map<RoomCode, Session.State>, bound: map<Conn, RoomSession>, home: RoomCode, c: Conn)
      requires Bound(before, rooms, bound) && home in rooms && before.Keys == rooms.Keys
      requires forall code :: code in rooms && code != home ==> rooms[code].Value() == before[code]
      requires c in before[home].members && sessionOf == bound - {c} && rooms[home].Value().room.code == home
      requires rooms[home].Value().members == before[home].members - {c}
      ensures Live() == before[home := rooms[home].Value()] && Bound(Live(), rooms, sessionOf)
    {
      hide Bound, Rebound, RoomSession.Value, Live;
      ReboundGone(bound, rooms[home], c);
      Moved(before, bound, home, {c}, {});
    }

    method Unbind(c: Conn, ghost home: RoomCode, draw: Rooms.Draw)
      requires Bound(Live(), rooms, sessionOf) && home in rooms && c in sessionOf && rooms[home] == sessionOf[c]
      requires home in Live() && c in Live()[home].members
      modifies this`sessionOf, rooms.Values
      ensures Bound(Live(), rooms, sessionOf)
      ensures Live() == old(Live())[home := Session.Leave(old(Live())[home], c, draw)]
    {
      hide KeepsIssuing, Session.Leave, Bound, RoomSession.Value, Live;
      var session := sessionOf[c];
      ghost var before, bound := Live(), sessionOf;
      OnlyOne(home);
      sessionOf := sessionOf - {c};
      session.Leave(c, draw);
      LeaveMembers(before[home], c, draw);
      OneUnbound(before, bound, home, c);
    }

    /** A dropped socket leaves whatever room it was in. */
    method Disconnect(c: Conn)
      requires Valid()
      modifies this`sessionOf, rooms.Values
      ensures Valid() && past == old(past)
      ensures Value() == Hub.Disconnect(old(Value()), c)
    {
      hide Session.Disconnect, Bound, Counted, Hub.RoomOf, RoomSession.Value, Live;
      Finds(c);
      LiveKeys();
      if c in sessionOf {
        Detach(c, Hub.RoomOf(Value(), c).value);
      }
    }

    method Detach(c: Conn, ghost home: RoomCode)
      requires Bound(Live(), rooms, sessionOf) && home in rooms && c in sessionOf && rooms[home] == sessionOf[c]
      requires home in Live() && c in Live()[home].members
      modifies this`sessionOf, rooms.Values
      ensures Bound(Live(), rooms, sessionOf)
      ensures Live() == old(Live())[home := Session.Disconnect(old(Live())[home], c)]
    {
      hide Keeps, Session.Disconnect, Bound, RoomSession.Value, Live;
      var session := sessionOf[c];
      ghost var before, bound := Live(), sessionOf;
      OnlyOne(home);
      sessionOf := sessionOf - {c};
      session.Disconnect(c);
      DisconnectMembers(before[home], c);
      OneUnbound(before, bound, home, c);
    }

    // ------------------------------------------------------------- attaching

    method JoinRoom(c: Conn, code: RoomCode, nickname: string, token: Option<Token>, draw: Rooms.Draw)
      requires Valid()
      modifies this`said, this`sessionOf, rooms.Values
      ensures Valid() && past == old(past)
      ensures Value() == Hub.Attach(old(Value()), code, SessionLaws.OpJoin(c, nickname, token), draw)
    {
      hide Session.Join, Bound, Counted, Hub.RoomOf, Hub.Reply, RoomSession.Value, Live;
      Finds(c);
      if c in sessionOf {
        Refuse(c, code, "ALREADY_IN_ROOM");
        return;
      }
      LiveKeys();
      if code !in rooms {
        Refuse(c, code, "NO_SUCH_ROOM");
        return;
      }
      BindJoin(c, code, nickname, token, draw);
    }

    method BindJoin(c: Conn, code: RoomCode, nickname: string, token: Option<Token>, draw: Rooms.Draw)
      requires Bound(Live(), rooms, sessionOf) && c !in sessionOf && code in rooms
      modifies this`sessionOf, rooms.Values
      ensures Bound(Live(), rooms, sessionOf) && code in old(Live())
      ensures Live() == old(Live())[code := Session.Join(old(Live())[code], c, nickname, token, draw)]
    {
      hide KeepsIssuing, Session.Join, Session.JoinEvicts, Session.JoinAccepted, Bound, Rebound, RoomSession.Value, Live;
      var session := rooms[code];
      ghost var before, bound := Live(), sessionOf;
      OnlyOne(code);
      var joined, superseded := session.Join(c, nickname, token, draw);
      sessionOf := if joined then (sessionOf - superseded)[c := session] else sessionOf - superseded;
      ReboundAttach(bound, session, superseded, c, joined);
      JoinMembers(before[code], c, nickname, token, draw);
      Moved(before, bound, code, superseded, if joined then {c} else {});
    }

    method ResumeHostRoom(c: Conn, code: RoomCode, token: Token, ghost draw: Rooms.Draw)
      requires Valid()
      modifies this`said, this`sessionOf, rooms.Values
      ensures Valid() && past == old(past)
      ensures Value() == Hub.Attach(old(Value()), code, SessionLaws.OpResumeHost(c, token), draw)
    {
      hide Session.ResumeHost, Bound, Counted, Hub.RoomOf, Hub.Reply, RoomSession.Value, Live;
      Finds(c);
      if c in sessionOf {
        Refuse(c, code, "ALREADY_IN_ROOM");
        return;
      }
      LiveKeys();
      if code !in rooms {
        Refuse(c, code, "NO_SUCH_ROOM");
        return;
      }
      BindHost(c, code, token);
    }

    method BindHost(c: Conn, code: RoomCode, token: Token)
      requires Bound(Live(), rooms, sessionOf) && c !in sessionOf && code in rooms
      modifies this`sessionOf, rooms.Values
      ensures Bound(Live(), rooms, sessionOf) && code in old(Live())
      ensures Live() == old(Live())[code := Session.ResumeHost(old(Live())[code], c, token)]
    {
      hide Keeps, Session.ResumeHost, Session.Attached, Session.ResumeAccepted, Bound, Rebound, RoomSession.Value, Live;
      var session := rooms[code];
      ghost var before, bound := Live(), sessionOf;
      OnlyOne(code);
      var resumed, superseded := session.ResumeHost(c, token);
      sessionOf := if resumed then (sessionOf - superseded)[c := session] else sessionOf - superseded;
      ReboundAttach(bound, session, superseded, c, resumed);
      ResumeMembers(before[code], c, token);
      Moved(before, bound, code, superseded, if resumed then {c} else {});
    }

    lemma LiveKeys()
      ensures Live().Keys == rooms.Keys && |Live()| == |rooms|
    {
      assert Live().Keys == rooms.Keys;
      assert |Live()| == |Live().Keys| && |rooms| == |rooms.Keys|;
    }

    // --------------------------------------------------------------- opening

    /** `code` is the unused code createRoom draws. */
    method Open(c: Conn, code: RoomCode, draw: Rooms.Draw)
      requires Valid() && code !in rooms
      modifies this
      ensures Valid() && past == old(past)
      ensures Value() == Hub.Open(old(Value()), c, code, draw)
      ensures forall s :: s in rooms.Values ==> s in old(rooms).Values || fresh(s)
    {
      hide Session.AddHost, Session.Fresh, Bound, Counted, Hub.RoomOf, Hub.OpenedFrom, Rooms.CreateRoom, RoomSession.Value, Live;
      Finds(c);
      if c in sessionOf {
        Refuse(c, "", "ALREADY_IN_ROOM");
        return;
      }
      LiveKeys();
      if |rooms| >= maxRooms {
        Refuse(c, "", "SERVER_FULL");
        return;
      }
      CountIs(c);
      if c.address.Some? && CountOf(roomsPerAddress, c.address.value) >= maxRoomsPerAddress {
        Refuse(c, "", "TOO_MANY_ROOMS");
        return;
      }
      Admit(c, code, draw);
    }

    method Admit(c: Conn, code: RoomCode, draw: Rooms.Draw)
      requires Valid() && code !in rooms && c !in sessionOf
      modifies this
      ensures Valid() && past == old(past)
      ensures Value() == old(Value()).(
        rooms := old(Live())[code := Session.AddHost(Session.Fresh(Rooms.CreateRoom(code, draw.id), registry, draw.secret), c)],
        openers := old(openers)[code := c])
      ensures forall s :: s in rooms.Values ==> s in old(rooms).Values || fresh(s)
    {
      hide Bound, Counted, Live, Rooms.CreateRoom, Session.AddHost, Session.Fresh, RoomSession.Value;
      var room := Rooms.CreateRoom(code, draw.id);
      HubLaws.NewRoomIs(code, draw.id);
      Register(c, room, draw.secret);
      CountedOpen(openers, openedBy, roomsPerAddress, code, c);
      if c.address.Some? {
        openedBy := openedBy[code := c.address.value];
        roomsPerAddress := roomsPerAddress[c.address.value := CountOf(roomsPerAddress, c.address.value) + 1];
      }
      openers := openers[code := c];
    }

    method Create(c: Conn, room: Rooms.Room, hostToken: Token) returns (session: RoomSession)
      ensures fresh(session)
      ensures session.Value() == Session.AddHost(Session.Fresh(room, registry, hostToken), c)
    {
      hide OpensWell, Session.AddHost, Session.Fresh, RoomSession.Value;
      session := new RoomSession(room, registry, hostToken);
      session.AddHost(c);
    }

    method Register(c: Conn, room: Rooms.Room, hostToken: Token)
      requires Bound(Live(), rooms, sessionOf) && room.code !in rooms && c !in sessionOf && rooms.Values !! past
      modifies this`rooms, this`sessionOf
      ensures Bound(Live(), rooms, sessionOf) && rooms.Values !! past && rooms.Keys == old(rooms).Keys + {room.code}
      ensures Live() == old(Live())[room.code := Session.AddHost(Session.Fresh(room, registry, hostToken), c)]
      ensures forall s :: s in rooms.Values ==> s in old(rooms).Values || fresh(s)
    {
      hide Bound, Live, Session.AddHost, Session.Fresh, RoomSession.Value;
      var session := Create(c, room, hostToken);
      HubLaws.OpenedIs(room, registry, hostToken, c);
      Insert(session, c, room.code);
    }

    method Insert(session: RoomSession, c: Conn, code: RoomCode)
      requires Bound(Live(), rooms, sessionOf) && code !in rooms && c !in sessionOf && rooms.Values !! past
      requires session !in rooms.Values && session !in past
      requires session.Value().room.code == code && session.Value().members.Keys == {c}
      modifies this`rooms, this`sessionOf
      ensures Bound(Live(), rooms, sessionOf) && Live() == old(Live())[code := session.Value()]
      ensures rooms.Values == old(rooms).Values + {session} && rooms.Keys == old(rooms).Keys + {code}
    {
      hide Bound, Live, RoomSession.Value;
      BoundOpened(Live(), rooms, sessionOf, code, session, session.Value(), c);
      ValuesOneMore(rooms, code, session);
      Enrol(session, code);
      sessionOf := sessionOf[c := session];
    }

    method Enrol(session: RoomSession, code: RoomCode)
      requires code !in rooms
      modifies this`rooms
      ensures rooms == old(rooms)[code := session] && session.Value() == old(session.Value())
      ensures Live() == old(Live())[code := session.Value()]
    {
      hide Live, RoomSession.Value;
      ghost var before := Live();
      Lives();
      rooms := rooms[code := session];
      LiveIs(before[code := session.Value()]);
    }

    lemma Lives()
      ensures Live().Keys == rooms.Keys && forall code :: code in rooms ==> Live()[code] == rooms[code].Value()
      ensures forall code :: code in rooms ==> rooms[code] in rooms.Values
    {
    }

    lemma LiveIs(live: map<RoomCode, Session.State>)
      requires live.Keys == rooms.Keys && forall code :: code in rooms ==> rooms[code].Value() == live[code]
      ensures Live() == live
    {
      hide RoomSession.Value;
    }

    lemma CountIs(c: Conn)
      requires Valid()
      ensures c.address.Some? ==> CountOf(roomsPerAddress, c.address.value) == |Hub.OpenedFrom(openers, c.address.value)|
    {
    }

    // ------------------------------------------------------ timers and drains

    method Fire(session: RoomSession, ghost home: RoomCode, t: Session.TimerId, draw: Rooms.Draw)
      requires Valid() && home in rooms && rooms[home] == session && t in session.timers
      modifies rooms.Values
      ensures Valid()
      ensures home in old(Live()) && t in old(Live())[home].timers
      ensures Value() == Hub.Fire(old(Value()), home, t, draw)
    {
      hide KeepsIssuing, Session.Fire, Bound, Counted, Live;
      ghost var before, bound := Live(), sessionOf;
      OnlyOne(home);
      session.Fire(t, draw);
      ReboundNobody(bound, session);
      FireMembers(before[home], t, draw);
      Moved(before, bound, home, {}, {});
    }

    method ForgetOpener(code: RoomCode)
      requires Counted(openers, openedBy, roomsPerAddress) && code in openers
      modifies this`openers, this`openedBy, this`roomsPerAddress
      ensures openers == old(openers) - {code} && Counted(openers, openedBy, roomsPerAddress)
    {
      CountedForget(openers, openedBy, roomsPerAddress, code);
      hide Counted;
      openers := openers - {code};
      if code !in openedBy {
        return;
      }
      var address := openedBy[code];
      openedBy := openedBy - {code};
      var left := CountOf(roomsPerAddress, address) - 1;
      if left <= 0 {
        roomsPerAddress := roomsPerAddress - {address};
      } else {
        roomsPerAddress := roomsPerAddress[address := left];
      }
    }

    /** The microtask a session queued runs; when the room was closed, `onClosed` follows. */
    method Drain(session: RoomSession, ghost home: RoomCode)
      requires Valid() && home in rooms && rooms[home] == session
      modifies this, rooms.Values
      ensures Valid()
      ensures home in old(Live()) && Value() == Hub.Drain(old(Value()), home)
      ensures past == if old(session.room.closed) then old(past) + {session} else old(past)
      ensures session.Value() == Session.Drain(old(session.Value()))
    {
      hide Keeps, Session.Drain, Bound, Counted, Live, RoomSession.Value;
      ghost var before, bound := Live(), sessionOf;
      session.Shows();
      OnlyOne(home);
      var closedOut := session.Drain();
      session.Shows();
      DrainRoom(before[home]);
      if closedOut.None? {
        ReboundNobody(bound, session);
        Moved(before, bound, home, {}, {});
      } else {
        var code := session.room.code;
        Forget(session, code, before, closedOut.value);
        ForgetOpener(code);
      }
    }

    /** `onClosed`: the room and every bystander's binding are dropped. */
    method Forget(session: RoomSession, home: RoomCode, ghost before: map<RoomCode, Session.State>, conns: set<Conn>)
      requires home in rooms && rooms[home] == session
      requires Bound(before, rooms, sessionOf) && home in before && before.Keys == rooms.Keys
      requires forall code :: code in rooms && code != home ==> rooms[code].Value() == before[code]
      requires conns == before[home].members.Keys && rooms.Values !! past
      modifies this`rooms, this`sessionOf, this`past
      ensures Bound(Live(), rooms, sessionOf) && rooms.Values !! past && rooms.Keys == old(rooms).Keys - {home}
      ensures Live() == before - {home} && past == old(past) + {session}
    {
      hide Bound, Live, RoomSession.Value;
      BoundForgotten(before, rooms, sessionOf, home);
      GoneForGood(before, rooms, sessionOf, home);
      rooms := rooms - {home};
      LiveIs(before - {home});
      sessionOf := sessionOf - conns;
      past := past + {session};
    }

    // ------------------------------------------------------------ entry points

    /** One parsed message from a connection. */
    method Handle(c: Conn, m: ClientMessage, code: RoomCode, draw: Rooms.Draw)
      requires Valid() && code !in rooms
      modifies this, rooms.Values
      ensures Valid() && past == old(past)
      ensures Value() == Hub.Handle(old(Value()), c, m, code, draw)
      ensures forall s :: s in rooms.Values ==> s in old(rooms).Values || fresh(s)
    {
      hide Valid, Hub.Open, Hub.Attach, Hub.Route, Live;
      match m {
        case Open(_) => Open(c, code, draw);
        case Join(room, nickname, token) => JoinRoom(c, room, nickname, token, draw);
        case ResumeHost(room, token) => ResumeHostRoom(c, room, token, draw);
        case HostCommand(room, action, gameId, config) => HostCommand(c, room, action, gameId, config, draw);
        case Play(room, event) => Play(c, room, event, draw);
        case Leave(room) => Leave(c, room, draw);
        case Ping => Say(c, Pong);
      }
    }

    /** A session whose room closed has nothing left: nobody attached, no timer pending and
        no drain scheduled. */
    ghost predicate PastIsQuiet()
      reads this`past, past
    {
      forall s :: s in past ==> SessionLaws.Quiet(s.Value()) && SessionLaws.Dead(s.Value())
    }

    /** All that holds between two events. */
    ghost predicate Safe(used: Issued)
      reads this, rooms.Values, past
    {
      Valid() && Hub.Inv(Value(), used) && PastIsQuiet()
    }

    /** A session with a timer or a drain to come is a live one. */
    lemma HomeOf(session: RoomSession) returns (home: RoomCode)
      requires Valid() && PastIsQuiet() && session in rooms.Values + past
      requires session.timers != map[] || session.pendingBroadcast
      ensures home in rooms && rooms[home] == session
      ensures home in Live() && Live()[home] == session.Value()
      ensures Live()[home].timers == session.timers && Live()[home].pendingBroadcast == session.pendingBroadcast
      ensures Live()[home].room == session.room && home == session.room.code
    {
      hide Agree, Counted;
      assert session in rooms.Values;
      home :| home in rooms && rooms[home] == session;
    }

    method Receive(c: Conn, m: ClientMessage, code: RoomCode, draw: Rooms.Draw, ghost used: Issued)
      requires Safe(used) && RoomLaws.Fresh(used, draw) && code !in rooms
      modifies this, rooms.Values
      ensures Safe(Spend(used, draw)) && past == old(past)
      ensures Value() == Hub.Handle(old(Value()), c, m, code, draw)
    {
      hide Bound, Counted, Hub.Inv, Hub.Handle, Live, SessionLaws.Quiet, SessionLaws.Dead, RoomSession.Value;
      LiveKeys();
      HubLaws.HandleKeepsInv(Value(), c, m, code, draw, used);
      Handle(c, m, code, draw);
    }

    method Dropped(c: Conn, ghost draw: Rooms.Draw, ghost used: Issued)
      requires Safe(used) && RoomLaws.Fresh(used, draw)
      modifies this, rooms.Values
      ensures Safe(Spend(used, draw)) && past == old(past)
      ensures Value() == Hub.Disconnect(old(Value()), c)
    {
      hide Bound, Counted, Hub.Inv, Hub.Disconnect, Live, SessionLaws.Quiet, SessionLaws.Dead, RoomSession.Value;
      HubLaws.DropKeepsInv(Value(), c, draw, used);
      Disconnect(c);
    }

    /** Any pending timer of any session there ever was: it is a live one's. */
    method OnTimer(session: RoomSession, t: Session.TimerId, draw: Rooms.Draw, ghost used: Issued)
      requires Safe(used) && RoomLaws.Fresh(used, draw)
      requires session in rooms.Values + past && t in session.timers
      modifies this, rooms.Values
      ensures Safe(Spend(used, draw)) && past == old(past)
      ensures old(session in rooms.Values && session.room.code in Live() && t in Live()[session.room.code].timers)
      ensures Value() == Hub.Fire(old(Value()), old(session.room.code), t, draw)
    {
      hide Bound, Counted, Hub.Inv, Hub.Fire, Live, SessionLaws.Quiet, SessionLaws.Dead, RoomSession.Value;
      ghost var home := HomeOf(session);
      HubLaws.FireKeepsInv(Value(), home, t, draw, used);
      Fire(session, home, t, draw);
    }

    /** Any scheduled drain of any session there ever was: it is a live one's, so `onClosed`
        runs once at most. */
    method OnMicrotask(session: RoomSession, ghost draw: Rooms.Draw, ghost used: Issued)
      requires Safe(used) && RoomLaws.Fresh(used, draw)
      requires session in rooms.Values + past && session.pendingBroadcast
      modifies this, rooms.Values
      ensures Safe(Spend(used, draw))
      ensures old(session in rooms.Values && session.room.code in Live())
      ensures Value() == Hub.Drain(old(Value()), old(session.room.code))
      ensures past == if old(session.room.closed) then old(past) + {session} else old(past)
    {
      hide Bound, Counted, Hub.Inv, Hub.Drain, Live, SessionLaws.Quiet, SessionLaws.Dead, Session.Drain, RoomSession.Value;
      ghost var home := HomeOf(session);
      if session.room.closed {
        HubLaws.QuietAtLast(Value(), home, used);
      }
      HubLaws.DrainKeepsInv(Value(), home, used);
      HubLaws.SpendKeepsSessions(Hub.Drain(Value(), home), used, draw);
      Drain(session, home);
    }
  }

  lemma GoneForGood(live: map<RoomCode, Session.State>, rooms: map<RoomCode, RoomSession>, sessionOf: map<Conn, RoomSession>,
                    code: RoomCode)
    requires Bound(live, rooms, sessionOf) && code in rooms
    ensures rooms[code] !in (rooms - {code}).Values && (rooms - {code}).Values <= rooms.Values
  {
    hide Agree;
    forall s | s in (rooms - {code}).Values ensures s in rooms.Values && s != rooms[code] {
      var x :| x in rooms - {code} && (rooms - {code})[x] == s;
      assert x in rooms && rooms[x] == s;
    }
  }

  lemma DrainRoom(s: Session.State)
    ensures Session.Drain(s).room == s.room
    ensures !s.room.closed ==> Session.Drain(s).members == s.members
  {
  }
}
