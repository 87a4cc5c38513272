/** Non-interference. Two runs of a session go through the same events, except that player
    B submits another text, guesses another author or votes for another target. As long
    as the stage that hides it lasts, every message sent to anybody but B is the same. */
module Secrecy {
  import opened Collections
  import opened Values
  import opened GameEvents
  import opened Protocol
  import opened Session
  import opened SessionLaws
  import opened RoomLaws
  import opened Authority
  import SessionTheorems
  import Rooms
  import Games
  import GamesLaws
  import GuessWho
  import MostLikelyTo

  // ------------------------------------------------------------------ rooms

  /** Two rooms that differ at most in what B hides. */
  ghost predicate RoomTwins(b: PlayerId, r: Rooms.Room, q: Rooms.Room) {
    && q == r.(gameState := q.gameState)
    && GamesLaws.SameButHidden(b, r.gameState, q.gameState)
  }

  predicate Secret(room: Rooms.Room) {
    RoomStage(room) != GamesLaws.Public
  }

  /** A step to `after` discloses nothing: it is the same step of the same room, or the
      stage that hides something goes on. */
  ghost predicate Discreet(same: bool, room: Rooms.Room, after: Rooms.Room) {
    same || (Secret(room) && RoomStage(after) == RoomStage(room))
  }

  /** What one reduction answers in two rooms: the same refusal, the same nothing, or a
      change that keeps them twins. */
  ghost predicate AnswerTwins(b: PlayerId, x: Rooms.RoomResult, y: Rooms.RoomResult) {
    match x
    case Refused(_) => y == x
    case Same => y == x
    case Changed(r) => y.Changed? && RoomTwins(b, r, y.room)
  }

  lemma JoinTwins(b: PlayerId, r: Rooms.Room, q: Rooms.Room, nickname: string, token: Option<Token>,
                  registry: Games.Registry, draw: Rooms.Draw, used: Issued)
    requires RoomLaws.Inv(r, registry, used) && RoomTwins(b, r, q) && r.phase == Rooms.InGame
    ensures AnswerTwins(b, Rooms.OnJoin(r, nickname, token, registry, draw), Rooms.OnJoin(q, nickname, token, registry, draw))
  {
    hide Games.Reduce, GamesLaws.Inv, Identities, GamesLaws.SameButHidden, Put, Omit, PlayerJoined, Games.IsComplete, Coupled;
    var p := Rooms.NewPlayer(r, Rooms.NormaliseNickname(nickname), draw);
    BuiltAlike(b, r, q, registry, used);
    var game := Rooms.ActiveGame(r, registry).value;
    GamesLaws.JoinFact(game, r.gameState, p);
    GamesLaws.JoinFact(game, q.gameState, p);
  }

  lemma BuiltAlike(b: PlayerId, r: Rooms.Room, q: Rooms.Room, registry: Games.Registry, used: Issued)
    requires RoomLaws.Inv(r, registry, used) && RoomTwins(b, r, q) && r.phase == Rooms.InGame
    ensures Rooms.ActiveGame(r, registry).Some? && Rooms.ActiveGame(q, registry) == Rooms.ActiveGame(r, registry)
    ensures Games.BuiltBy(Rooms.ActiveGame(r, registry).value, r.gameState)
    ensures Games.BuiltBy(Rooms.ActiveGame(r, registry).value, q.gameState)
    ensures GamesLaws.Inv(r.gameState)
    ensures !Games.IsComplete(Rooms.ActiveGame(r, registry).value, r.gameState)
    ensures GamesLaws.StageOf(r.gameState) != GamesLaws.Public
    ensures GamesLaws.StageOf(q.gameState) == GamesLaws.StageOf(r.gameState)
    ensures Secret(r) && RoomStage(r) == RoomStage(q)
  {
  }

  lemma LeaveTwins(b: PlayerId, r: Rooms.Room, q: Rooms.Room, actor: Viewer, registry: Games.Registry, used: Issued)
    requires RoomLaws.Inv(r, registry, used) && RoomTwins(b, r, q) && r.phase == Rooms.InGame
    ensures AnswerTwins(b, Rooms.OnLeave(r, actor, registry), Rooms.OnLeave(q, actor, registry))
  {
    hide Games.Reduce, GamesLaws.Inv, Identities, GamesLaws.SameButHidden, Keep, Omit, PlayerLeft, Games.IsComplete,
         Rooms.FindPlayer, GamesLaws.StageOf;
    BuiltAlike(b, r, q, registry, used);
    if actor.Seat? {
      var game := Rooms.ActiveGame(r, registry).value;
      GamesLaws.LeaveFact(game, r.gameState, actor.id);
      GamesLaws.StepKeepsHidden(game, b, r.gameState, q.gameState, PlayerLeft(actor.id), PlayerLeft(actor.id));
    }
  }

  /** The same event, or a variant accepted in both rooms. */
  ghost predicate EventTwins(b: PlayerId, r: Rooms.Room, q: Rooms.Room, e: Json, f: Json, registry: Games.Registry) {
    e == f || (
      && GamesLaws.HiddenVariant(b, RoomStage(r), e, f)
      && Rooms.OnGameEvent(r, e, registry).Changed?
      && Rooms.OnGameEvent(q, f, registry).Changed?)
  }

  lemma VariantsAreNotFacts(b: PlayerId, stage: GamesLaws.Stage, e: Json, f: Json)
    requires GamesLaws.HiddenVariant(b, stage, e, f)
    ensures !IsRosterType(e) && !IsRosterType(f) && !IsAdvance(e) && !IsAdvance(f)
  {
  }

  lemma AcceptedIsNext(room: Rooms.Room, e: Json, registry: Games.Registry, g: Games.AnyGame)
    requires room.phase == Rooms.InGame && Rooms.ActiveGame(room, registry) == Some(g)
    requires !Games.IsComplete(g, room.gameState) && Rooms.OnGameEvent(room, e, registry).Changed?
    ensures Games.Reduce(g, room.gameState, e).Next?
  {
    hide Games.Reduce, Games.IsComplete;
  }

  lemma NotComplete(g: Games.AnyGame, s: Games.GameState)
    requires GamesLaws.StageOf(s) != GamesLaws.Public && Games.BuiltBy(g, s)
    ensures !Games.IsComplete(g, s)
  {
  }

  lemma CompleteIsPublic(g: Games.AnyGame, s: Games.GameState)
    requires Games.BuiltBy(g, s)
    ensures Games.IsComplete(g, s) <==> GamesLaws.StageOf(s) == GamesLaws.Public
  {
  }

  lemma PlayTwins(b: PlayerId, r: Rooms.Room, q: Rooms.Room, e: Json, f: Json, registry: Games.Registry, used: Issued)
    requires RoomLaws.Inv(r, registry, used) && RoomTwins(b, r, q) && r.phase == Rooms.InGame
    requires EventTwins(b, r, q, e, f, registry)
    requires RoomStage(Rooms.Becomes(r, Rooms.OnGameEvent(r, e, registry))) == RoomStage(r)
    ensures AnswerTwins(b, Rooms.OnGameEvent(r, e, registry), Rooms.OnGameEvent(q, f, registry))
  {
    hide Games.Reduce, GamesLaws.Inv, Identities, GamesLaws.SameButHidden, Games.IsComplete, Games.BuiltBy, Coupled,
         GamesLaws.HiddenVariant, GamesLaws.StageOf, Rooms.Finished, IsAdvance, IsRosterType;
    BuiltAlike(b, r, q, registry, used);
    var g := Rooms.ActiveGame(r, registry).value;
    if e != f {
      VariantsAreNotFacts(b, RoomStage(r), e, f);
      NotComplete(g, q.gameState);
      AcceptedIsNext(r, e, registry, g);
      AcceptedIsNext(q, f, registry, g);
    }
    if !IsRosterType(e) && !Games.Reduce(g, r.gameState, e).Rejected? {
      GamesLaws.StepLaws(g, r.gameState, e);
      CompleteIsPublic(g, GamesLaws.Step(g, r.gameState, e));
      PlayStays(r, e, registry, g);
    }
    if !IsRosterType(e) {
      RejectedStays(g, r.gameState, e);
      GamesLaws.StepKeepsHidden(g, b, r.gameState, q.gameState, e, f);
      StepKeepsBuilt(g, r.gameState, e);
      StepKeepsBuilt(g, q.gameState, f);
      NotComplete(g, GamesLaws.Step(g, r.gameState, e));
      NotComplete(g, GamesLaws.Step(g, q.gameState, f));
    }
  }

  lemma StepKeepsBuilt(g: Games.AnyGame, s: Games.GameState, e: Json)
    requires Games.BuiltBy(g, s)
    ensures Games.BuiltBy(g, GamesLaws.Step(g, s, e))
  {
    hide GuessWho.Reduce, MostLikelyTo.Reduce;
  }

  lemma RejectedStays(g: Games.AnyGame, s: Games.GameState, e: Json)
    ensures Games.Reduce(g, s, e).Rejected? ==> GamesLaws.Step(g, s, e) == s
  {
  }

  lemma PlayStays(r: Rooms.Room, e: Json, registry: Games.Registry, g: Games.AnyGame)
    requires r.phase == Rooms.InGame && Rooms.ActiveGame(r, registry) == Some(g) && !IsRosterType(e)
    requires !Games.Reduce(g, r.gameState, e).Rejected?
    requires RoomStage(Rooms.Becomes(r, Rooms.OnGameEvent(r, e, registry))) == RoomStage(r)
    requires RoomStage(r) != GamesLaws.Public
    requires Games.IsComplete(g, GamesLaws.Step(g, r.gameState, e))
      <==> GamesLaws.StageOf(GamesLaws.Step(g, r.gameState, e)) == GamesLaws.Public
    ensures GamesLaws.StageOf(GamesLaws.Step(g, r.gameState, e)) == GamesLaws.StageOf(r.gameState)
  {
    hide Games.Reduce, Games.IsComplete, GamesLaws.StageOf, IsAdvance, IsRosterType, Rooms.RoundScores;
  }

  /** Everything the room is asked while something is hidden. */
  lemma ReduceTwins(b: PlayerId, r: Rooms.Room, q: Rooms.Room, event: Rooms.RoomEvent, event': Rooms.RoomEvent, actor: Viewer,
                    registry: Games.Registry, draw: Rooms.Draw, used: Issued)
    requires RoomLaws.Inv(r, registry, used) && RoomTwins(b, r, q) && Secret(r)
    requires event == event' ||
      (event.GameEvent? && event'.GameEvent? && EventTwins(b, r, q, event.event, event'.event, registry))
    requires RoomStage(Rooms.Becomes(r, Rooms.Reduce(r, event, actor, registry, draw))) == RoomStage(r)
    ensures AnswerTwins(b, Rooms.Reduce(r, event, actor, registry, draw), Rooms.Reduce(q, event', actor, registry, draw))
  {
    hide RoomLaws.Inv, RoomTwins, GamesLaws.SameButHidden, Rooms.OnJoin, Rooms.OnLeave, Rooms.OnGameEvent,
         GamesLaws.StageOf, Rooms.Finished;
    match event
    case Join(nickname, token) => JoinTwins(b, r, q, nickname, token, registry, draw, used);
    case Leave => LeaveTwins(b, r, q, actor, registry, used);
    case GameEvent(e) => PlayTwins(b, r, q, e, event'.event, registry, used);
    case SelectGame(_) => SameFields(b, r, q);
    case ConfigureGame(_) => SameFields(b, r, q);
    case StartGame => SameFields(b, r, q);
    case EndGame => SameFields(b, r, q);
      EndTwins(r, q, actor, registry);
  }

  lemma SameFields(b: PlayerId, r: Rooms.Room, q: Rooms.Room)
    requires RoomTwins(b, r, q)
    ensures q == r.(gameState := q.gameState)
  {
  }

  lemma EndTwins(r: Rooms.Room, q: Rooms.Room, actor: Viewer, registry: Games.Registry)
    requires q == r.(gameState := q.gameState) && Secret(r)
    requires RoomStage(Rooms.Becomes(r, Rooms.OnEndGame(r, actor, registry))) == RoomStage(r)
    ensures Rooms.OnEndGame(q, actor, registry) == Rooms.OnEndGame(r, actor, registry)
    ensures Rooms.OnEndGame(r, actor, registry).Refused?
  {
    hide GamesLaws.StageOf, Rooms.RoundScores;
  }

  /** While something is hidden, a frame for anybody but B is the same in both rooms. */
  lemma FramesHide(b: PlayerId, r: Rooms.Room, q: Rooms.Room, registry: Games.Registry, viewer: Viewer)
    requires RoomTwins(b, r, q) && Secret(r) && viewer != Seat(b)
    ensures FrameFor(q, registry, viewer) == FrameFor(r, registry, viewer)
  {
    hide Games.View, GamesLaws.SameButHidden, GamesLaws.StageOf, Standings, Games.RoundCount, Rooms.RoundScores;
    SomethingPlayed(r.gameState, q.gameState, b);
    match Rooms.ActiveGame(r, registry)
    case Some(g) => GamesLaws.ViewHides(g, b, r.gameState, q.gameState, viewer);
    case None =>
  }

  lemma SomethingPlayed(s: Games.GameState, t: Games.GameState, b: PlayerId)
    requires GamesLaws.SameButHidden(b, s, t)
    ensures s.NoState? <==> t.NoState?
  {
  }

  // --------------------------------------------------------------- sessions

  /** Two logs alike in everything but the frames rendered for B. */
  ghost predicate LogTwins(b: PlayerId, x: seq<Delivery>, y: seq<Delivery>) {
    && |x| == |y|
    && forall i :: 0 <= i < |x| ==> x[i].to == y[i].to && (x[i].to != Some(Seat(b)) ==> x[i] == y[i])
  }

  ghost predicate LogsTwins(b: PlayerId, s: State, t: State) {
    && t.log.Keys == s.log.Keys
    && forall c :: c in s.log ==> LogTwins(b, s.log[c], t.log[c])
  }

  /** Two sessions that differ at most in what B hides and in what B was shown. */
  ghost predicate Twins(b: PlayerId, s: State, t: State) {
    && t == s.(room := t.room, log := t.log)
    && RoomTwins(b, s.room, t.room)
    && LogsTwins(b, s, t)
  }

  lemma TellTwins(b: PlayerId, s: State, t: State, c: Conn, message: ServerMessage)
    requires Twins(b, s, t)
    ensures Twins(b, Tell(s, c, message), Tell(t, c, message))
  {
    hide RoomTwins;
  }

  lemma SupersedeTwins(b: PlayerId, s: State, t: State, conns: set<Conn>)
    requires Twins(b, s, t)
    ensures Twins(b, Supersede(s, conns), Supersede(t, conns))
  {
    hide RoomTwins;
    assert t.room.code == s.room.code by { SameFields(b, s.room, t.room); }
  }

  /** Fields that do not depend on what is hidden may be set alike in both. */
  lemma FieldsTwins(b: PlayerId, s: State, t: State, s': State, t': State)
    requires Twins(b, s, t)
    requires s' == s.(members := s'.members, reapers := s'.reapers, hostReaper := s'.hostReaper, timers := s'.timers,
                      nextTimer := s'.nextTimer, pendingBroadcast := s'.pendingBroadcast)
    requires t' == t.(members := s'.members, reapers := s'.reapers, hostReaper := s'.hostReaper, timers := s'.timers,
                      nextTimer := s'.nextTimer, pendingBroadcast := s'.pendingBroadcast)
    ensures Twins(b, s', t')
  {
    hide RoomTwins, LogTwins;
  }

  lemma Alike(b: PlayerId, s: State, t: State)
    requires Twins(b, s, t)
    ensures t == s.(room := t.room, log := t.log) && t.room == s.room.(gameState := t.room.gameState)
  {
    SameFields(b, s.room, t.room);
  }

  lemma CancelReapTwins(b: PlayerId, s: State, t: State, id: PlayerId)
    requires Twins(b, s, t)
    ensures Twins(b, CancelReap(s, id), CancelReap(t, id))
  {
    hide RoomTwins, LogsTwins;
    var x, y := CancelReap(s, id), CancelReap(t, id);
    CancelReapMoves(s, id);
    CancelReapMoves(t, id);
    assert x.timers == y.timers && x.reapers == y.reapers;
    FieldsTwins(b, s, t, x, y);
  }

  lemma CancelHostReapTwins(b: PlayerId, s: State, t: State)
    requires Twins(b, s, t)
    ensures Twins(b, CancelHostReap(s), CancelHostReap(t))
  {
    hide RoomTwins, LogsTwins;
    var x, y := CancelHostReap(s), CancelHostReap(t);
    assert x == s.(timers := x.timers, hostReaper := x.hostReaper);
    assert y == t.(timers := x.timers, hostReaper := x.hostReaper);
    FieldsTwins(b, s, t, x, y);
  }

  lemma ScheduleReapTwins(b: PlayerId, s: State, t: State, id: PlayerId)
    requires Twins(b, s, t)
    ensures Twins(b, ScheduleReap(s, id), ScheduleReap(t, id))
  {
    hide Twins, CancelReap;
    CancelReapTwins(b, s, t, id);
    var x, y := CancelReap(s, id), CancelReap(t, id);
    Alike(b, x, y);
    FieldsTwins(b, x, y, ScheduleReap(s, id), ScheduleReap(t, id));
  }

  lemma ScheduleHostReapTwins(b: PlayerId, s: State, t: State)
    requires Twins(b, s, t)
    ensures Twins(b, ScheduleHostReap(s), ScheduleHostReap(t))
  {
    hide Twins, CancelHostReap;
    CancelHostReapTwins(b, s, t);
    var x, y := CancelHostReap(s), CancelHostReap(t);
    Alike(b, x, y);
    FieldsTwins(b, x, y, ScheduleHostReap(s), ScheduleHostReap(t));
  }

  lemma DrainMessageTwins(b: PlayerId, s: State, t: State, c: Conn)
    requires Twins(b, s, t) && (s.room == t.room || Secret(s.room)) && c in s.members
    ensures DrainMessage(s, c).to == DrainMessage(t, c).to
    ensures DrainMessage(s, c).to != Some(Seat(b)) ==> DrainMessage(s, c) == DrainMessage(t, c)
  {
    hide RoomTwins, FrameFor, Secret, LogsTwins;
    SameFields(b, s.room, t.room);
    if s.members[c] != Seat(b) && s.room != t.room {
      FramesHide(b, s.room, t.room, s.registry, s.members[c]);
    }
  }

  lemma LogGrows(b: PlayerId, x: seq<Delivery>, y: seq<Delivery>, d: Delivery, e: Delivery)
    requires LogTwins(b, x, y) && d.to == e.to && (d.to != Some(Seat(b)) ==> d == e)
    ensures LogTwins(b, x + [d], y + [e])
  {
  }

  lemma LogIs(b: PlayerId, s: State, t: State, c: Conn)
    requires Twins(b, s, t)
    ensures LogTwins(b, Log(s, c), Log(t, c))
  {
  }

  lemma DrainLogTwins(b: PlayerId, s: State, t: State, c: Conn)
    requires Twins(b, s, t) && (s.room == t.room || Secret(s.room)) && c in Session.Drain(s).log && c in Session.Drain(t).log
    ensures LogTwins(b, Session.Drain(s).log[c], Session.Drain(t).log[c])
  {
    hide Twins, Secret, DrainMessage, LogTwins, Session.Drain;
    Alike(b, s, t);
    LogIs(b, s, t, c);
    SessionTheorems.OneDrainOneMessage(s, c);
    SessionTheorems.OneDrainOneMessage(t, c);
    if c in s.members {
      DrainMessageTwins(b, s, t, c);
      LogGrows(b, Log(s, c), Log(t, c), DrainMessage(s, c), DrainMessage(t, c));
    } else {
      assert Log(s, c) + [] == Log(s, c) && Log(t, c) + [] == Log(t, c);
    }
  }

  lemma DrainTwins(b: PlayerId, s: State, t: State)
    requires Twins(b, s, t) && (s.room == t.room || Secret(s.room))
    ensures Twins(b, Session.Drain(s), Session.Drain(t))
  {
    hide RoomTwins, Secret, DrainMessage, LogTwins;
    var x, y := Session.Drain(s), Session.Drain(t);
    forall c | c in x.log && c in y.log ensures LogTwins(b, x.log[c], y.log[c]) {
      DrainLogTwins(b, s, t, c);
    }
    DrainFields(b, s, t);
  }

  lemma DrainFields(b: PlayerId, s: State, t: State)
    requires Twins(b, s, t)
    ensures var x, y := Session.Drain(s), Session.Drain(t);
      y == x.(room := t.room, log := y.log) && x.room == s.room && x.log.Keys == y.log.Keys
  {
    hide RoomTwins, DrainMessage, LogTwins;
    SameFields(b, s.room, t.room);
  }

  // ------------------------------------------------------------ each handler

  /** The same event, or two events of B that differ in what B hides, both accepted. */
  ghost predicate RoomEventTwins(b: PlayerId, s: State, t: State, event: Rooms.RoomEvent, event': Rooms.RoomEvent) {
    event == event' ||
      (event.GameEvent? && event'.GameEvent? && EventTwins(b, s.room, t.room, event.event, event'.event, s.registry))
  }

  lemma SelfTwins(b: PlayerId, x: Rooms.RoomResult)
    ensures AnswerTwins(b, x, x)
  {
  }

  lemma SameLogs(b: PlayerId, s: State, t: State, s': State, t': State)
    requires LogsTwins(b, s, t) && s'.log == s.log && t'.log == t.log
    ensures LogsTwins(b, s', t')
  {
  }

  /** An event applied in both sessions. */
  lemma ApplyTwins(b: PlayerId, s: State, t: State, event: Rooms.RoomEvent, event': Rooms.RoomEvent, actor: Viewer,
                   draw: Rooms.Draw, used: Issued)
    requires RoomLaws.Inv(s.room, s.registry, used) && Twins(b, s, t) && RoomEventTwins(b, s, t, event, event')
    requires Discreet(s.room == t.room && event == event', s.room, Apply(s, event, actor, draw).room)
    ensures Twins(b, Apply(s, event, actor, draw), Apply(t, event', actor, draw))
    ensures AnswerTwins(b, Result(s, event, actor, draw), Result(t, event', actor, draw))
  {
    hide RoomLaws.Inv, RoomTwins, LogsTwins, Rooms.Reduce, RoomStage, EventTwins, Secret;
    ApplyMoves(s, event, actor, draw);
    if s.room == t.room && event == event' {
      SelfTwins(b, Result(s, event, actor, draw));
    } else {
      ReduceTwins(b, s.room, t.room, event, event', actor, s.registry, draw, used);
    }
    SameLogs(b, s, t, Apply(s, event, actor, draw), Apply(t, event', actor, draw));
  }

  lemma ApplyForTwins(b: PlayerId, s: State, t: State, c: Conn, event: Rooms.RoomEvent, event': Rooms.RoomEvent, actor: Viewer,
                      draw: Rooms.Draw, used: Issued)
    requires RoomLaws.Inv(s.room, s.registry, used) && Twins(b, s, t) && RoomEventTwins(b, s, t, event, event')
    requires Discreet(s.room == t.room && event == event', s.room, ApplyFor(s, c, event, actor, draw).room)
    ensures Twins(b, ApplyFor(s, c, event, actor, draw), ApplyFor(t, c, event', actor, draw))
  {
    hide RoomLaws.Inv, Twins, RoomTwins, Rooms.Reduce, RoomStage, Apply, Tell, RoomEventTwins, Secret;
    ApplyMoves(s, event, actor, draw);
    ApplyForMoves(s, c, event, actor, draw);
    Alike(b, s, t);
    ApplyTwins(b, s, t, event, event', actor, draw, used);
    match Result(s, event, actor, draw)
    case Refused(e) => TellTwins(b, s, t, c, ErrorMessage(s, ErrorText(e)));
    case _ =>
  }

  lemma AddHostTwins(b: PlayerId, s: State, t: State, c: Conn)
    requires Twins(b, s, t)
    ensures Twins(b, AddHost(s, c), AddHost(t, c))
  {
    hide Twins, Tell;
    Alike(b, s, t);
    var x, y := s.(members := s.members[c := Host]), t.(members := t.members[c := Host]);
    FieldsTwins(b, s, t, x, y);
    var m := Opened(s.room.code, s.hostToken);
    TellTwins(b, x, y, c, m);
    Alike(b, Tell(x, c, m), Tell(y, c, m));
    FieldsTwins(b, Tell(x, c, m), Tell(y, c, m), AddHost(s, c), AddHost(t, c));
  }

  lemma ResumeHostTwins(b: PlayerId, s: State, t: State, c: Conn, hostToken: Token)
    requires Twins(b, s, t)
    ensures Twins(b, Session.ResumeHost(s, c, hostToken), Session.ResumeHost(t, c, hostToken))
  {
    hide Twins, Tell, CancelHostReap, Supersede, AddHost;
    Alike(b, s, t);
    TellTwins(b, s, t, c, ErrorMessage(s, "BAD_HOST_TOKEN"));
    CancelHostReapTwins(b, s, t);
    var x, y := CancelHostReap(s), CancelHostReap(t);
    Alike(b, x, y);
    AttachedSame(x, y, Host);
    SupersedeTwins(b, x, y, Attached(x, Host));
    AddHostTwins(b, Supersede(x, Attached(x, Host)), Supersede(y, Attached(y, Host)), c);
  }

  lemma AcceptedTwins(b: PlayerId, s: State, t: State, nickname: string, token: Option<Token>, draw: Rooms.Draw)
    requires Twins(b, s, t)
    requires var e := Rooms.Join(nickname, token); AnswerTwins(b, Result(s, e, Host, draw), Result(t, e, Host, draw))
    ensures JoinAccepted(t, nickname, token, draw) == JoinAccepted(s, nickname, token, draw)
  {
    hide Twins, Rooms.Reduce, FirstNew, GamesLaws.SameButHidden, Ids, Rooms.FindToken;
    Alike(b, s, t);
  }

  lemma JoinedTwins(b: PlayerId, s: State, t: State, after: Rooms.Room, after': Rooms.Room, token: Option<Token>)
    requires Twins(b, s, t) && after' == after.(gameState := after'.gameState)
    ensures JoinedId(t, after', token) == JoinedId(s, after, token)
    ensures IsNew(t, after') == IsNew(s, after)
  {
    hide Twins, FirstNew, Ids, Rooms.FindToken;
    Alike(b, s, t);
  }

  lemma AttachTwins(b: PlayerId, s: State, t: State, c: Conn, id: PlayerId, secret: Token, isNew: bool)
    requires Twins(b, s, t)
    ensures Twins(b, Attach(s, c, id, secret, isNew), Attach(t, c, id, secret, isNew))
  {
    hide Twins, Tell, CancelReap, Supersede;
    Alike(b, s, t);
    CancelReapTwins(b, s, t, id);
    AttachedSame(s, t, Seat(id));
    var conns := Attached(s, Seat(id));
    SupersedeTwins(b, CancelReap(s, id), CancelReap(t, id), conns);
    var x := if isNew then s else Supersede(CancelReap(s, id), conns);
    var y := if isNew then t else Supersede(CancelReap(t, id), conns);
    Alike(b, x, y);
    var x', y' := x.(members := x.members[c := Seat(id)]), y.(members := y.members[c := Seat(id)]);
    FieldsTwins(b, x, y, x', y');
    TellTwins(b, x', y', c, Joined(s.room.code, id, secret));
  }

  lemma JoinStep(b: PlayerId, s: State, t: State, c: Conn, nickname: string, token: Option<Token>, draw: Rooms.Draw, used: Issued)
    requires RoomLaws.Inv(s.room, s.registry, used) && Twins(b, s, t)
    requires Discreet(s.room == t.room, s.room, Session.Join(s, c, nickname, token, draw).room)
    ensures Twins(b, Session.Join(s, c, nickname, token, draw), Session.Join(t, c, nickname, token, draw))
  {
    hide RoomLaws.Inv, Twins, Rooms.Reduce, RoomStage, Secret, Apply, Tell, JoinedId, IsNew, Attach, Ids, JoinAccepted,
         RoomTwins;
    var e := Rooms.Join(nickname, token);
    JoinRoomIs(s, c, nickname, token, draw);
    ApplyMoves(s, e, Host, draw);
    ApplyMoves(t, e, Host, draw);
    ApplyTwins(b, s, t, e, e, Host, draw, used);
    Alike(b, s, t);
    var x, y := Apply(s, e, Host, draw), Apply(t, e, Host, draw);
    Alike(b, x, y);
    match Result(s, e, Host, draw)
    case Refused(error) => JoinRefused(s, c, nickname, token, draw);
      JoinRefused(t, c, nickname, token, draw);
      TellTwins(b, s, t, c, ErrorMessage(s, ErrorText(error)));
    case _ =>
      AcceptedTwins(b, s, t, nickname, token, draw);
      JoinedTwins(b, s, t, x.room, y.room, token);
      JoinIsAttach(s, c, nickname, token, draw);
      JoinIsAttach(t, c, nickname, token, draw);
      AcceptedIs(s, nickname, token, draw);
      AcceptedIs(t, nickname, token, draw);
      if JoinAccepted(s, nickname, token, draw) {
        var id := JoinedId(s, x.room, token).value;
        AttachTwins(b, x, y, c, id, x.room.tokens.vals[id], IsNew(s, x.room));
      } else {
        TellTwins(b, x, y, c, ErrorMessage(x, "JOIN_FAILED"));
      }
  }

  lemma HostActTwins(b: PlayerId, s: State, t: State, c: Conn, action: HostAction, gameId: Option<GameId>, config: Option<Json>,
                     draw: Rooms.Draw, used: Issued)
    requires RoomLaws.Inv(s.room, s.registry, used) && Twins(b, s, t)
    requires Discreet(s.room == t.room, s.room, HostAct(s, c, action, gameId, config, draw).room)
    ensures Twins(b, HostAct(s, c, action, gameId, config, draw), HostAct(t, c, action, gameId, config, draw))
  {
    hide RoomLaws.Inv, Twins, RoomStage, Secret, ApplyFor, HostEvent, Tell;
    Alike(b, s, t);
    TellTwins(b, s, t, c, ErrorMessage(s, "NOT_HOST"));
    TellTwins(b, s, t, c, ErrorMessage(s, "NO_GAME_ID"));
    var event := HostEvent(action, gameId, config);
    if c in s.members && s.members[c] == Host && event.Some? {
      ApplyForTwins(b, s, t, c, event.value, event.value, Host, draw, used);
    }
  }

  /** The same JSON from the same connection, or two events of B's connection that differ
      in what B hides at this stage, both accepted. */
  ghost predicate PlayedTwins(b: PlayerId, s: State, t: State, c: Conn, raw: Json, raw': Json) {
    raw == raw' || (
      && c in s.members && s.members[c] == Seat(b)
      && !IsAdvance(raw) && !IsAdvance(raw')
      && EventTwins(b, s.room, t.room, StampPlayerId(raw, b), StampPlayerId(raw', b), s.registry))
  }

  /** Two events as B's phone may send them that differ in the stage's secret only: another
      text, another author for the same card, another target. */
  predicate DifferInSecret(stage: GamesLaws.Stage, raw: Json, raw': Json) {
    match stage
    case Collecting => AreOf("submit", "text", raw, raw')
    case Guessing =>
      AreOf("guess", "author", raw, raw') && StrField(raw, "cardId").Some? && StrField(raw', "cardId") == StrField(raw, "cardId")
    case Voting => AreOf("vote", "target", raw, raw')
    case Public => false
  }

  predicate AreOf(name: string, secret: string, raw: Json, raw': Json) {
    && HasType(raw, name) && HasType(raw', name)
    && StrField(raw, secret).Some? && StrField(raw', secret).Some?
  }

  lemma StampedVariants(b: PlayerId, stage: GamesLaws.Stage, raw: Json, raw': Json)
    requires DifferInSecret(stage, raw, raw')
    ensures GamesLaws.HiddenVariant(b, stage, StampPlayerId(raw, b), StampPlayerId(raw', b))
    ensures !IsAdvance(raw) && !IsAdvance(raw')
  {
    hide StampPlayerId;
    StampedFields(b, raw);
    StampedFields(b, raw');
  }

  lemma StampedFields(b: PlayerId, raw: Json)
    requires raw.Obj?
    ensures var e := StampPlayerId(raw, b);
      && Field(e, "playerId") == Some(Str(b)) && Field(e, "type") == Field(raw, "type")
      && Field(e, "text") == Field(raw, "text") && Field(e, "cardId") == Field(raw, "cardId")
      && Field(e, "author") == Field(raw, "author") && Field(e, "target") == Field(raw, "target")
  {
  }

  /** Any two such events of B that the room accepts are a step the two runs may differ in. */
  lemma SecretsMayDiffer(b: PlayerId, s: State, c: Conn, raw: Json, raw': Json)
    requires c in s.members && s.members[c] == Seat(b) && DifferInSecret(RoomStage(s.room), raw, raw')
    requires Rooms.OnGameEvent(s.room, StampPlayerId(raw, b), s.registry).Changed?
    requires Rooms.OnGameEvent(s.room, StampPlayerId(raw', b), s.registry).Changed?
    ensures PlayedTwins(b, s, s, c, raw, raw')
  {
    hide StampPlayerId, GamesLaws.HiddenVariant, Rooms.OnGameEvent, DifferInSecret, RoomStage;
    StampedVariants(b, RoomStage(s.room), raw, raw');
  }

  lemma PlayStep(b: PlayerId, s: State, t: State, c: Conn, raw: Json, raw': Json, draw: Rooms.Draw, used: Issued)
    requires RoomLaws.Inv(s.room, s.registry, used) && Twins(b, s, t) && PlayedTwins(b, s, t, c, raw, raw')
    requires Discreet(s.room == t.room && raw == raw', s.room, Session.Play(s, c, raw, draw).room)
    ensures Twins(b, Session.Play(s, c, raw, draw), Session.Play(t, c, raw', draw))
  {
    hide RoomLaws.Inv, Twins, RoomStage, Secret, ApplyFor, StampPlayerId, IsAdvance, Tell, EventTwins;
    Alike(b, s, t);
    TellTwins(b, s, t, c, ErrorMessage(s, "NOT_IN_ROOM"));
    TellTwins(b, s, t, c, ErrorMessage(s, "HOST_CANNOT_PLAY"));
    TellTwins(b, s, t, c, ErrorMessage(s, "ADVANCE_IS_HOST_ONLY"));
    if c in s.members {
      match s.members[c]
      case Host =>
        if IsAdvance(raw) {
          ApplyForTwins(b, s, t, c, Rooms.GameEvent(raw), Rooms.GameEvent(raw), Host, draw, used);
        }
      case Seat(id) =>
        if !IsAdvance(raw) {
          ApplyForTwins(b, s, t, c, Rooms.GameEvent(StampPlayerId(raw, id)), Rooms.GameEvent(StampPlayerId(raw', id)),
                        Seat(id), draw, used);
        }
    }
  }

  lemma LeaveStep(b: PlayerId, s: State, t: State, c: Conn, draw: Rooms.Draw, used: Issued)
    requires RoomLaws.Inv(s.room, s.registry, used) && Twins(b, s, t)
    requires Discreet(s.room == t.room, s.room, Session.Leave(s, c, draw).room)
    ensures Twins(b, Session.Leave(s, c, draw), Session.Leave(t, c, draw))
  {
    hide RoomLaws.Inv, Twins, RoomStage, Secret, Apply, CancelReap;
    Alike(b, s, t);
    if c in s.members {
      var x, y := s.(members := s.members - {c}), t.(members := t.members - {c});
      FieldsTwins(b, s, t, x, y);
      match s.members[c]
      case Host => ApplyTwins(b, x, y, Rooms.Leave, Rooms.Leave, Host, draw, used);
      case Seat(id) =>
        CancelReapTwins(b, x, y, id);
        CancelReapMoves(x, id);
        CancelReapMoves(y, id);
        ApplyTwins(b, CancelReap(x, id), CancelReap(y, id), Rooms.Leave, Rooms.Leave, Seat(id), draw, used);
    }
  }

  lemma DisconnectStep(b: PlayerId, s: State, t: State, c: Conn)
    requires Twins(b, s, t)
    ensures Twins(b, Session.Disconnect(s, c), Session.Disconnect(t, c))
  {
    hide Twins, ScheduleReap, ScheduleHostReap;
    Alike(b, s, t);
    if c in s.members {
      var x, y := s.(members := s.members - {c}), t.(members := t.members - {c});
      FieldsTwins(b, s, t, x, y);
      match s.members[c]
      case Host => ScheduleHostReapTwins(b, x, y);
      case Seat(id) => ScheduleReapTwins(b, x, y, id);
    }
  }

  /** The session once a firing timer is off the books, before the room is told. */
  function Fired(s: State, x: TimerId): State
    requires x in s.timers
  {
    match s.timers[x].task
    case ReapHost => Cancel(s, x).(hostReaper := None)
    case ReapPlayer(id) => Cancel(s, x).(reapers := s.reapers - {id})
  }

  lemma FireIs(s: State, x: TimerId, draw: Rooms.Draw)
    requires x in s.timers
    ensures Session.Fire(s, x, draw) == Apply(Fired(s, x), Rooms.Leave, TaskViewer(s.timers[x].task), draw)
    ensures Fired(s, x) == s.(timers := s.timers - {x}, hostReaper := Fired(s, x).hostReaper, reapers := Fired(s, x).reapers)
  {
    hide Apply;
  }

  lemma FiredTwins(b: PlayerId, s: State, t: State, x: TimerId)
    requires Twins(b, s, t) && x in s.timers && x in t.timers
    ensures Twins(b, Fired(s, x), Fired(t, x))
  {
    hide Twins;
    Alike(b, s, t);
    FieldsTwins(b, s, t, Fired(s, x), Fired(t, x));
  }

  lemma FireStep(b: PlayerId, s: State, t: State, x: TimerId, draw: Rooms.Draw, used: Issued)
    requires RoomLaws.Inv(s.room, s.registry, used) && Twins(b, s, t) && x in s.timers && x in t.timers
    requires Discreet(s.room == t.room, s.room, Session.Fire(s, x, draw).room)
    ensures Twins(b, Session.Fire(s, x, draw), Session.Fire(t, x, draw))
  {
    hide RoomLaws.Inv, Twins, RoomStage, Secret, Apply, Session.Fire, Fired;
    Alike(b, s, t);
    FireIs(s, x, draw);
    FireIs(t, x, draw);
    FiredTwins(b, s, t, x);
    ApplyTwins(b, Fired(s, x), Fired(t, x), Rooms.Leave, Rooms.Leave, TaskViewer(s.timers[x].task), draw, used);
  }

  // -------------------------------------------------------------- whole runs

  /** Two operations that are the same, or two of B that differ in what B hides. */
  ghost predicate OpTwins(b: PlayerId, s: State, t: State, op: Op, op': Op) {
    op == op' || (op.OpPlay? && op'.OpPlay? && op'.c == op.c && PlayedTwins(b, s, t, op.c, op.event, op'.event))
  }

  lemma EnabledTwins(b: PlayerId, s: State, t: State, op: Op, op': Op)
    requires Twins(b, s, t) && OpTwins(b, s, t, op, op')
    ensures Enabled(s, op) == Enabled(t, op')
  {
    hide Twins, PlayedTwins;
    Alike(b, s, t);
  }

  lemma StepTwins(b: PlayerId, s: State, t: State, op: Op, op': Op, draw: Rooms.Draw, used: Issued)
    requires RoomLaws.Inv(s.room, s.registry, used) && Twins(b, s, t) && OpTwins(b, s, t, op, op')
    requires Enabled(s, op) && Enabled(t, op')
    requires Discreet(s.room == t.room && op == op', s.room, SessionLaws.Step(s, op, draw).room)
    ensures Twins(b, SessionLaws.Step(s, op, draw), SessionLaws.Step(t, op', draw))
  {
    hide RoomLaws.Inv, Twins, RoomStage, Secret, PlayedTwins, Session.Join, Session.ResumeHost, Session.HostAct,
         Session.Play, Session.Leave, Session.Disconnect, Session.Fire, Session.Drain;
    match op
    case OpResumeHost(c, token) => ResumeHostTwins(b, s, t, c, token);
    case OpJoin(c, nickname, token) => JoinStep(b, s, t, c, nickname, token, draw, used);
    case OpHostAct(c, action, gameId, config) => HostActTwins(b, s, t, c, action, gameId, config, draw, used);
    case OpPlay(c, raw) => PlaySame(b, s, t, c, raw);
      PlayStep(b, s, t, c, raw, op'.event, draw, used);
    case OpLeave(c) => LeaveStep(b, s, t, c, draw, used);
    case OpDisconnect(c) => DisconnectStep(b, s, t, c);
    case OpFire(x) => FireStep(b, s, t, x, draw, used);
    case OpDrain => DrainTwins(b, s, t);
  }

  lemma PlaySame(b: PlayerId, s: State, t: State, c: Conn, raw: Json)
    ensures PlayedTwins(b, s, t, c, raw, raw)
  {
  }

  /** Two runs in lockstep. At each point they do the same thing, or B does two things that
      differ only in what B hides at this stage and are accepted in both. A stage is only
      left, a round only aborted, when B's entries have come to agree: what is about to be
      shown is then the same. */
  ghost predicate Lockstep(b: PlayerId, s: State, t: State, es: seq<Event>, fs: seq<Event>)
    requires |fs| == |es|
  {
    es == [] ||
    (var n := |es| - 1;
     var x, y := SessionLaws.Run(s, es[..n]), SessionLaws.Run(t, fs[..n]);
     && Lockstep(b, s, t, es[..n], fs[..n])
     && es[n].draw == fs[n].draw && OpTwins(b, x, y, es[n].op, fs[n].op)
     && Discreet(x.room == y.room && es[n].op == fs[n].op, x.room, Advance(x, es[n]).room))
  }

  /** Non-interference over whole runs: joins, leaves, drops, resumes, timers and drains
      interleaved as they may be, whatever B hides reaches nobody else. */
  lemma {:induction false} RunsStayTwins(b: PlayerId, s: State, t: State, es: seq<Event>, fs: seq<Event>, used: Issued)
    requires |fs| == |es| && Lockstep(b, s, t, es, fs)
    requires SessionLaws.Inv(s, used) && SessionLaws.FreshRun(used, es) && Twins(b, s, t)
    ensures Twins(b, SessionLaws.Run(s, es), SessionLaws.Run(t, fs))
  {
    hide SessionLaws.Inv, Twins, OpTwins, Discreet, Enabled, SessionLaws.Step;
    if es != [] {
      var n := |es| - 1;
      RunsStayTwins(b, s, t, es[..n], fs[..n], used);
      SessionLaws.RunKeepsInv(s, es[..n], used);
      var x, y := SessionLaws.Run(s, es[..n]), SessionLaws.Run(t, fs[..n]);
      EnabledTwins(b, x, y, es[n].op, fs[n].op);
      if Enabled(x, es[n].op) {
        RoomInv(x, SessionLaws.SpendAll(used, es[..n]));
        StepTwins(b, x, y, es[n].op, fs[n].op, es[n].draw, SessionLaws.SpendAll(used, es[..n]));
      }
    }
  }

  lemma RoomInv(s: State, used: Issued)
    requires SessionLaws.Inv(s, used)
    ensures RoomLaws.Inv(s.room, s.registry, used)
  {
  }

  lemma TwinOfItself(b: PlayerId, s: State)
    ensures Twins(b, s, s)
  {
  }

  /** From one session, two such runs send every connection that never attached as B
      exactly the same messages, in the same order. */
  lemma NobodyElseLearns(b: PlayerId, s: State, es: seq<Event>, fs: seq<Event>, used: Issued, c: Conn)
    requires |fs| == |es| && Lockstep(b, s, s, es, fs)
    requires SessionLaws.Inv(s, used) && SessionLaws.FreshRun(used, es)
    requires forall d :: d in Log(SessionLaws.Run(s, es), c) ==> d.to != Some(Seat(b))
    ensures Log(SessionLaws.Run(s, fs), c) == Log(SessionLaws.Run(s, es), c)
  {
    hide SessionLaws.Inv, Lockstep, SessionLaws.Run, RoomTwins;
    TwinOfItself(b, s);
    RunsStayTwins(b, s, s, es, fs, used);
    LogIs(b, SessionLaws.Run(s, es), SessionLaws.Run(s, fs), c);
  }
}
