/** Whose points a leaver parks and who takes them up again: the tally and the ledger,
    entry by entry, at every event and over runs. */
module ParkedScores {
  import opened Collections
  import opened Values
  import opened GameEvents
  import opened Rounds
  import opened Rooms
  import opened RoomLaws
  import ScoreKeeping
  import Games
  import Identity

  /** The slot of the ledger a nickname as typed stands for. */
  function SlotOf(nickname: string): string {
    Lower(NormaliseNickname(nickname))
  }

  /** A join seats a newcomer exactly when the nickname has something visible in it, no
      token resumes a seat and the room has a place. */
  lemma JoinIsTaken(room: Room, nickname: string, token: Option<Token>, registry: Games.Registry, draw: Draw)
    ensures OnJoin(room, nickname, token, registry, draw).Changed? <==>
      && NormaliseNickname(nickname) != ""
      && (token.Some? ==> PlayerIdForToken(room, token.value).None?)
      && |room.players| < 50
  {
    hide Seated, PlayerIdForToken, NormaliseNickname;
  }

  /** A newcomer is seated last, playing only if no round runs, with a token of their own;
      they take up the score parked under their nickname, and nothing else on the tally or
      in the ledger moves. */
  lemma JoinTakesUp(room: Room, nickname: string, token: Option<Token>, registry: Games.Registry, draw: Draw)
    requires OnJoin(room, nickname, token, registry, draw).Changed?
    ensures var after := OnJoin(room, nickname, token, registry, draw).room;
      var slot := SlotOf(nickname);
      var late := room.phase == InGame;
      && after.players == room.players + [Player(draw.id, NormaliseNickname(nickname), late, late)]
      && after.tokens.vals == room.tokens.vals[draw.id := draw.secret]
      && (slot in room.scoreLedger.vals ==>
            && after.sessionScores.vals == room.sessionScores.vals[draw.id := room.scoreLedger.vals[slot]]
            && after.scoreLedger.vals == room.scoreLedger.vals - {slot})
      && (slot !in room.scoreLedger.vals ==>
            after.sessionScores == room.sessionScores && after.scoreLedger == room.scoreLedger)
  {
    hide ForwardRoster, PlayerIdForToken;
  }

  lemma {:induction false} FindPlayerAt(players: seq<Player>, i: nat)
    requires DistinctIds(players) && i < |players|
    ensures FindPlayer(players, players[i].id) == Some(players[i])
  {
    if i != 0 {
      assert players[0].id != players[i].id;
      FindPlayerAt(players[1..], i - 1);
    }
  }

  /** A leaver's score is parked under their nickname, over one parked there before, and
      leaves the tally; nothing else on either moves. */
  lemma LeaveParks(room: Room, i: nat, registry: Games.Registry, used: Issued)
    requires Identities(room, used) && i < |room.players|
    ensures var p := room.players[i];
      var after := Without(room, p.id, registry);
      && after.sessionScores.vals == room.sessionScores.vals - {p.id}
      && (p.id in room.sessionScores.vals ==>
            after.scoreLedger.vals == room.scoreLedger.vals[Lower(p.nickname) := room.sessionScores.vals[p.id]])
      && (p.id !in room.sessionScores.vals ==> after.scoreLedger == room.scoreLedger)
      && after.tokens.vals == room.tokens.vals - {p.id}
      && (forall q :: q in after.players <==> q in room.players && q.id != p.id)
  {
    FindPlayerAt(room.players, i);
    hide ForwardRoster, FindPlayer, DistinctIds, Ids, Injective;
  }

  // ------------------------------------------------------------- over runs

  /** The steps that may touch a slot: an accepted join under it, a leave of a player it
      stands for, an accepted selection. */
  ghost predicate Touches(room: Room, step: Step, registry: Games.Registry, slot: string) {
    match step.event
    case Join(nickname, token) =>
      SlotOf(nickname) == slot && OnJoin(room, nickname, token, registry, step.draw).Changed?
    case Leave => exists p :: p in room.players && step.actor == Seat(p.id) && Lower(p.nickname) == slot
    case SelectGame(id) => OnSelectGame(room, id, step.actor, registry).Changed?
    case _ => false
  }

  ghost predicate Untouched(room: Room, steps: seq<Step>, registry: Games.Registry, slot: string) {
    steps != [] ==>
      var front := steps[..|steps| - 1];
      Untouched(room, front, registry, slot) && !Touches(Run(room, front, registry), steps[|steps| - 1], registry, slot)
  }

  function Parked(room: Room, slot: string): Option<int> {
    if slot in room.scoreLedger.vals then Some(room.scoreLedger.vals[slot]) else None
  }

  /** Any other event keeps what is parked there. */
  lemma SlotKept(room: Room, step: Step, registry: Games.Registry, used: Issued, slot: string)
    requires Inv(room, registry, used) && !Touches(room, step, registry, slot)
    ensures Parked(Take(room, step, registry), slot) == Parked(room, slot)
  {
    hide OnJoin, OnLeave, OnStartGame, OnGameEvent, OnEndGame, SameBlob, Coupled, Played;
    match step.event
    case Join(nickname, token) => JoinKeepsSlot(room, nickname, token, registry, step.draw, slot);
    case Leave =>
      match step.actor {
        case Host => BoardLeaves(room, registry);
        case Seat(id) => LeaveKeepsSlot(room, id, registry, used, slot);
      }
    case SelectGame(_) =>
    case ConfigureGame(_) =>
    case StartGame => StartMoves(room, step.actor, registry, step.draw);
    case GameEvent(e) => PlayMoves(room, e, registry);
    case EndGame => EndMoves(room, step.actor, registry);
  }

  lemma JoinKeepsSlot(room: Room, nickname: string, token: Option<Token>, registry: Games.Registry, draw: Draw, slot: string)
    requires OnJoin(room, nickname, token, registry, draw).Changed? ==> SlotOf(nickname) != slot
    ensures Parked(Becomes(room, OnJoin(room, nickname, token, registry, draw)), slot) == Parked(room, slot)
  {
    hide OnJoin;
    if OnJoin(room, nickname, token, registry, draw).Changed? {
      JoinTakesUp(room, nickname, token, registry, draw);
    }
  }

  lemma BoardLeaves(room: Room, registry: Games.Registry)
    ensures OnLeave(room, Host, registry) == Changed(room.(closed := true))
  {
  }

  lemma LeaveKeepsSlot(room: Room, id: PlayerId, registry: Games.Registry, used: Issued, slot: string)
    requires Identities(room, used)
    requires forall p :: p in room.players && p.id == id ==> Lower(p.nickname) != slot
    ensures OnLeave(room, Seat(id), registry).Changed?
    ensures Parked(Without(room, id, registry), slot) == Parked(room, slot)
  {
    ScoreKeeping.FindPlayerFinds(room.players, id);
    hide ForwardRoster, FindPlayer, Ids, DistinctIds, Injective;
  }

  lemma {:induction false} RunKeepsSlot(room: Room, steps: seq<Step>, registry: Games.Registry, used: Issued, slot: string)
    requires Inv(room, registry, used) && FreshRun(used, steps) && Untouched(room, steps, registry, slot)
    ensures Parked(Run(room, steps, registry), slot) == Parked(room, slot)
  {
    hide Inv, Take, Touches, Parked;
    if steps != [] {
      var front, last := steps[..|steps| - 1], steps[|steps| - 1];
      RunKeepsSlot(room, front, registry, used, slot);
      RunKeepsInv(room, front, registry, used);
      SlotKept(Run(room, front, registry), last, registry, SpendAll(used, front), slot);
    }
  }

  /** Who leaves with points and joins again under a nickname that is the same up to case
      gets exactly those points, under their new id, as long as nobody else left or joined
      under it and no game was selected in between. */
  lemma TheReturnedGetTheirPointsBack(
      room: Room, i: nat, leaving: Draw, steps: seq<Step>, nickname: string, token: Option<Token>, draw: Draw,
      registry: Games.Registry, used: Issued)
    requires Inv(room, registry, used) && i < |room.players| && room.players[i].id in room.sessionScores.vals
    requires SlotOf(nickname) == Lower(room.players[i].nickname)
    requires Fresh(used, leaving) && FreshRun(Spend(used, leaving), steps)
    requires var after := Take(room, Step(Leave, Seat(room.players[i].id), leaving), registry);
      && Untouched(after, steps, registry, SlotOf(nickname))
      && OnJoin(Run(after, steps, registry), nickname, token, registry, draw).Changed?
    ensures var after := Take(room, Step(Leave, Seat(room.players[i].id), leaving), registry);
      var back := OnJoin(Run(after, steps, registry), nickname, token, registry, draw).room;
      && draw.id in back.sessionScores.vals
      && back.sessionScores.vals[draw.id] == room.sessionScores.vals[room.players[i].id]
      && SlotOf(nickname) !in back.scoreLedger.vals
  {
    hide Inv, Run, Take, OnJoin, Touches, Untouched, SlotOf;
    var p, leave := room.players[i], Step(Leave, Seat(room.players[i].id), leaving);
    var after := Take(room, leave, registry);
    LeaverIsParked(room, i, leaving, registry, used);
    TakeKeepsInv(room, leave, registry, used);
    RunKeepsSlot(after, steps, registry, Spend(used, leaving), SlotOf(nickname));
    JoinTakesUp(Run(after, steps, registry), nickname, token, registry, draw);
  }

  lemma LeaverIsParked(room: Room, i: nat, leaving: Draw, registry: Games.Registry, used: Issued)
    requires Inv(room, registry, used) && i < |room.players| && room.players[i].id in room.sessionScores.vals
    ensures var p := room.players[i];
      Parked(Take(room, Step(Leave, Seat(p.id), leaving), registry), Lower(p.nickname)) == Some(room.sessionScores.vals[p.id])
  {
    LeaveParks(room, i, registry, used);
    hide Coupled, Played, Identities, ForwardRoster, FindPlayer;
  }
}
