/** "A set is the session": between resets the rounds walk the question set in order. */
module QuestionWalk {
  import opened Collections
  import opened Values
  import opened GameEvents
  import opened Rounds
  import opened Rooms
  import opened RoomLaws
  import opened ScoreKeeping
  import Games
  import GamesLaws
  import Prompts

  /** Steps that start a session over: an accepted selection, a changed question set. */
  predicate Resets(room: Room, step: Step, registry: Games.Registry) {
    (step.event.SelectGame? || step.event.ConfigureGame?)
    && Reduce(room, step.event, step.actor, registry, step.draw).Changed?
  }

  predicate ResetFree(room: Room, steps: seq<Step>, registry: Games.Registry) {
    if steps == [] then true
    else
      var front := steps[..|steps| - 1];
      ResetFree(room, front, registry) && !Resets(Run(room, front, registry), steps[|steps| - 1], registry)
  }

  /** The questions asked along a run: the prompt of every round it starts. */
  function Asked(room: Room, steps: seq<Step>, registry: Games.Registry): seq<string> {
    if steps == [] then []
    else
      var front, last := steps[..|steps| - 1], steps[|steps| - 1];
      var before := Run(room, front, registry);
      Asked(room, front, registry) +
      if Starts(before, last, registry) then [Games.PromptOf(Take(before, last, registry).gameState)] else []
  }

  function Bank(g: Games.AnyGame, config: Option<Json>): seq<string> {
    Prompts.Bank(config, Games.Builtin(g))
  }

  lemma StartAsksNext(room: Room, step: Step, registry: Games.Registry, used: Issued, g: Games.AnyGame)
    requires Inv(room, registry, used) && ActiveGame(room, registry) == Some(g) && g.counted
    requires Starts(room, step, registry)
    ensures var after := Take(room, step, registry);
      && room.round < |Bank(g, room.gameConfig)|
      && after.round == room.round + 1
      && Games.PromptOf(after.gameState) == Bank(g, room.gameConfig)[room.round]
      && after.gameConfig == room.gameConfig && ActiveGame(after, registry) == Some(g)
  {
    SeatsAreTheRoster(room.players, Capacity(g), room.round + 1);
    var active := Keep(SeatWindow(room.players, Capacity(g), room.round + 1), Active);
    GamesLaws.InitLaws(g, active, room.round + 1, step.draw.random, room.gameConfig);
    hide SeatWindow, Games.Init, GamesLaws.Inv, Coupled, Played, Active, Prompts.Bank, PlayingIds, Games.IsComplete;
  }

  lemma OtherStepsKeepPlace(room: Room, step: Step, registry: Games.Registry)
    requires !Starts(room, step, registry) && !Resets(room, step, registry)
    ensures var after := Take(room, step, registry);
      && after.round == room.round && after.gameConfig == room.gameConfig
      && ActiveGame(after, registry) == ActiveGame(room, registry)
  {
    hide OnJoin, OnLeave, OnStartGame, OnGameEvent, OnEndGame;
    match step.event
    case Join(_, _) => RosterMoves(room, step, registry);
    case Leave => RosterMoves(room, step, registry);
    case SelectGame(_) =>
    case ConfigureGame(_) =>
    case StartGame =>
    case GameEvent(e) => PlayMoves(room, e, registry);
    case EndGame => EndMoves(room, step.actor, registry);
  }

  lemma StepWalksOn(room: Room, step: Step, registry: Games.Registry, used: Issued, g: Games.AnyGame)
    requires Inv(room, registry, used) && !Resets(room, step, registry)
    requires ActiveGame(room, registry) == Some(g) && g.counted
    ensures var after := Take(room, step, registry);
      && after.gameConfig == room.gameConfig && ActiveGame(after, registry) == Some(g)
      && if Starts(room, step, registry)
         then room.round < |Bank(g, room.gameConfig)| && after.round == room.round + 1
              && Games.PromptOf(after.gameState) == Bank(g, room.gameConfig)[room.round]
         else after.round == room.round
  {
    hide Take, Inv, Starts, Resets, Bank;
    if Starts(room, step, registry) {
      StartAsksNext(room, step, registry, used, g);
    } else {
      OtherStepsKeepPlace(room, step, registry);
    }
  }

  /** Along a run without resets the round count goes up by one at every start and never
      passes the bank. */
  lemma {:induction false} RoundsCountStarts(
      room: Room, steps: seq<Step>, registry: Games.Registry, used: Issued, g: Games.AnyGame)
    requires Inv(room, registry, used) && FreshRun(used, steps) && ResetFree(room, steps, registry)
    requires ActiveGame(room, registry) == Some(g) && g.counted
    requires room.round <= |Bank(g, room.gameConfig)|
    ensures var after := Run(room, steps, registry);
      && after.gameConfig == room.gameConfig && ActiveGame(after, registry) == Some(g)
      && room.round <= after.round <= |Bank(g, room.gameConfig)|
      && CountStarts(room, steps, registry) == after.round - room.round
  {
    hide Take, Starts, Resets, Inv, Bank, ActiveGame;
    if steps != [] {
      var front, last := steps[..|steps| - 1], steps[|steps| - 1];
      RoundsCountStarts(room, front, registry, used, g);
      RunKeepsInv(room, front, registry, used);
      StepWalksOn(Run(room, front, registry), last, registry, SpendAll(used, front), g);
    }
  }

  /** ... and the rounds ask exactly the entries of the bank between the round count
      before and after: in order, none skipped, none repeated, and never the fallback. */
  lemma {:induction false} RoundsWalkTheBank(
      room: Room, steps: seq<Step>, registry: Games.Registry, used: Issued, g: Games.AnyGame)
    requires Inv(room, registry, used) && FreshRun(used, steps) && ResetFree(room, steps, registry)
    requires ActiveGame(room, registry) == Some(g) && g.counted
    requires room.round <= |Bank(g, room.gameConfig)|
    ensures room.round <= Run(room, steps, registry).round <= |Bank(g, room.gameConfig)|
    ensures Asked(room, steps, registry)
      == Bank(g, room.gameConfig)[room.round..Run(room, steps, registry).round]
  {
    hide Take, Starts, Resets, Inv, Bank, ActiveGame, CountStarts;
    RoundsCountStarts(room, steps, registry, used, g);
    if steps != [] {
      var front, last := steps[..|steps| - 1], steps[|steps| - 1];
      RoundsWalkTheBank(room, front, registry, used, g);
      RoundsCountStarts(room, front, registry, used, g);
      RunKeepsInv(room, front, registry, used);
      StepWalksOn(Run(room, front, registry), last, registry, SpendAll(used, front), g);
      var bank, k := Bank(g, room.gameConfig), Run(room, front, registry).round;
      if Starts(Run(room, front, registry), last, registry) {
        assert bank[room.round..k] + [bank[k]] == bank[room.round..k + 1];
      } else {
        assert bank[room.round..k] + [] == bank[room.round..k];
      }
    }
  }

  /** A session asks each of its questions at most once and starts at most as many rounds
      as it has questions. */
  lemma SessionAsksEachOnce(room: Room, steps: seq<Step>, registry: Games.Registry, used: Issued, g: Games.AnyGame)
    requires Inv(room, registry, used) && FreshRun(used, steps) && ResetFree(room, steps, registry)
    requires ActiveGame(room, registry) == Some(g) && g.counted && room.round == 0
    ensures Distinct(Asked(room, steps, registry))
    ensures CountStarts(room, steps, registry) <= |Bank(g, room.gameConfig)|
    ensures Games.RoundCount(g, room.gameConfig) == Some(|Bank(g, room.gameConfig)|)
  {
    RoundsWalkTheBank(room, steps, registry, used, g);
    RoundsCountStarts(room, steps, registry, used, g);
    BuiltinDistinct(g);
    Prompts.BankIsDistinct(room.gameConfig, Games.Builtin(g));
  }

  /** The built-in banks do not repeat a question: their lengths tell them apart. */
  lemma BuiltinDistinct(g: Games.AnyGame)
    ensures Distinct(Games.Builtin(g))
  {
    var bank := Games.Builtin(g);
    var lengths := Map(bank, (t: string) => |t|);
    assert lengths == if g.rules == Games.GuessWhoRules then [45, 47, 56, 57, 58, 41] else [50, 45, 48, 53, 62, 56];
    forall i, j | 0 <= i < j < |bank| ensures bank[i] != bank[j] {
      assert lengths[i] != lengths[j];
    }
  }
}
