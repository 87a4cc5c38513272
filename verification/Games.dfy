/** Games as the room and the registry hold them: packages/core/src/game.ts (`AnyGame`),
    registry.ts, and the two games packages/games/src/index.ts offers. The type of a game's
    state is erased; a state records which game built it, so that "the room never hands a
    state to a game that did not build it" is a statement to be proved. */
module Games {
  import opened Collections
  import opened Values
  import opened GameEvents
  import opened Rounds
  import GuessWho
  import MostLikelyTo
  import Prompts

  datatype Rules = GuessWhoRules | MostLikelyToRules

  /** `counted`: whether the game declares a roundCount. */
  datatype AnyGame = AnyGame(id: GameId, minPlayers: int, maxPlayers: int, rules: Rules, counted: bool)

  datatype GameState = NoState | GuessState(gw: GuessWho.State) | VoteState(mlt: MostLikelyTo.State)

  datatype GameView = NoView | GuessView(gwView: GuessWho.View) | VoteView(mltView: MostLikelyTo.View)

  const GUESS_WHO := AnyGame("guess-who", 3, 12, GuessWhoRules, true)
  const MOST_LIKELY_TO := AnyGame("most-likely-to", 3, 20, MostLikelyToRules, true)

  /** Math.random: a real in [0, 1). */
  type Random = x: real | 0.0 <= x < 1.0 witness 0.0

  predicate BuiltBy(g: AnyGame, s: GameState) {
    match g.rules
    case GuessWhoRules => s.GuessState?
    case MostLikelyToRules => s.VoteState?
  }

  function Builtin(g: AnyGame): (bank: seq<string>)
    ensures bank != []
  {
    match g.rules
    case GuessWhoRules => GuessWho.PROMPTS
    case MostLikelyToRules => MostLikelyTo.PROMPTS
  }

  function Init(g: AnyGame, active: seq<Player>, round: int, random: Random, config: Option<Json>): (s: GameState)
    ensures BuiltBy(g, s)
  {
    var roster := Map(active, IdOf);
    match g.rules
    case GuessWhoRules => GuessState(GuessWho.Init(roster, round, (random * 4294967296.0).Floor, config))
    case MostLikelyToRules => VoteState(MostLikelyTo.Init(roster, round, config))
  }

  function Lift<S>(r: GameResult<S>, wrap: S -> GameState): GameResult<GameState> {
    match r
    case Next(s) => Next(wrap(s))
    case Unchanged => Unchanged
    case Rejected(code) => Rejected(code)
  }

  /** A state of another game would be read with the wrong shape; here that is a refusal
      of its own, which RoomLaws shows is never met. */
  const FOREIGN_STATE := "FOREIGN_STATE"

  function Reduce(g: AnyGame, s: GameState, e: Json): GameResult<GameState> {
    match (g.rules, s)
    case (GuessWhoRules, GuessState(gw)) => Lift(GuessWho.Reduce(gw, e), x => GuessState(x))
    case (MostLikelyToRules, VoteState(mlt)) => Lift(MostLikelyTo.Reduce(mlt, e), x => VoteState(x))
    case _ => Rejected(FOREIGN_STATE)
  }

  function View(g: AnyGame, s: GameState, viewer: Viewer): GameView {
    match (g.rules, s)
    case (GuessWhoRules, GuessState(gw)) => GuessView(GuessWho.ViewFor(gw, viewer))
    case (MostLikelyToRules, VoteState(mlt)) => VoteView(MostLikelyTo.ViewFor(mlt, viewer))
    case _ => NoView
  }

  function Scores(g: AnyGame, s: GameState): seq<Score> {
    match (g.rules, s)
    case (GuessWhoRules, GuessState(gw)) => GuessWho.Tally(gw)
    case (MostLikelyToRules, VoteState(mlt)) => MostLikelyTo.Tally(mlt)
    case _ => []
  }

  predicate IsComplete(g: AnyGame, s: GameState) {
    match (g.rules, s)
    case (GuessWhoRules, GuessState(gw)) => gw.phase == GuessWho.Reveal
    case (MostLikelyToRules, VoteState(mlt)) => mlt.phase == MostLikelyTo.Results
    case _ => false
  }

  function RoundCount(g: AnyGame, config: Option<Json>): Option<nat> {
    if g.counted then Some(Prompts.PromptCount(config, Builtin(g))) else None
  }

  function RosterOf(s: GameState): seq<PlayerId> {
    match s
    case NoState => []
    case GuessState(gw) => gw.roster
    case VoteState(mlt) => mlt.roster
  }

  function LeftOf(s: GameState): seq<PlayerId> {
    match s
    case NoState => []
    case GuessState(gw) => gw.left
    case VoteState(mlt) => mlt.left
  }

  function PromptOf(s: GameState): string {
    match s
    case NoState => ""
    case GuessState(gw) => gw.prompt
    case VoteState(mlt) => mlt.prompt
  }

  // -------------------------------------------------------------- registry

  type Registry = map<GameId, AnyGame>

  predicate InBounds(g: AnyGame) {
    MIN_PLAYERS <= g.minPlayers <= g.maxPlayers <= MAX_PLAYERS
  }

  ghost predicate WellFormed(r: Registry) {
    forall id :: id in r ==> InBounds(r[id])
  }

  predicate LastOfId(games: seq<AnyGame>, i: nat)
    requires i < |games|
  {
    forall j :: i < j < |games| ==> games[j].id != games[i].id
  }

  function Registered(games: seq<AnyGame>): Registry {
    if games == [] then map[]
    else Registered(games[..|games| - 1])[games[|games| - 1].id := games[|games| - 1]]
  }

  lemma IdsAppend(games: seq<AnyGame>, last: AnyGame)
    ensures (set g | g in games + [last] :: g.id) == (set g | g in games :: g.id) + {last.id}
  {
  }

  lemma StillLast(games: seq<AnyGame>, last: AnyGame, i: nat)
    requires i < |games| && LastOfId(games + [last], i)
    ensures LastOfId(games, i) && last.id != games[i].id
  {
    var all := games + [last];
    assert all[i] == games[i] && all[|games|] == last;
    forall j | i < j < |games| ensures games[j].id != games[i].id {
      assert all[j] == games[j];
    }
  }

  /** Every id is registered, to the last game that has it. */
  lemma {:induction false} LaterIdsWin(games: seq<AnyGame>)
    ensures Registered(games).Keys == set g | g in games :: g.id
    ensures forall i :: 0 <= i < |games| && LastOfId(games, i) ==> Registered(games)[games[i].id] == games[i]
  {
    hide LastOfId;
    if games != [] {
      var front, last := games[..|games| - 1], games[|games| - 1];
      LaterIdsWin(front);
      assert games == front + [last];
      IdsAppend(front, last);
      forall i | 0 <= i < |games| && LastOfId(games, i)
        ensures Registered(games)[games[i].id] == games[i]
      {
        if i < |front| {
          StillLast(front, last, i);
        }
      }
    }
  }

  /** Fails (None, a thrown Error in the source) iff some game widens the platform bounds. */
  method CreateRegistry(games: seq<AnyGame>) returns (r: Option<Registry>)
    ensures r == if forall g :: g in games ==> InBounds(g) then Some(Registered(games)) else None
    ensures r.Some? ==> WellFormed(r.value)
  {
    var byId: Registry := map[];
    for k := 0 to |games|
      invariant forall g :: g in games[..k] ==> InBounds(g)
      invariant byId == Registered(games[..k])
      invariant WellFormed(byId)
    {
      var g := games[k];
      assert g in games;
      if g.minPlayers < MIN_PLAYERS || g.maxPlayers > MAX_PLAYERS || g.minPlayers > g.maxPlayers {
        return None;
      }
      assert games[..k + 1] == games[..k] + [g];
      assert games[..k + 1][..k] == games[..k];
      byId := byId[g.id := g];
    }
    assert games[..|games|] == games;
    r := Some(byId);
  }

  /** The games on offer, and the registry a server makes of them. */
  const SHIPPED_GAMES := [GUESS_WHO, MOST_LIKELY_TO]

  const SHIPPED: Registry :=
    map[GUESS_WHO.id := GUESS_WHO, MOST_LIKELY_TO.id := MOST_LIKELY_TO]

  /** Both games on offer stay within the platform's bounds and have ids of their own, so
      creating the registry cannot fail and registers each. */
  lemma ShippedIsRegistered()
    ensures forall g :: g in SHIPPED_GAMES ==> InBounds(g)
    ensures Registered(SHIPPED_GAMES) == SHIPPED
    ensures WellFormed(SHIPPED)
  {
    assert SHIPPED_GAMES[..1] == [GUESS_WHO];
    assert SHIPPED_GAMES[..1][..0] == [];
    assert Registered([GUESS_WHO]) == map[GUESS_WHO.id := GUESS_WHO];
    assert GUESS_WHO.id[0] != MOST_LIKELY_TO.id[0];
  }
}
