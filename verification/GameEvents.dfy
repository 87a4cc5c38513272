/** Event conventions every game shares: packages/core/src/eventShapes.ts, the guards of
    packages/games/src/eventGuard.ts, and the forfeit rule of packages/games/src/roster.ts. */
module GameEvents {
  import opened Collections
  import opened Values

  /** `Result<State, GameError>`; Unchanged is an `ok` holding the very same state object. */
  datatype GameResult<+S> = Next(state: S) | Unchanged | Rejected(code: string)

  function After<S>(before: S, r: GameResult<S>): S {
    if r.Next? then r.state else before
  }

  predicate HasType(e: Json, name: string) {
    Field(e, "type") == Some(Str(name))
  }

  predicate IsAdvance(e: Json) {
    HasType(e, "advance")
  }

  predicate IsRosterType(e: Json) {
    HasType(e, "playerJoined") || HasType(e, "playerLeft")
  }

  /** The roster facts the room writes into a running game. */
  function PlayerJoined(p: Player): Json {
    Obj(map["type" := Str("playerJoined"),
            "player" := Obj(map["id" := Str(p.id), "nickname" := Str(p.nickname),
                                "joinedDuringGame" := Bool(p.joinedDuringGame),
                                "spectator" := Bool(p.spectator)])])
  }

  function PlayerLeft(id: PlayerId): Json {
    Obj(map["type" := Str("playerLeft"), "id" := Str(id)])
  }

  predicate IsBool(j: Option<Json>) {
    j.Some? && j.value.Bool?
  }

  /** eventGuard.ts `isRosterEvent` for a playerJoined. */
  predicate IsJoinFact(e: Json) {
    match Field(e, "player")
    case Some(player) =>
      && StrField(player, "id").Some? && StrField(player, "nickname").Some?
      && IsBool(Field(player, "joinedDuringGame")) && IsBool(Field(player, "spectator"))
    case None => false
  }

  /** roster.ts `departed`: whether a leaver is recorded, and the record after. */
  predicate Departs(roster: seq<PlayerId>, left: seq<PlayerId>, id: PlayerId) {
    id in roster && id !in left
  }

  /** The seats still in the round: the roster without those who left. */
  function Remaining(roster: seq<PlayerId>, left: seq<PlayerId>): (r: seq<PlayerId>)
    ensures forall id :: id in r <==> id in roster && id !in left
  {
    Keep(roster, (id: PlayerId) => id !in left)
  }

  /** `left.filter((id) => !acted.includes(id)).length`: leavers nobody waits for. */
  function Gone(left: seq<PlayerId>, acted: seq<PlayerId>): nat {
    |Keep(left, (id: PlayerId) => id !in acted)|
  }

  /** The progress a view shows: how many acted, and out of how many. It is complete
      exactly when everyone still in the round has acted. */
  lemma ProgressCounts(roster: seq<PlayerId>, left: seq<PlayerId>, acted: seq<PlayerId>)
    requires Distinct(roster) && Distinct(left) && Distinct(acted)
    requires Elements(left) <= Elements(roster) && Elements(acted) <= Elements(roster)
    ensures |acted| <= |roster| - Gone(left, acted)
    ensures |acted| == |roster| - Gone(left, acted)
      <==> forall id :: id in roster && id !in left ==> id in acted
  {
    var idle := Keep(left, (id: PlayerId) => id !in acted);
    KeepDistinct(left, (id: PlayerId) => id !in acted);
    DistinctSize(roster);
    DistinctSize(acted);
    DistinctSize(idle);
    var settled := Elements(acted) + Elements(idle);
    assert |settled| == |acted| + |idle|;
    assert settled <= Elements(roster);
    SubsetSize(settled, Elements(roster));
    if |acted| + |idle| == |roster| {
      forall id | id in roster && id !in left ensures id in acted {
        assert id in settled;
      }
    }
    if forall id :: id in roster && id !in left ==> id in acted {
      assert settled == Elements(roster);
    }
  }
}
