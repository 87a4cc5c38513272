/** packages/games/src/mostLikelyTo: everyone votes, then the counts are revealed. */
module MostLikelyTo {
  import opened Collections
  import opened Values
  import opened GameEvents
  import Prompts

  datatype Phase = Vote | Results

  datatype State = State(
    phase: Phase,
    prompt: string,
    roster: seq<PlayerId>,
    votes: Record<PlayerId>,
    left: seq<PlayerId>)

  const PROMPTS: seq<string> := [
    "Who is most likely to survive a zombie apocalypse?",
    "Who is most likely to become internet famous?",
    "Who is most likely to forget their own birthday?",
    "Who is most likely to start a successful side hustle?",
    "Who is most likely to talk their way out of a speeding ticket?",
    "Who is most likely to move to another country on a whim?"]

  function Init(active: seq<PlayerId>, round: int, config: Option<Json>): State {
    State(Vote, Prompts.ChoosePrompt(config, round, PROMPTS), active, Empty(), [])
  }

  datatype Event =
    | CastVote(playerId: PlayerId, target: PlayerId)
    | Advance
    | Joined
    | Left(id: PlayerId)

  /** The shape check and the narrowing it gives; None is MALFORMED_EVENT. */
  function Decode(e: Json): Option<Event> {
    if HasType(e, "vote") then
      match (StrField(e, "playerId"), StrField(e, "target"))
      case (Some(id), Some(target)) => Some(CastVote(id, target))
      case _ => None
    else if HasType(e, "advance") then
      if StrField(e, "from") == Some("vote") then Some(Advance) else None
    else if HasType(e, "playerLeft") then
      match StrField(e, "id")
      case Some(id) => Some(Left(id))
      case None => None
    else if HasType(e, "playerJoined") && IsJoinFact(e) then Some(Joined)
    else None
  }

  function Reduce(s: State, e: Json): GameResult<State> {
    match Decode(e)
    case None => Rejected("MALFORMED_EVENT")
    case Some(event) => Apply(s, event)
  }

  function Apply(s: State, event: Event): GameResult<State> {
    match event
    case CastVote(id, target) => OnVote(s, id, target)
    case Advance => if s.phase != Vote then Unchanged else Next(s.(phase := Results))
    case Joined => Unchanged
    case Left(id) => if Departs(s.roster, s.left, id) then Next(s.(left := s.left + [id])) else Unchanged
  }

  function OnVote(s: State, id: PlayerId, target: PlayerId): GameResult<State> {
    if s.phase != Vote then Rejected("WRONG_PHASE")
    else if id !in s.roster then Rejected("NOT_PLAYING")
    else if target !in s.roster || target in s.left then Rejected("NOT_A_PLAYER")
    else Next(s.(votes := Put(s.votes, id, target)))
  }

  // --------------------------------------------------------------- scoring

  function Candidates(s: State): seq<PlayerId> {
    Remaining(s.roster, s.left)
  }

  /** Object.values(liveVotes(state)): the targets that have not left. */
  function LiveTargets(s: State): seq<PlayerId> {
    Keep(ValueList(s.votes), (target: PlayerId) => target !in s.left)
  }

  function Votes(targets: seq<PlayerId>, id: PlayerId): nat {
    |Keep(targets, (target: PlayerId) => target == id)|
  }

  function Tally(s: State): seq<Score> {
    var targets := LiveTargets(s);
    Map(Candidates(s), (id: PlayerId) => Score(id, Votes(targets, id)))
  }

  // ------------------------------------------------------------------ view

  datatype View =
    | VoteBoard(prompt: string, voted: seq<PlayerId>, votedCount: int, total: int)
    | VotePhone(prompt: string, candidates: seq<PlayerId>, youVoted: bool, yourVote: Option<PlayerId>,
                votedCount: int, total: int)
    | Counts(prompt: string, tally: seq<Score>)

  function ViewFor(s: State, viewer: Viewer): View {
    if s.phase == Vote then VoteView(s, viewer) else Counts(s.prompt, Tally(s))
  }

  function VoteView(s: State, viewer: Viewer): View {
    var voted := s.votes.keys;
    var total := |s.roster| - Gone(s.left, voted);
    match viewer
    case Host => VoteBoard(s.prompt, voted, |voted|, total)
    case Seat(id) =>
      VotePhone(s.prompt, Candidates(s), id in voted,
                if id in s.votes.vals then Some(s.votes.vals[id]) else None, |voted|, total)
  }
}
