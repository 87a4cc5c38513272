/** What the screens show, said of the room itself: what a viewer may read on a frame, view
    by view, and that at rest every attached connection's last frame reads so. */
module Screens {
  import opened Collections
  import opened Values
  import opened GameEvents
  import opened Protocol
  import opened Session
  import opened SessionLaws
  import opened RoomLaws
  import opened Rounds
  import Rooms
  import Games
  import GamesLaws
  import GuessWho
  import GuessWhoLaws
  import GuessWhoRecords
  import MostLikelyTo
  import MostLikelyToLaws
  import Identity
  import Prompts
  import Cards

  // ---------------------------------------------------- what may be read there

  /** The list names exactly these players, each once. */
  ghost predicate Lists(xs: seq<PlayerId>, who: set<PlayerId>) {
    Distinct(xs) && Elements(xs) == who
  }

  /** What a player has earned in the round: the cards given to their author, or the
      players who voted for them. */
  ghost function Earned(state: Games.GameState, id: PlayerId): nat {
    match state
    case NoState => 0
    case GuessState(s) =>
      |set k | 0 <= k < |s.cards| && id in s.guesses.vals && s.cards[k].id in s.guesses.vals[id].vals
               && s.guesses.vals[id].vals[s.cards[k].id] == s.cards[k].authorId|
    case VoteState(s) => |set v | v in s.votes.vals && s.votes.vals[v] == id|
  }

  /** The list gives each of these players, once, what they earned. */
  ghost predicate Marks(scores: seq<Score>, state: Games.GameState, who: set<PlayerId>) {
    && Lists(Map(scores, (score: Score) => score.playerId), who)
    && forall score :: score in scores ==> score.points == Earned(state, score.playerId)
  }

  /** Out of how many a screen counts: everybody seated but those who left without acting. */
  function Expected(roster: seq<PlayerId>, left: seq<PlayerId>, acted: set<PlayerId>): int {
    |Elements(roster)| - |Elements(left) - acted|
  }

  function Answered(s: GuessWho.State): set<PlayerId> {
    s.drafts.vals.Keys + Elements(s.skipped)
  }

  /** Those a card may be given to. */
  function Writers(s: GuessWho.State): set<PlayerId> {
    set id | id in s.roster && (id in s.left ==> id in s.drafts.vals)
  }

  /** The cards in order, without their authors. */
  ghost predicate Bare(shown: seq<GuessWho.PublicCard>, cards: seq<GuessWho.AnswerCard>) {
    |shown| == |cards| && forall i :: 0 <= i < |cards| ==> shown[i] == GuessWho.PublicCard(cards[i].id, cards[i].text)
  }

  ghost predicate IsCardOf(card: Option<string>, s: GuessWho.State, id: PlayerId) {
    && (card.Some? <==> id in s.drafts.vals)
    && (card.Some? ==> exists k :: 0 <= k < |s.cards| && s.cards[k].id == card.value && s.cards[k].authorId == id)
  }

  ghost predicate CollectScreen(v: GuessWho.View, s: GuessWho.State, viewer: Viewer) {
    && (v.CollectBoard? || v.CollectPhone?) && (v.CollectBoard? <==> viewer == Host)
    && v.submittedCount == |Answered(s)| && v.total == Expected(s.roster, s.left, Answered(s))
    && match viewer
       case Host => Lists(v.submitted, Answered(s))
       case Seat(id) => (v.youSubmitted <==> id in s.drafts.vals) && (v.youSkipped <==> id in s.skipped)
  }

  ghost predicate GuessScreen(v: GuessWho.View, s: GuessWho.State, viewer: Viewer) {
    && (v.GuessBoard? || v.GuessPhone?) && (v.GuessBoard? <==> viewer == Host)
    && Bare(v.cards, s.cards) && Lists(v.candidates, Writers(s))
    && match viewer
       case Host => Lists(v.guessed, s.guesses.vals.Keys)
       case Seat(id) => v.myGuesses.vals == GuessWhoLaws.Names(s, id) && IsCardOf(v.yourCardId, s, id)
  }

  ghost predicate RevealScreen(v: GuessWho.View, s: GuessWho.State, viewer: Viewer) {
    && (v.RevealBoard? || v.RevealPhone?) && (v.RevealBoard? <==> viewer == Host)
    && v.answers == s.cards && Marks(v.scores, Games.GuessState(s), Elements(s.roster) - Elements(s.left))
    && (viewer.Seat? ==> v.myGuesses.vals == GuessWhoLaws.Names(s, viewer.id))
  }

  ghost predicate VoteScreen(v: MostLikelyTo.View, s: MostLikelyTo.State, viewer: Viewer) {
    && (v.VoteBoard? || v.VotePhone?) && (v.VoteBoard? <==> viewer == Host)
    && v.votedCount == |s.votes.vals.Keys| && v.total == Expected(s.roster, s.left, s.votes.vals.Keys)
    && match viewer
       case Host => Lists(v.voted, s.votes.vals.Keys)
       case Seat(id) =>
         && Lists(v.candidates, Elements(s.roster) - Elements(s.left))
         && (v.youVoted <==> id in s.votes.vals)
         && v.yourVote == if id in s.votes.vals then Some(s.votes.vals[id]) else None
  }

  ghost predicate ResultScreen(v: MostLikelyTo.View, s: MostLikelyTo.State) {
    v.Counts? && Marks(v.tally, Games.VoteState(s), Elements(s.roster) - Elements(s.left))
  }

  /** What a viewer sees of a round. */
  ghost predicate RoundScreen(v: Games.GameView, state: Games.GameState, viewer: Viewer) {
    match state
    case NoState => v.NoView?
    case GuessState(s) =>
      && v.GuessView? && v.gwView.prompt == s.prompt
      && (match s.phase
          case Collect => CollectScreen(v.gwView, s, viewer)
          case Guess => GuessScreen(v.gwView, s, viewer)
          case Reveal => RevealScreen(v.gwView, s, viewer))
    case VoteState(s) =>
      && v.VoteView? && v.mltView.prompt == s.prompt
      && (if s.phase == MostLikelyTo.Vote then VoteScreen(v.mltView, s, viewer) else ResultScreen(v.mltView, s))
  }

  /** The players of the round who are still in the room. */
  function StillHere(room: Rooms.Room): set<PlayerId> {
    InRound(room.gameState) * Ids(room.players)
  }

  /** How many rounds the session has, by the questions of the selected game's set. */
  function SessionLength(room: Rooms.Room, registry: Games.Registry): nat {
    if room.selectedGameId.Some? && room.selectedGameId.value in registry && registry[room.selectedGameId.value].counted
    then |Prompts.Bank(room.gameConfig, Games.Builtin(registry[room.selectedGameId.value]))| else 0
  }

  /** What a viewer sees of a room. */
  ghost predicate RoomScreen(f: Frame, room: Rooms.Room, registry: Games.Registry, viewer: Viewer) {
    && f.code == room.code && f.phase == room.phase && f.selectedGameId == room.selectedGameId && f.round == room.round
    && f.roundsTotal == SessionLength(room, registry)
    && |f.players| == |room.players|
    && (forall i :: 0 <= i < |f.players| ==>
          f.players[i] == PublicPlayer(room.players[i].id, room.players[i].nickname, room.players[i].spectator))
    && |f.sessionScores| == |room.sessionScores.keys|
    && (forall i :: 0 <= i < |f.sessionScores| ==>
          var id := room.sessionScores.keys[i];
          f.sessionScores[i] == Score(id, room.sessionScores.vals[id]))
    && (room.phase == Rooms.Lobby ==> f.gameView == Games.NoView)
    && (room.phase != Rooms.Lobby ==> RoundScreen(f.gameView, room.gameState, viewer))
    && (f.scores.Some? <==> room.phase == Rooms.ShowScores)
    && (f.scores.Some? ==> Marks(f.scores.value, room.gameState, StillHere(room)))
  }

  // --------------------------------------------------------- the games' views

  lemma GoneIs(left: seq<PlayerId>, acted: seq<PlayerId>)
    requires Distinct(left)
    ensures Gone(left, acted) == |Elements(left) - Elements(acted)|
  {
    var idle := Keep(left, (id: PlayerId) => id !in acted);
    KeepDistinct(left, (id: PlayerId) => id !in acted);
    DistinctSize(idle);
    assert Elements(idle) == Elements(left) - Elements(acted);
  }

  lemma CollectShows(s: GuessWho.State, viewer: Viewer)
    requires GuessWhoLaws.Inv(s) && s.phase == GuessWho.Collect
    ensures CollectScreen(GuessWho.ViewFor(s, viewer), s, viewer)
  {
    ResolvedAre(s);
    hide GuessWho.Resolved, Answered, Expected, Gone, Lists, GuessWhoLaws.Inv;
  }

  lemma ResolvedAre(s: GuessWho.State)
    requires GuessWhoLaws.Inv(s)
    ensures var resolved := GuessWho.Resolved(s);
      && Lists(resolved, Answered(s)) && |resolved| == |Answered(s)|
      && |s.roster| - Gone(s.left, resolved) == Expected(s.roster, s.left, Answered(s))
  {
    hide GuessWho.BuildCards, GuessWhoLaws.GuessesFit, Gone, Dedupe;
    var resolved := GuessWho.Resolved(s);
    DedupeDistinct(s.drafts.keys + s.skipped);
    AnsweredAre(s);
    DistinctSize(resolved);
    DistinctSize(s.roster);
    GoneIs(s.left, resolved);
  }

  lemma AnsweredAre(s: GuessWho.State)
    ensures Elements(GuessWho.Resolved(s)) == Answered(s)
  {
    hide Dedupe;
    forall id ensures id in Elements(GuessWho.Resolved(s)) <==> id in Answered(s) {
      assert id in GuessWho.Resolved(s) <==> id in s.drafts.keys || id in s.skipped;
    }
  }

  lemma CandidatesAre(s: GuessWho.State)
    requires GuessWhoLaws.Inv(s) && s.phase == GuessWho.Guess
    ensures Lists(GuessWho.Authors(s), Writers(s))
  {
    hide GuessWho.BuildCards, GuessWhoLaws.Inv;
    AuthorsDistinct(s);
    forall id ensures id in Elements(GuessWho.Authors(s)) <==> id in Writers(s) {
      GuessWhoRecords.AuthorsAre(s, id);
    }
  }

  lemma AuthorsDistinct(s: GuessWho.State)
    requires GuessWhoLaws.Inv(s)
    ensures Distinct(GuessWho.Authors(s))
  {
    hide GuessWho.BuildCards, GuessWho.FindCard;
    var wrote := set c | c in s.cards :: c.authorId;
    KeepDistinct(s.roster, (id: PlayerId) => id !in s.left || id in wrote);
  }

  lemma OwnCardShows(s: GuessWho.State, id: PlayerId)
    requires GuessWhoLaws.Inv(s) && s.phase == GuessWho.Guess
    ensures IsCardOf(GuessWho.OwnCard(s.cards, id), s, id)
  {
    hide GuessWho.BuildCards, GuessWho.OwnCard, GuessWho.FindCard;
    GuessWhoLaws.OwnCardIs(s.cards, id);
    Cards.CardsAreTheDrafts(s.drafts, s.salt);
    if id in s.drafts.vals {
      var c :| c in s.cards && c.authorId == id && c.id == GuessWho.OwnCard(s.cards, id).value;
      var k :| 0 <= k < |s.cards| && s.cards[k] == c;
    }
  }

  lemma GuessShows(s: GuessWho.State, viewer: Viewer)
    requires GuessWhoLaws.Inv(s) && s.phase == GuessWho.Guess
    ensures GuessScreen(GuessWho.ViewFor(s, viewer), s, viewer)
  {
    hide GuessWhoLaws.Inv, GuessWho.BuildCards, GuessWho.OwnCard, GuessWho.Authors, Writers, IsCardOf, Elements;
    CandidatesAre(s);
    if viewer.Seat? {
      OwnCardShows(s, viewer.id);
    } else {
      KeysAreListed(s.guesses.keys, s.guesses.vals.Keys);
    }
  }

  lemma KeysAreListed(keys: seq<PlayerId>, all: set<PlayerId>)
    requires Distinct(keys) && forall id :: id in keys <==> id in all
    ensures Lists(keys, all) && |keys| == |all|
  {
    DistinctSize(keys);
    assert Elements(keys) == all;
  }

  lemma RemainingIs(roster: seq<PlayerId>, left: seq<PlayerId>)
    requires Distinct(roster)
    ensures Lists(Remaining(roster, left), Elements(roster) - Elements(left))
  {
    KeepDistinct(roster, (id: PlayerId) => id !in left);
  }

  lemma GuessTallyMarks(s: GuessWho.State)
    requires GuessWhoLaws.Inv(s)
    ensures Marks(GuessWho.Tally(s), Games.GuessState(s), Elements(s.roster) - Elements(s.left))
  {
    var ids := Map(GuessWho.Tally(s), (score: Score) => score.playerId);
    assert ids == Remaining(s.roster, s.left);
    RemainingIs(s.roster, s.left);
    hide GuessWho.Tally, GuessWhoLaws.Inv, Lists;
    forall score | score in GuessWho.Tally(s) ensures score.points == Earned(Games.GuessState(s), score.playerId) {
      GuessWhoLaws.PointsAreRightGuesses(s, score);
    }
  }

  lemma VoteTallyMarks(s: MostLikelyTo.State)
    requires MostLikelyToLaws.Inv(s)
    ensures Marks(MostLikelyTo.Tally(s), Games.VoteState(s), Elements(s.roster) - Elements(s.left))
  {
    MostLikelyToLaws.TallyIsTheCandidates(s);
    RemainingIs(s.roster, s.left);
    hide MostLikelyTo.Tally, MostLikelyToLaws.Inv, Lists;
    forall score | score in MostLikelyTo.Tally(s) ensures score.points == Earned(Games.VoteState(s), score.playerId) {
      MostLikelyToLaws.PointsAreVoters(s, score);
      assert MostLikelyToLaws.VotersFor(s.votes.keys, s.votes.vals, score.playerId)
        == set v | v in s.votes.vals && s.votes.vals[v] == score.playerId;
    }
  }

  lemma VoteShows(s: MostLikelyTo.State, viewer: Viewer)
    requires MostLikelyToLaws.Inv(s) && s.phase == MostLikelyTo.Vote
    ensures VoteScreen(MostLikelyTo.ViewFor(s, viewer), s, viewer)
  {
    hide VoteScreen, MostLikelyTo.VoteView;
    match viewer
    case Host => VoteBoardShows(s);
    case Seat(id) => VotePhoneShows(s, id);
  }

  lemma VoteBoardShows(s: MostLikelyTo.State)
    requires MostLikelyToLaws.Inv(s)
    ensures VoteScreen(MostLikelyTo.VoteView(s, Host), s, Host)
  {
    VotersAre(s);
    hide Lists, Gone, Expected, Elements, MostLikelyToLaws.Inv, WellKeyed;
  }

  lemma VotePhoneShows(s: MostLikelyTo.State, id: PlayerId)
    requires MostLikelyToLaws.Inv(s)
    ensures VoteScreen(MostLikelyTo.VoteView(s, Seat(id)), s, Seat(id))
  {
    hide Lists, Gone, Expected, MostLikelyToLaws.Inv, MostLikelyTo.Candidates;
    VotersAre(s);
    TargetsAre(s);
    KeyIsListed(s.votes, id);
    hide WellKeyed, Elements;
  }

  lemma TargetsAre(s: MostLikelyTo.State)
    requires MostLikelyToLaws.Inv(s)
    ensures Lists(MostLikelyTo.Candidates(s), Elements(s.roster) - Elements(s.left))
  {
    RemainingIs(s.roster, s.left);
    hide Lists, Elements;
  }

  lemma KeyIsListed(r: Record<PlayerId>, id: PlayerId)
    ensures id in r.keys <==> id in r.vals
  {
  }

  lemma VotersAre(s: MostLikelyTo.State)
    requires MostLikelyToLaws.Inv(s)
    ensures Lists(s.votes.keys, s.votes.vals.Keys) && |s.votes.keys| == |s.votes.vals.Keys|
    ensures |s.roster| - Gone(s.left, s.votes.keys) == Expected(s.roster, s.left, s.votes.vals.Keys)
  {
    hide Gone;
    KeysAreListed(s.votes.keys, s.votes.vals.Keys);
    DistinctSize(s.roster);
    GoneIs(s.left, s.votes.keys);
  }

  /** Each viewer is shown their own view of the round. */
  lemma RoundShows(game: Games.AnyGame, state: Games.GameState, viewer: Viewer)
    requires Games.BuiltBy(game, state) && GamesLaws.Inv(state)
    ensures RoundScreen(Games.View(game, state, viewer), state, viewer)
  {
    hide CollectScreen, GuessScreen, VoteScreen, Marks, GuessWhoLaws.Inv, MostLikelyToLaws.Inv;
    match state
    case GuessState(s) =>
      GuessTallyMarks(s);
      match s.phase {
        case Collect => CollectShows(s, viewer);
        case Guess => GuessShows(s, viewer);
        case Reveal =>
      }
    case VoteState(s) =>
      VoteTallyMarks(s);
      if s.phase == MostLikelyTo.Vote {
        VoteShows(s, viewer);
      }
  }

  // ------------------------------------------------------------- the frame

  lemma {:induction false} KeptScores(scores: seq<Score>, seated: set<PlayerId>)
    requires Distinct(Map(scores, (score: Score) => score.playerId))
    ensures var kept := Keep(scores, (score: Score) => score.playerId in seated);
      Distinct(Map(kept, (score: Score) => score.playerId))
  {
    var p := (score: Score) => score.playerId in seated;
    if scores != [] {
      var front, last := scores[..|scores| - 1], scores[|scores| - 1];
      assert scores == front + [last];
      LastIsAlone(scores);
      KeptScores(front, seated);
      KeepAppend(front, last, p);
      assert forall score :: score in Keep(front, p) ==> score in front;
    }
  }

  /** Kept to the players in the room, a round's scores mark exactly those of the round. */
  lemma SeatedMarks(scores: seq<Score>, state: Games.GameState, who: set<PlayerId>, seated: set<PlayerId>)
    requires Marks(scores, state, who)
    ensures Marks(Keep(scores, (score: Score) => score.playerId in seated), state, who * seated)
  {
    hide Earned, Keep;
    var kept := Keep(scores, (score: Score) => score.playerId in seated);
    KeptScores(scores, seated);
    var ids, all := Map(kept, (score: Score) => score.playerId), Map(scores, (score: Score) => score.playerId);
    NamesAreScored(kept);
    NamesAreScored(scores);
    assert Scored(kept) == Scored(scores) * seated;
  }

  lemma NamesAreScored(scores: seq<Score>)
    ensures Elements(Map(scores, (score: Score) => score.playerId)) == Scored(scores)
  {
    var ids := Map(scores, (score: Score) => score.playerId);
    forall x ensures x in Scored(scores) <==> x in Elements(ids) {
      if x in Elements(ids) {
        var i :| 0 <= i < |ids| && ids[i] == x;
        assert scores[i] in scores;
      }
      if x in Scored(scores) {
        var score :| score in scores && score.playerId == x;
        var i :| 0 <= i < |scores| && scores[i] == score;
        assert ids[i] == x;
      }
    }
  }

  lemma TallyMarks(game: Games.AnyGame, state: Games.GameState)
    requires Games.BuiltBy(game, state) && GamesLaws.Inv(state)
    ensures Marks(Games.Scores(game, state), state, InRound(state))
  {
    hide Marks, GuessWhoLaws.Inv, MostLikelyToLaws.Inv;
    assert InRound(state) == Elements(Games.RosterOf(state)) - Elements(Games.LeftOf(state));
    match state
    case GuessState(s) => GuessTallyMarks(s);
    case VoteState(s) => VoteTallyMarks(s);
  }

  lemma ScoresShown(room: Rooms.Room, registry: Games.Registry, used: Issued)
    requires RoomLaws.Inv(room, registry, used) && room.phase != Rooms.Lobby
    ensures var game := Rooms.ActiveGame(room, registry).value;
      Marks(Rooms.RoundScores(room.players, room.gameState, game), room.gameState, StillHere(room))
  {
    var game := Rooms.ActiveGame(room, registry).value;
    TallyMarks(game, room.gameState);
    SeatedMarks(Games.Scores(game, room.gameState), room.gameState, InRound(room.gameState), Ids(room.players));
    hide Marks, RoomLaws.Inv;
  }

  lemma LengthIs(room: Rooms.Room, registry: Games.Registry)
    ensures RoundsTotal(room, registry) == SessionLength(room, registry)
  {
    hide Prompts.Bank;
  }

  lemma GameShown(room: Rooms.Room, registry: Games.Registry, viewer: Viewer, used: Issued)
    requires RoomLaws.Inv(room, registry, used)
    ensures var game := GameFor(room, registry, viewer);
      && (room.phase == Rooms.Lobby ==> game.0 == Games.NoView)
      && (room.phase != Rooms.Lobby ==> RoundScreen(game.0, room.gameState, viewer))
      && (game.1.Some? <==> room.phase == Rooms.ShowScores)
      && (game.1.Some? ==> Marks(game.1.value, room.gameState, StillHere(room)))
  {
    hide Marks, RoundScreen, Identities, StillHere, Games.View, Rooms.RoundScores;
    if room.phase != Rooms.Lobby {
      ScoresShown(room, registry, used);
      PlayedRound(room, registry, used);
      RoundShows(Rooms.ActiveGame(room, registry).value, room.gameState, viewer);
    }
  }

  lemma PlayedRound(room: Rooms.Room, registry: Games.Registry, used: Issued)
    requires RoomLaws.Inv(room, registry, used) && room.phase != Rooms.Lobby
    ensures Rooms.ActiveGame(room, registry).Some? && !room.gameState.NoState?
    ensures Games.BuiltBy(Rooms.ActiveGame(room, registry).value, room.gameState) && GamesLaws.Inv(room.gameState)
  {
  }

  lemma FrameShows(room: Rooms.Room, registry: Games.Registry, viewer: Viewer, used: Issued)
    requires RoomLaws.Inv(room, registry, used)
    ensures RoomScreen(FrameFor(room, registry, viewer), room, registry, viewer)
  {
    hide RoomLaws.Inv, Marks, RoundScreen, StillHere, GameFor, RoundsTotal, SessionLength;
    GameShown(room, registry, viewer, used);
    LengthIs(room, registry);
  }

  // ----------------------------------------------------------- the sessions

  /** Over every run of a session: whenever no broadcast is due in an open room, the last
      frame each attached connection got shows the room as it is, to the viewer the
      connection is: the board's own screens, or the phone's with that player's entries. */
  lemma EveryScreenIsTrue(s: State, events: seq<Event>, used: Issued, c: Conn)
    requires SessionLaws.Inv(s, used) && SessionLaws.FreshRun(used, events)
    requires var t := SessionLaws.Run(s, events); !t.pendingBroadcast && !t.room.closed && c in t.members
    ensures var t := SessionLaws.Run(s, events);
      var last := LastFrame(Log(t, c));
      && last.Some? && last.value.to == Some(t.members[c]) && last.value.message.FrameMessage?
      && RoomScreen(last.value.message.frame, t.room, t.registry, t.members[c])
  {
    var t := SessionLaws.Run(s, events);
    SessionLaws.RunKeepsInv(s, events, used);
    RestIsTrue(t, SessionLaws.SpendAll(used, events), c);
  }

  lemma RestIsTrue(s: State, used: Issued, c: Conn)
    requires SessionLaws.Inv(s, used) && !s.pendingBroadcast && !s.room.closed && c in s.members
    ensures var last := LastFrame(Log(s, c));
      && last.Some? && last.value.to == Some(s.members[c]) && last.value.message.FrameMessage?
      && RoomScreen(last.value.message.frame, s.room, s.registry, s.members[c])
  {
    FrameShows(s.room, s.registry, s.members[c], used);
    hide RoomLaws.Inv, SeatsHeld, BoardHeld, TimersMatch, FrameFor, RoomScreen, LastFrame;
  }

  /** A drain of an open room sends every attached connection one frame that shows the room,
      to that viewer; of a closed one, the end of the room. Nobody else is sent anything. */
  lemma ADrainShowsTheRoom(s: State, used: Issued, c: Conn)
    requires SessionLaws.Inv(s, used)
    ensures c !in s.members ==> Log(Session.Drain(s), c) == Log(s, c)
    ensures c in s.members && s.room.closed ==>
      Log(Session.Drain(s), c) == Log(s, c) + [Delivery(None, Error(s.room.code, Some("ROOM_CLOSED")))]
    ensures c in s.members && !s.room.closed ==>
      var log := Log(Session.Drain(s), c);
      && |log| == |Log(s, c)| + 1 && log[..|Log(s, c)|] == Log(s, c)
      && log[|log| - 1].to == Some(s.members[c]) && log[|log| - 1].message.FrameMessage?
      && RoomScreen(log[|log| - 1].message.frame, s.room, s.registry, s.members[c])
  {
    hide SessionLaws.Inv, RoomScreen, FrameFor, Session.Drain;
    DrainSends(s, c);
    if c in s.members {
      RoomIsWhole(s, used);
      FrameShows(s.room, s.registry, s.members[c], used);
    }
  }

  lemma RoomIsWhole(s: State, used: Issued)
    requires SessionLaws.Inv(s, used)
    ensures RoomLaws.Inv(s.room, s.registry, used)
  {
  }

  lemma DrainSends(s: State, c: Conn)
    ensures Log(Session.Drain(s), c) == Log(s, c) +
      if c !in s.members then []
      else if s.room.closed then [Delivery(None, Error(s.room.code, Some("ROOM_CLOSED")))]
      else [Delivery(Some(s.members[c]), FrameMessage(FrameFor(s.room, s.registry, s.members[c])))]
  {
    hide FrameFor;
  }

  // ------------------------------------------------------ scores are what is folded

  lemma {:induction false} GainOfOther(scores: seq<Score>, id: PlayerId)
    requires forall score :: score in scores ==> score.playerId != id
    ensures Gain(scores, id) == 0
  {
    if scores != [] {
      GainOfOther(scores[..|scores| - 1], id);
    }
  }

  lemma {:induction false} GainIsEarned(scores: seq<Score>, state: Games.GameState, id: PlayerId)
    requires Distinct(Map(scores, (score: Score) => score.playerId))
    requires forall score :: score in scores ==> score.points == Earned(state, score.playerId)
    ensures Gain(scores, id)
      == if exists score :: score in scores && score.playerId == id then Earned(state, id) as int else 0
  {
    hide Earned, Keep;
    if scores != [] {
      var front, last := scores[..|scores| - 1], scores[|scores| - 1];
      LastIsAlone(scores);
      GainIsEarned(front, state, id);
      assert scores == front + [last];
      if last.playerId == id {
        GainOfOther(front, id);
        assert last in scores;
      }
    }
  }

  lemma LastIsAlone(scores: seq<Score>)
    requires scores != [] && Distinct(Map(scores, (score: Score) => score.playerId))
    ensures var front, last := scores[..|scores| - 1], scores[|scores| - 1];
      && Distinct(Map(front, (score: Score) => score.playerId))
      && forall score :: score in front ==> score.playerId != last.playerId && score in scores
  {
    var front, last := scores[..|scores| - 1], scores[|scores| - 1];
    var ids := Map(scores, (score: Score) => score.playerId);
    assert ids[..|front|] == Map(front, (score: Score) => score.playerId);
    forall score | score in front ensures score.playerId != last.playerId && score in scores {
      var i :| 0 <= i < |front| && front[i] == score;
      assert ids[i] == score.playerId && ids[|front|] == last.playerId;
    }
  }

  lemma FoldIsEarned(base: Record<int>, scores: seq<Score>, state: Games.GameState, who: set<PlayerId>, id: PlayerId)
    requires Marks(scores, state, who)
    ensures At(Fold(base, scores), id) == At(base, id) + if id in who then Earned(state, id) else 0
    ensures Fold(base, scores).vals.Keys == base.vals.Keys + who
  {
    hide Earned, Fold;
    FoldAddsExactly(base, scores);
    GainIsEarned(scores, state, id);
    NamesAreScored(scores);
    assert (exists score :: score in scores && score.playerId == id) <==> id in Scored(scores);
  }

  /** When a round ends, each of its players' entries on the tally grows by exactly what
      the scores screen then shows for them, and nobody else's moves. */
  lemma WhatIsShownIsFolded(room: Rooms.Room, step: RoomLaws.Step, registry: Games.Registry, used: Issued, id: PlayerId)
    requires RoomLaws.Inv(room, registry, used) && RoomLaws.Fresh(used, step.draw)
    requires room.phase == Rooms.InGame && Take(room, step, registry).phase == Rooms.ShowScores
    ensures var after := Take(room, step, registry);
      && At(after.sessionScores, id)
         == At(room.sessionScores, id) + (if id in StillHere(after) then Earned(after.gameState, id) else 0)
      && after.sessionScores.vals.Keys == room.sessionScores.vals.Keys + StillHere(after)
  {
    var after := Take(room, step, registry);
    TakeKeepsInv(room, step, registry, used);
    EndedByFold(room, step, registry);
    ScoresShown(after, registry, Spend(used, step.draw));
    hide RoomLaws.Inv, Take, Marks, Earned, StillHere, Fold, Rooms.RoundScores;
    var game := Rooms.ActiveGame(room, registry).value;
    FoldIsEarned(room.sessionScores, Rooms.RoundScores(after.players, after.gameState, game), after.gameState, StillHere(after), id);
  }

  lemma EndedByFold(room: Rooms.Room, step: RoomLaws.Step, registry: Games.Registry)
    requires room.phase == Rooms.InGame && Take(room, step, registry).phase == Rooms.ShowScores
    ensures var after := Take(room, step, registry);
      && Rooms.ActiveGame(room, registry).Some? && Rooms.ActiveGame(after, registry) == Rooms.ActiveGame(room, registry)
      && after.sessionScores == Fold(room.sessionScores,
           Rooms.RoundScores(after.players, after.gameState, Rooms.ActiveGame(room, registry).value))
  {
    hide Rooms.OnJoin, Rooms.OnLeave, Rooms.OnStartGame, Rooms.OnGameEvent, Rooms.OnEndGame, Fold, Rooms.RoundScores;
    match step.event
    case Join(_, _) => RosterMoves(room, step, registry);
    case Leave => RosterMoves(room, step, registry);
    case SelectGame(_) =>
    case ConfigureGame(_) =>
    case StartGame => StartMoves(room, step.actor, registry, step.draw);
    case GameEvent(e) => PlayMoves(room, e, registry);
    case EndGame => EndMoves(room, step.actor, registry);
  }
}
