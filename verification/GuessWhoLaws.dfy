/** What every round of Guess Who keeps, whatever events reach it. */
module GuessWhoLaws {
  import opened Collections
  import opened Values
  import opened GameEvents
  import opened GuessWho
  import Cards

  function Step(s: State, e: Json): State {
    After(s, Reduce(s, e))
  }

  function Run(s: State, events: seq<Json>): State {
    if events == [] then s else Step(Run(s, events[..|events| - 1]), events[|events| - 1])
  }

  ghost predicate GuessesFit(s: State) {
    forall g, card :: g in s.guesses.vals && card in s.guesses.vals[g].vals ==>
      FindCard(s.cards, card).Some? && FindCard(s.cards, card).value.authorId != g
  }

  ghost predicate Inv(s: State) {
    && Distinct(s.roster) && Distinct(s.skipped) && Distinct(s.left)
    && (forall id :: id in s.skipped ==> id in s.roster)
    && (forall id :: id in s.left ==> id in s.roster)
    && (forall id :: id in s.drafts.vals ==> id in s.roster)
    && (forall id :: id in s.guesses.vals ==> id in s.roster)
    && (s.phase == Collect ==> s.cards == [] && s.guesses.vals == map[])
    && (s.phase != Collect ==> s.cards == BuildCards(s.drafts, s.salt))
    && GuessesFit(s)
  }

  lemma InitInv(active: seq<PlayerId>, round: int, salt: nat, config: Option<Json>)
    requires Distinct(active)
    ensures Inv(Init(active, round, salt, config))
  {
  }

  lemma GuessKeepsFit(s: State, id: PlayerId, cardId: string, author: PlayerId)
    requires GuessesFit(s) && OnGuess(s, id, cardId, author).Next?
    ensures GuessesFit(OnGuess(s, id, cardId, author).state)
  {
    var t := OnGuess(s, id, cardId, author).state;
    forall g, card | g in t.guesses.vals && card in t.guesses.vals[g].vals
      ensures FindCard(t.cards, card).Some? && FindCard(t.cards, card).value.authorId != g
    {
      if g != id || card != cardId {
        assert g in s.guesses.vals && card in s.guesses.vals[g].vals;
      }
    }
  }

  lemma GuessKeepsInv(s: State, id: PlayerId, cardId: string, author: PlayerId)
    requires Inv(s)
    ensures Inv(After(s, OnGuess(s, id, cardId, author)))
  {
    if OnGuess(s, id, cardId, author).Next? {
      GuessKeepsFit(s, id, cardId, author);
      hide GuessesFit, BuildCards, FindCard, Authors;
    }
  }

  lemma SubmitKeepsInv(s: State, id: PlayerId, text: string)
    requires Inv(s)
    ensures Inv(After(s, OnSubmit(s, id, text)))
  {
    hide BuildCards, FindCard;
  }

  lemma SkipKeepsInv(s: State, id: PlayerId)
    requires Inv(s)
    ensures Inv(After(s, OnSkip(s, id)))
  {
    hide BuildCards, FindCard;
  }

  lemma AdvanceKeepsInv(s: State, from: Phase)
    requires Inv(s)
    ensures Inv(After(s, OnAdvance(s, from)))
  {
    hide BuildCards, FindCard;
  }

  lemma LeaveKeepsInv(s: State, id: PlayerId)
    requires Inv(s)
    ensures Inv(After(s, Apply(s, Left(id))))
  {
    hide BuildCards, FindCard;
  }

  lemma StepKeepsInv(s: State, e: Json)
    requires Inv(s)
    ensures Inv(Step(s, e))
  {
    match Decode(e)
    case None =>
    case Some(event) =>
      hide Inv, Decode, OnSubmit, OnSkip, OnAdvance, OnGuess;
      match event
      case Submit(id, text) => SubmitKeepsInv(s, id, text);
      case Skip(id) => SkipKeepsInv(s, id);
      case MakeGuess(id, card, author) => GuessKeepsInv(s, id, card, author);
      case Advance(from) => AdvanceKeepsInv(s, from);
      case Joined =>
      case Left(id) => LeaveKeepsInv(s, id);
  }

  /** No event changes who was seated or the prompt, and only a roster fact says who left. */
  lemma StepKeepsSeats(s: State, e: Json)
    ensures Step(s, e).roster == s.roster && Step(s, e).prompt == s.prompt
    ensures !IsRosterType(e) ==> Step(s, e).left == s.left
  {
    hide BuildCards, FindCard, Authors;
  }

  lemma {:induction false} RunKeepsInv(s: State, events: seq<Json>)
    requires Inv(s)
    ensures Inv(Run(s, events))
  {
    if events != [] {
      RunKeepsInv(s, events[..|events| - 1]);
      StepKeepsInv(Run(s, events[..|events| - 1]), events[|events| - 1]);
    }
  }

  // --------------------------------------------------------------- scoring

  lemma {:induction false} FindCardFinds(cards: seq<AnswerCard>, c: AnswerCard)
    requires Cards.DistinctCardIds(cards) && c in cards
    ensures FindCard(cards, c.id) == Some(c)
  {
    if cards[0] != c {
      var i :| 0 <= i < |cards| && cards[i] == c;
      assert cards[1..][i - 1] == c;
      FindCardFinds(cards[1..], c);
    }
  }

  /** A player scores at most one point for every card somebody else wrote, and only
      players still in the round are on the tally, each once. */
  lemma TallyIsBounded(s: State)
    requires Inv(s)
    ensures forall score :: score in Tally(s) ==>
      && 0 <= score.points <= |Keep(s.cards, (c: AnswerCard) => c.authorId != score.playerId)|
      && score.playerId in s.roster && score.playerId !in s.left
    ensures Distinct(Map(Tally(s), (score: Score) => score.playerId))
  {
    var there := Remaining(s.roster, s.left);
    KeepDistinct(s.roster, (id: PlayerId) => id !in s.left);
    assert Map(Tally(s), (score: Score) => score.playerId) == there;
    forall score | score in Tally(s)
      ensures 0 <= score.points <= |Keep(s.cards, (c: AnswerCard) => c.authorId != score.playerId)|
      ensures score.playerId in s.roster && score.playerId !in s.left
    {
      var i :| 0 <= i < |there| && Tally(s)[i] == score;
      var id := there[i];
      var mine := MyGuesses(s, id);
      Cards.CardsAreTheDrafts(s.drafts, s.salt);
      forall c | c in s.cards && RightGuess(mine, c) ensures c.authorId != id {
        FindCardFinds(s.cards, c);
      }
      KeepFewer(s.cards, (c: AnswerCard) => RightGuess(mine, c),
                (c: AnswerCard) => c.authorId != id);
    }
  }

  /** What a player named for each card. */
  function Names(s: State, id: PlayerId): map<string, PlayerId> {
    if id in s.guesses.vals then s.guesses.vals[id].vals else map[]
  }

  /** A player named the writer of a draft for the card that draft became. */
  ghost predicate NamedWriter(s: State, id: PlayerId, writer: PlayerId) {
    exists k :: 0 <= k < |s.cards| && s.cards[k].authorId == writer
      && s.cards[k].id in Names(s, id) && Names(s, id)[s.cards[k].id] == writer
  }

  ghost function WritersNamed(s: State, id: PlayerId): set<PlayerId> {
    set w | w in s.drafts.vals && NamedWriter(s, id, w)
  }

  lemma {:induction false} DistinctImage(ks: set<int>, cards: seq<AnswerCard>)
    requires forall k :: k in ks ==> 0 <= k < |cards|
    requires forall i, j :: i in ks && j in ks && cards[i].authorId == cards[j].authorId ==> i == j
    ensures |set k | k in ks :: cards[k].authorId| == |ks|
    decreases ks
  {
    var image := set k | k in ks :: cards[k].authorId;
    if exists k :: k in ks {
      var k :| k in ks;
      DistinctImage(ks - {k}, cards);
      assert image == (set j | j in ks - {k} :: cards[j].authorId) + {cards[k].authorId};
    } else {
      assert ks == {} && image == {};
    }
  }

  lemma ScoreIsCorrect(s: State, score: Score)
    requires score in Tally(s)
    ensures score.points == |RightlyNamed(Names(s, score.playerId), s.cards)|
  {
    var there := Remaining(s.roster, s.left);
    var i :| 0 <= i < |there| && Tally(s)[i] == score;
    CorrectIsRightlyNamed(MyGuesses(s, there[i]), s.cards, |s.cards|);
    assert s.cards[..|s.cards|] == s.cards;
    assert MyGuesses(s, there[i]).vals == Names(s, there[i]);
  }

  lemma WritersOfCards(s: State)
    requires Inv(s)
    ensures forall i, j :: 0 <= i < |s.cards| && 0 <= j < |s.cards| && s.cards[i].authorId == s.cards[j].authorId ==> i == j
    ensures forall k :: 0 <= k < |s.cards| ==> s.cards[k].authorId in s.drafts.vals
  {
    hide BuildCards, GuessesFit;
    if s.phase != Collect {
      Cards.CardsAreTheDrafts(s.drafts, s.salt);
      Cards.OneCardEach(s.drafts, s.salt);
      var authors := Map(s.cards, Cards.AuthorOf);
      assert forall k :: 0 <= k < |s.cards| ==> authors[k] == s.cards[k].authorId && s.cards[k] in s.cards;
    }
  }

  lemma NamedWritersAre(s: State, id: PlayerId)
    requires forall k :: 0 <= k < |s.cards| ==> s.cards[k].authorId in s.drafts.vals
    ensures WritersNamed(s, id) == set k | k in RightlyNamed(Names(s, id), s.cards) :: s.cards[k].authorId
  {
    hide Names;
    var ks := RightlyNamed(Names(s, id), s.cards);
    forall w ensures w in WritersNamed(s, id) <==> w in (set k | k in ks :: s.cards[k].authorId) {
      if w in WritersNamed(s, id) {
        var k :| 0 <= k < |s.cards| && s.cards[k].authorId == w
          && s.cards[k].id in Names(s, id) && Names(s, id)[s.cards[k].id] == w;
        assert k in ks;
      }
      if w in (set k | k in ks :: s.cards[k].authorId) {
        var k :| k in ks && s.cards[k].authorId == w;
        assert NamedWriter(s, id, w);
      }
    }
  }

  /** Each draft is one card, so the rightly named cards are as many as their writers. */
  lemma RightCardsAreWriters(s: State, id: PlayerId)
    requires Inv(s)
    ensures |RightlyNamed(Names(s, id), s.cards)| == |WritersNamed(s, id)|
  {
    WritersOfCards(s);
    NamedWritersAre(s, id);
    hide Inv, Names, WritersNamed;
    DistinctImage(RightlyNamed(Names(s, id), s.cards), s.cards);
  }

  lemma NobodyNamesThemselves(s: State, id: PlayerId)
    requires Inv(s)
    ensures id !in WritersNamed(s, id)
  {
    hide BuildCards, FindCard;
    Cards.CardsAreTheDrafts(s.drafts, s.salt);
    if id in WritersNamed(s, id) {
      var k :| 0 <= k < |s.cards| && s.cards[k].authorId == id
        && s.cards[k].id in Names(s, id) && Names(s, id)[s.cards[k].id] == id;
      FindCardFinds(s.cards, s.cards[k]);
      assert false;
    }
  }

  /** A player's points are the cards they named the author of, which are as many as the
      drafts of others whose card they gave to its writer: full marks exactly for naming
      every other writer, none exactly for naming no writer. */
  lemma PointsAreRightGuesses(s: State, score: Score)
    requires Inv(s) && score in Tally(s)
    ensures var id := score.playerId;
      && score.points == |set k | 0 <= k < |s.cards| && id in s.guesses.vals
                                  && s.cards[k].id in s.guesses.vals[id].vals
                                  && s.guesses.vals[id].vals[s.cards[k].id] == s.cards[k].authorId|
      && score.points == |WritersNamed(s, id)| && id !in WritersNamed(s, id)
      && (score.points == |s.drafts.vals.Keys - {id}|
          <==> forall w :: w in s.drafts.vals && w != id ==> NamedWriter(s, id, w))
      && (score.points == 0 <==> forall w :: w in s.drafts.vals ==> !NamedWriter(s, id, w))
  {
    hide Tally, Inv, NamedWriter;
    var id := score.playerId;
    ScoreIsCorrect(s, score);
    RightCardsAreWriters(s, id);
    NobodyNamesThemselves(s, id);
    assert RightlyNamed(Names(s, id), s.cards) ==
      set k | 0 <= k < |s.cards| && id in s.guesses.vals && s.cards[k].id in s.guesses.vals[id].vals
              && s.guesses.vals[id].vals[s.cards[k].id] == s.cards[k].authorId;
    SubsetSize(WritersNamed(s, id), s.drafts.vals.Keys - {id});
    if score.points == 0 {
      forall w | w in s.drafts.vals ensures !NamedWriter(s, id, w) {
        assert w !in WritersNamed(s, id);
      }
    } else {
      var w :| w in WritersNamed(s, id);
    }
    if score.points == |s.drafts.vals.Keys - {id}| {
      forall w | w in s.drafts.vals && w != id ensures NamedWriter(s, id, w) {
        assert w in s.drafts.vals.Keys - {id};
      }
    } else {
      assert WritersNamed(s, id) != s.drafts.vals.Keys - {id};
    }
  }

  // -------------------------------------------------------------- progress

  /** In collect the count every screen shows never exceeds its total, and reaches it
      exactly when everyone still in the round has answered or skipped; the board names
      exactly those who have. */
  lemma CollectProgress(s: State, viewer: Viewer)
    requires Inv(s) && s.phase == Collect
    ensures var v := ViewFor(s, viewer);
      && v.submittedCount <= v.total
      && (v.submittedCount == v.total
          <==> forall id :: id in s.roster && id !in s.left ==> id in s.drafts.vals || id in s.skipped)
      && (v.CollectBoard? ==>
            && Distinct(v.submitted) && |v.submitted| == v.submittedCount
            && forall id :: id in v.submitted <==> id in s.drafts.vals || id in s.skipped)
  {
    var resolved := Resolved(s);
    DedupeDistinct(s.drafts.keys + s.skipped);
    assert forall id :: id in resolved <==> id in s.drafts.vals || id in s.skipped;
    ProgressCounts(s.roster, s.left, resolved);
  }

  lemma {:induction false} OwnCardIs(cards: seq<AnswerCard>, id: PlayerId)
    ensures OwnCard(cards, id).Some? <==> exists c :: c in cards && c.authorId == id
    ensures OwnCard(cards, id).Some? ==> exists c :: c in cards && c.authorId == id && c.id == OwnCard(cards, id).value
  {
    if cards != [] {
      OwnCardIs(cards[1..], id);
      assert cards == [cards[0]] + cards[1..];
      assert cards[0] in cards;
    }
  }

  /** On a phone `yourCardId` names the card with the text its player wrote, and is there
      exactly when they wrote one. */
  lemma YourCardIsYours(s: State, id: PlayerId)
    requires Inv(s) && s.phase == Guess
    ensures var own := ViewFor(s, Seat(id)).yourCardId;
      && (own.Some? <==> id in s.drafts.vals)
      && (own.Some? ==> PublicCard(own.value, s.drafts.vals[id]) in ViewFor(s, Seat(id)).cards)
  {
    hide OwnCard, BuildCards, Published, GuessesFit, Authors, MyGuesses;
    OwnCardIs(s.cards, id);
    Cards.CardsAreTheDrafts(s.drafts, s.salt);
    if id in s.drafts.vals {
      var c :| c in s.cards && c.authorId == id && c.id == OwnCard(s.cards, id).value;
      CardIsPublished(s.cards, c);
    }
  }

  lemma CardIsPublished(cards: seq<AnswerCard>, c: AnswerCard)
    requires c in cards
    ensures PublicCard(c.id, c.text) in Published(cards)
  {
    var i :| 0 <= i < |cards| && cards[i] == c;
    assert Published(cards)[i] == PublicCard(c.id, c.text);
  }

  function PhaseRank(p: Phase): int {
    match p case Collect => 0 case Guess => 1 case Reveal => 2
  }

  lemma {:induction false} RunOnlyMovesForward(s: State, events: seq<Json>)
    ensures PhaseRank(Run(s, events).phase) >= PhaseRank(s.phase)
  {
    if events != [] {
      RunOnlyMovesForward(s, events[..|events| - 1]);
      hide BuildCards, Decode, FindCard, Authors;
    }
  }

  lemma StepKeepsResolved(s: State, e: Json)
    requires Step(s, e).phase == Collect
    ensures forall id :: id in Resolved(s) ==> id in Resolved(Step(s, e))
  {
    hide BuildCards, Decode, FindCard, Authors;
  }

  /** While a round stays in collect its count of resolved players never falls. */
  lemma {:induction false} CollectCountNeverFalls(s: State, events: seq<Json>)
    requires Run(s, events).phase == Collect
    ensures |Resolved(s)| <= |Resolved(Run(s, events))|
    ensures forall id :: id in Resolved(s) ==> id in Resolved(Run(s, events))
  {
    if events != [] {
      var front, e := events[..|events| - 1], events[|events| - 1];
      var mid := Run(s, front);
      RunOnlyMovesForward(mid, [e]);
      assert [e][..0] == [] && Run(mid, []) == mid;
      CollectCountNeverFalls(s, front);
      StepKeepsResolved(mid, e);
    }
    DedupeDistinct(s.drafts.keys + s.skipped);
    DedupeDistinct(Run(s, events).drafts.keys + Run(s, events).skipped);
    DistinctSize(Resolved(s));
    DistinctSize(Resolved(Run(s, events)));
    SubsetSize(Elements(Resolved(s)), Elements(Resolved(Run(s, events))));
  }

  // --------------------------------------------------- advance once only

  /** Once an advance has been applied, any later copy of it in the round does nothing. */
  lemma RepeatedAdvance(s: State, e: Json, events: seq<Json>)
    requires IsAdvance(e) && Reduce(s, e).Next?
    ensures Reduce(Run(Step(s, e), events), e) == Unchanged
  {
    hide BuildCards, FindCard, Authors, Run, OnSubmit, OnSkip, OnGuess, StrField;
    RunOnlyMovesForward(Step(s, e), events);
  }

  // --------------------------------------------------------- own entry only

  /** t differs from s at most in what the player id wrote. */
  ghost predicate OnlyOwnEntry(id: PlayerId, s: State, t: State) {
    && t == s.(drafts := t.drafts, skipped := t.skipped, guesses := t.guesses)
    && t.drafts.vals - {id} == s.drafts.vals - {id}
    && t.guesses.vals - {id} == s.guesses.vals - {id}
    && (forall p :: p != id ==> (p in t.skipped <==> p in s.skipped))
  }

  lemma OwnDraft(s: State, id: PlayerId, text: string)
    ensures OnlyOwnEntry(id, s, After(s, OnSubmit(s, id, text)))
  {
  }

  lemma OwnSkip(s: State, id: PlayerId)
    ensures OnlyOwnEntry(id, s, After(s, OnSkip(s, id)))
  {
  }

  lemma OwnGuesses(s: State, id: PlayerId, card: string, author: PlayerId)
    ensures OnlyOwnEntry(id, s, After(s, OnGuess(s, id, card, author)))
  {
    hide FindCard, Authors, MyGuesses;
  }

  /** An event carrying a player's id, other than an advance or a roster fact, touches
      that player's draft, skip and guesses only. */
  lemma StepTouchesOwnEntry(s: State, e: Json, id: PlayerId)
    requires Field(e, "playerId") == Some(Str(id))
    requires !IsAdvance(e) && !IsRosterType(e)
    ensures OnlyOwnEntry(id, s, Step(s, e))
  {
    hide OnSubmit, OnSkip, OnGuess, OnAdvance;
    match Decode(e)
    case Some(Submit(_, text)) => OwnDraft(s, id, text);
    case Some(Skip(_)) => OwnSkip(s, id);
    case Some(MakeGuess(_, card, author)) => OwnGuesses(s, id, card, author);
    case _ =>
  }

  // ------------------------------------------------------- non-interference

  /** Two states that differ at most in what B is still hiding: the text of B's draft in
      collect, the authors B named in guess. */
  ghost predicate SameButHidden(b: PlayerId, s: State, t: State) {
    && t == s.(drafts := t.drafts, guesses := t.guesses)
    && (s.phase != Collect ==> t.drafts == s.drafts)
    && (s.phase != Guess ==> t.guesses == s.guesses)
    && t.drafts.keys == s.drafts.keys
    && (forall p :: p != b && p in s.drafts.vals ==> t.drafts.vals[p] == s.drafts.vals[p])
    && t.guesses.keys == s.guesses.keys
    && (forall p :: p != b && p in s.guesses.vals ==> t.guesses.vals[p] == s.guesses.vals[p])
    && (b in s.guesses.vals ==> t.guesses.vals[b].keys == s.guesses.vals[b].keys)
  }

  /** Two events that differ at most in what B hides in the given phase. */
  ghost predicate HiddenVariant(b: PlayerId, phase: Phase, e: Json, f: Json) {
    match (Decode(e), Decode(f))
    case (Some(Submit(p, _)), Some(Submit(q, _))) => phase == Collect && p == b == q
    case (Some(MakeGuess(p, c, _)), Some(MakeGuess(q, d, _))) => phase == Guess && p == b == q && c == d
    case _ => false
  }

  lemma SameEventKeepsHidden(b: PlayerId, s: State, t: State, e: Event)
    requires SameButHidden(b, s, t) && s.phase != Reveal
    requires After(s, Apply(s, e)).phase == s.phase
    ensures Apply(s, e).Next? <==> Apply(t, e).Next?
    ensures !Apply(s, e).Next? ==> Apply(t, e) == Apply(s, e)
    ensures SameButHidden(b, After(s, Apply(s, e)), After(t, Apply(t, e)))
  {
    hide BuildCards, FindCard, Authors;
    AuthorsSame(s, t);
    match e
    case Submit(_, _) =>
    case Skip(_) =>
    case MakeGuess(id, card, author) => SameGuess(b, s, t, id, card, author);
    case Advance(_) =>
    case Joined =>
    case Left(_) =>
  }

  lemma SameGuess(b: PlayerId, s: State, t: State, id: PlayerId, card: string, author: PlayerId)
    requires SameButHidden(b, s, t)
    ensures OnGuess(s, id, card, author).Next? <==> OnGuess(t, id, card, author).Next?
    ensures !OnGuess(s, id, card, author).Next? ==> OnGuess(t, id, card, author) == OnGuess(s, id, card, author)
    ensures SameButHidden(b, After(s, OnGuess(s, id, card, author)), After(t, OnGuess(t, id, card, author)))
  {
    hide BuildCards, FindCard, Authors, Put, WellKeyed;
    AuthorsSame(s, t);
    var mine, mine' := MyGuesses(s, id), MyGuesses(t, id);
    PutSameKeys(s.guesses, t.guesses, id, Put(mine, card, author), Put(mine', card, author));
    PutSameKeys(mine, mine', card, author, author);
  }

  lemma VariantSubmit(b: PlayerId, s: State, t: State, text: string, text': string)
    requires SameButHidden(b, s, t)
    requires OnSubmit(s, b, text).Next? && OnSubmit(t, b, text').Next?
    ensures SameButHidden(b, OnSubmit(s, b, text).state, OnSubmit(t, b, text').state)
  {
    assert b in s.drafts.vals <==> b in s.drafts.keys;
    assert b in t.drafts.vals <==> b in t.drafts.keys;
  }

  lemma VariantGuess(b: PlayerId, s: State, t: State, card: string, author: PlayerId, author': PlayerId)
    requires SameButHidden(b, s, t)
    requires OnGuess(s, b, card, author).Next? && OnGuess(t, b, card, author').Next?
    ensures SameButHidden(b, OnGuess(s, b, card, author).state, OnGuess(t, b, card, author').state)
  {
    hide FindCard, Authors, Put, WellKeyed;
    var mine, mine' := MyGuesses(s, b), MyGuesses(t, b);
    PutSameKeys(s.guesses, t.guesses, b, Put(mine, card, author), Put(mine', card, author'));
    PutSameKeys(mine, mine', card, author, author');
  }

  /** The two runs stay in step: the same event has the same outcome, an accepted variant
      is accepted in both, and what is hidden stays all that differs. */
  lemma StepKeepsHidden(b: PlayerId, s: State, t: State, e: Json, f: Json)
    requires SameButHidden(b, s, t) && s.phase != Reveal
    requires e == f || (HiddenVariant(b, s.phase, e, f) && Reduce(s, e).Next? && Reduce(t, f).Next?)
    requires Step(s, e).phase == s.phase
    ensures Reduce(s, e).Next? <==> Reduce(t, f).Next?
    ensures !Reduce(s, e).Next? ==> Reduce(t, f) == Reduce(s, e)
    ensures SameButHidden(b, Step(s, e), Step(t, f))
  {
    hide SameButHidden, OnSubmit, OnSkip, OnGuess, OnAdvance, Decode;
    if e == f {
      if Decode(e).Some? {
        SameEventKeepsHidden(b, s, t, Decode(e).value);
      }
    } else {
      match (Decode(e).value, Decode(f).value) {
        case (Submit(_, text), Submit(_, text')) => VariantSubmit(b, s, t, text, text');
        case (MakeGuess(_, card, author), MakeGuess(_, _, author')) => VariantGuess(b, s, t, card, author, author');
      }
    }
  }

  lemma AuthorsSame(s: State, t: State)
    requires t.cards == s.cards && t.roster == s.roster && t.left == s.left
    ensures Authors(t) == Authors(s)
  {
  }

  /** Nobody but B can see what B hides. */
  lemma ViewHides(b: PlayerId, s: State, t: State, viewer: Viewer)
    requires SameButHidden(b, s, t) && s.phase != Reveal && viewer != Seat(b)
    ensures ViewFor(t, viewer) == ViewFor(s, viewer)
  {
    AuthorsSame(s, t);
    hide Authors;
    assert viewer.Seat? ==> (viewer.id in s.drafts.vals <==> viewer.id in s.drafts.keys);
    assert viewer.Seat? ==> (viewer.id in s.guesses.vals <==> viewer.id in s.guesses.keys);
  }
}
