/** What a player's event leaves behind in a round of Guess Who, said in the fields of the
    event: when each is taken, what exactly is written, and what therefore stands at the
    end of any run. */
module GuessWhoRecords {
  import opened Collections
  import opened Values
  import opened GameEvents
  import opened GuessWho
  import opened GuessWhoLaws
  import Cards

  // ------------------------------------------------------------- the events

  predicate IsSubmit(e: Json, id: PlayerId, text: string) {
    HasType(e, "submit") && StrField(e, "playerId") == Some(id) && StrField(e, "text") == Some(text)
  }

  predicate IsSkip(e: Json, id: PlayerId) {
    HasType(e, "skip") && StrField(e, "playerId") == Some(id)
  }

  predicate IsGuess(e: Json, id: PlayerId, card: string, author: PlayerId) {
    && HasType(e, "guess") && StrField(e, "playerId") == Some(id)
    && StrField(e, "cardId") == Some(card) && StrField(e, "author") == Some(author)
  }

  // -------------------------------------------------------- when it is taken

  predicate MaySubmit(s: State, id: PlayerId, text: string) {
    s.phase == Collect && id in s.roster && BoundedText(text, 200) != ""
  }

  predicate MaySkip(s: State, id: PlayerId) {
    s.phase == Collect && id in s.roster && id !in s.skipped
  }

  /** A card of somebody else, given to somebody seated who is still there or left an
      answer behind. */
  ghost predicate MayGuess(s: State, id: PlayerId, card: string, author: PlayerId) {
    && s.phase == Guess && id in s.roster
    && (exists k :: 0 <= k < |s.cards| && s.cards[k].id == card && s.cards[k].authorId != id)
    && author in s.roster && (author in s.left ==> author in s.drafts.vals)
  }

  // ---------------------------------------------------------- what it writes

  /** A submit is taken exactly when it may be, and replaces the player's draft. */
  lemma SubmitIsRecorded(s: State, e: Json, id: PlayerId, text: string)
    requires IsSubmit(e, id, text)
    ensures Reduce(s, e).Next? <==> MaySubmit(s, id, text)
    ensures !Reduce(s, e).Unchanged?
    ensures MaySubmit(s, id, text) ==>
      var t := Reduce(s, e).state;
      t == s.(drafts := t.drafts) && t.drafts.vals == s.drafts.vals[id := BoundedText(text, 200)]
  {
  }

  /** A skip is taken once, and adds the player to those who skipped. */
  lemma SkipIsRecorded(s: State, e: Json, id: PlayerId)
    requires IsSkip(e, id)
    ensures Reduce(s, e).Next? <==> MaySkip(s, id)
    ensures Reduce(s, e) == Unchanged <==> s.phase == Collect && id in s.roster && id in s.skipped
    ensures MaySkip(s, id) ==> Reduce(s, e).state == s.(skipped := s.skipped + [id])
  {
  }

  lemma {:induction false} FindCardIs(cards: seq<AnswerCard>, id: string)
    requires Cards.DistinctCardIds(cards)
    ensures FindCard(cards, id).None? <==> forall k :: 0 <= k < |cards| ==> cards[k].id != id
    ensures forall k :: 0 <= k < |cards| && cards[k].id == id ==> FindCard(cards, id) == Some(cards[k])
  {
    if cards != [] && cards[0].id != id {
      FindCardIs(cards[1..], id);
      assert forall k :: 1 <= k < |cards| ==> cards[k] == cards[1..][k - 1];
    }
  }

  lemma AuthorsAre(s: State, author: PlayerId)
    requires Inv(s) && s.phase == Guess
    ensures author in Authors(s) <==> author in s.roster && (author in s.left ==> author in s.drafts.vals)
    ensures Cards.DistinctCardIds(s.cards)
  {
    hide BuildCards, FindCard;
    Cards.CardsAreTheDrafts(s.drafts, s.salt);
    var wrote := set c | c in s.cards :: c.authorId;
    assert author in wrote <==> author in s.drafts.vals;
  }

  lemma GuessReaches(s: State, e: Json, id: PlayerId, card: string, author: PlayerId)
    requires IsGuess(e, id, card, author)
    ensures Reduce(s, e) == OnGuess(s, id, card, author) && !Reduce(s, e).Unchanged?
  {
    hide FindCard, Authors, MyGuesses;
  }

  lemma GuessIsTaken(s: State, id: PlayerId, card: string, author: PlayerId)
    requires Inv(s)
    ensures OnGuess(s, id, card, author).Next? <==> MayGuess(s, id, card, author)
  {
    if s.phase == Guess {
      AuthorsAre(s, author);
      FindCardIs(s.cards, card);
      hide Inv, BuildCards, FindCard, Authors, MyGuesses;
    } else {
      hide Inv;
    }
  }

  lemma GuessWrites(s: State, id: PlayerId, card: string, author: PlayerId)
    requires OnGuess(s, id, card, author).Next?
    ensures var t := OnGuess(s, id, card, author).state;
      && t == s.(guesses := t.guesses) && t.guesses.vals - {id} == s.guesses.vals - {id}
      && Names(t, id) == Names(s, id)[card := author]
  {
    hide FindCard, Authors;
  }

  /** A guess is taken exactly when it may be, and writes the author the event names for
      the card it names, over an earlier one and beside the player's others. */
  lemma GuessIsRecorded(s: State, e: Json, id: PlayerId, card: string, author: PlayerId)
    requires Inv(s) && IsGuess(e, id, card, author)
    ensures Reduce(s, e).Next? <==> MayGuess(s, id, card, author)
    ensures !Reduce(s, e).Unchanged?
    ensures MayGuess(s, id, card, author) ==>
      var t := Reduce(s, e).state;
      && t == s.(guesses := t.guesses) && t.guesses.vals - {id} == s.guesses.vals - {id}
      && Names(t, id) == Names(s, id)[card := author]
  {
    hide Inv, MayGuess, OnGuess, Reduce, Names;
    GuessReaches(s, e, id, card, author);
    GuessIsTaken(s, id, card, author);
    if MayGuess(s, id, card, author) {
      GuessWrites(s, id, card, author);
    }
  }

  /** Only the advance of the phase the round is in is taken: it freezes the drafts into
      cards, or ends the round. */
  lemma AdvanceIsTaken(s: State, e: Json, from: string)
    requires HasType(e, "advance") && StrField(e, "from") == Some(from)
    ensures Reduce(s, e).Next? <==> (from == "collect" && s.phase == Collect) || (from == "guess" && s.phase == Guess)
    ensures Reduce(s, e) == Unchanged <==> !Reduce(s, e).Next? && from in {"collect", "guess"}
    ensures Reduce(s, e).Next? && s.phase == Collect ==>
      var t := Reduce(s, e).state;
      && t == s.(phase := Guess, cards := t.cards)
      && multiset(Map(t.cards, Cards.EntryOf)) == multiset(Entries(s.drafts)) && Cards.DistinctCardIds(t.cards)
    ensures Reduce(s, e).Next? && s.phase == Guess ==> Reduce(s, e).state == s.(phase := Reveal)
  {
    Cards.CardsAreTheDrafts(s.drafts, s.salt);
    hide BuildCards, Cards.DistinctCardIds;
  }

  // ------------------------------------------------------------- over a run

  function DraftOf(s: State, id: PlayerId): Option<string> {
    if id in s.drafts.vals then Some(s.drafts.vals[id]) else None
  }

  function NamedFor(s: State, id: PlayerId, card: string): Option<PlayerId> {
    if card in Names(s, id) then Some(Names(s, id)[card]) else None
  }

  /** The text of the last submit of a player the run took. */
  ghost function LastDraft(s: State, events: seq<Json>, id: PlayerId): Option<string> {
    if events == [] then DraftOf(s, id)
    else
      var front, e := events[..|events| - 1], events[|events| - 1];
      var text := StrField(e, "text");
      if text.Some? && IsSubmit(e, id, text.value) && MaySubmit(GuessWhoLaws.Run(s, front), id, text.value)
      then Some(BoundedText(text.value, 200)) else LastDraft(s, front, id)
  }

  /** The author in the last guess of a player for a card the run took. */
  ghost function LastNamed(s: State, events: seq<Json>, id: PlayerId, card: string): Option<PlayerId> {
    if events == [] then NamedFor(s, id, card)
    else
      var front, e := events[..|events| - 1], events[|events| - 1];
      var author := StrField(e, "author");
      if author.Some? && IsGuess(e, id, card, author.value)
         && MayGuess(GuessWhoLaws.Run(s, front), id, card, author.value)
      then author else LastNamed(s, front, id, card)
  }

  /** The run took a skip of the player. */
  ghost predicate HasSkipped(s: State, events: seq<Json>, id: PlayerId) {
    if events == [] then id in s.skipped
    else
      var front, e := events[..|events| - 1], events[|events| - 1];
      HasSkipped(s, front, id) || (IsSkip(e, id) && MaySkip(GuessWhoLaws.Run(s, front), id))
  }

  lemma OtherEventsKeepDraft(s: State, e: Json, id: PlayerId)
    requires forall text :: IsSubmit(e, id, text) ==> !MaySubmit(s, id, text)
    ensures DraftOf(GuessWhoLaws.Step(s, e), id) == DraftOf(s, id)
  {
    hide BuildCards, FindCard, Authors;
    match Decode(e)
    case Some(Submit(player, text)) => assert IsSubmit(e, player, text);
    case _ =>
  }

  lemma OtherEventsKeepSkips(s: State, e: Json, id: PlayerId)
    requires !(IsSkip(e, id) && MaySkip(s, id))
    ensures id in GuessWhoLaws.Step(s, e).skipped <==> id in s.skipped
  {
    hide BuildCards, FindCard, Authors;
  }

  lemma OtherEventsKeepNames(s: State, e: Json, id: PlayerId, card: string)
    requires Inv(s)
    requires forall author :: IsGuess(e, id, card, author) ==> !MayGuess(s, id, card, author)
    ensures NamedFor(GuessWhoLaws.Step(s, e), id, card) == NamedFor(s, id, card)
  {
    DecodedGuess(e);
    hide Inv, MayGuess, IsGuess, Decode, GuessWhoLaws.Step;
    match Decode(e)
    case Some(MakeGuess(player, named, author)) => GuessElsewhere(s, e, player, named, author, id, card);
    case _ => OtherEventsKeepGuesses(s, e);
  }

  lemma DecodedGuess(e: Json)
    ensures match Decode(e)
      case Some(MakeGuess(player, card, author)) => IsGuess(e, player, card, author)
      case _ => true
  {
  }

  lemma OtherEventsKeepGuesses(s: State, e: Json)
    requires Decode(e).None? || !Decode(e).value.MakeGuess?
    ensures GuessWhoLaws.Step(s, e).guesses == s.guesses
  {
    hide BuildCards, FindCard, Authors, Decode, OnGuess;
  }

  lemma GuessElsewhere(s: State, e: Json, player: PlayerId, named: string, author: PlayerId, id: PlayerId, card: string)
    requires Inv(s) && IsGuess(e, player, named, author)
    requires player == id && named == card ==> !MayGuess(s, id, card, author)
    ensures NamedFor(GuessWhoLaws.Step(s, e), id, card) == NamedFor(s, id, card)
  {
    GuessIsRecorded(s, e, player, named, author);
    hide Reduce, Inv, MayGuess, IsGuess;
    if player != id && Reduce(s, e).Next? {
      OthersNames(s, GuessWhoLaws.Step(s, e), player, id);
    }
  }

  lemma OthersNames(s: State, t: State, player: PlayerId, id: PlayerId)
    requires t.guesses.vals - {player} == s.guesses.vals - {player} && id != player
    ensures Names(t, id) == Names(s, id)
  {
    assert id in t.guesses.vals <==> id in t.guesses.vals - {player};
    assert id in s.guesses.vals <==> id in s.guesses.vals - {player};
    if id in s.guesses.vals {
      assert (t.guesses.vals - {player})[id] == (s.guesses.vals - {player})[id];
    }
  }

  /** At the end of any run a player's draft is the last text taken from them. */
  lemma {:induction false} DraftIsTheLastTaken(s: State, events: seq<Json>, id: PlayerId)
    ensures DraftOf(GuessWhoLaws.Run(s, events), id) == LastDraft(s, events, id)
  {
    if events != [] {
      hide GuessWhoLaws.Step, MaySubmit, DraftOf;
      var front, e := events[..|events| - 1], events[|events| - 1];
      var mid := GuessWhoLaws.Run(s, front);
      DraftIsTheLastTaken(s, front, id);
      var text := StrField(e, "text");
      if text.Some? && IsSubmit(e, id, text.value) && MaySubmit(mid, id, text.value) {
        SubmitLeaves(mid, e, id, text.value);
      } else {
        OtherEventsKeepDraft(mid, e, id);
      }
    }
  }

  lemma SubmitLeaves(s: State, e: Json, id: PlayerId, text: string)
    requires IsSubmit(e, id, text) && MaySubmit(s, id, text)
    ensures DraftOf(GuessWhoLaws.Step(s, e), id) == Some(BoundedText(text, 200))
  {
    SubmitIsRecorded(s, e, id, text);
    hide Reduce;
  }

  /** A player is among those who skipped exactly when a skip of theirs was taken. */
  lemma {:induction false} SkippedIsTaken(s: State, events: seq<Json>, id: PlayerId)
    ensures id in GuessWhoLaws.Run(s, events).skipped <==> HasSkipped(s, events, id)
  {
    if events != [] {
      hide GuessWhoLaws.Step, MaySkip;
      var front, e := events[..|events| - 1], events[|events| - 1];
      var mid := GuessWhoLaws.Run(s, front);
      SkippedIsTaken(s, front, id);
      if IsSkip(e, id) && MaySkip(mid, id) {
        SkipLeaves(mid, e, id);
      } else {
        OtherEventsKeepSkips(mid, e, id);
      }
    }
  }

  lemma SkipLeaves(s: State, e: Json, id: PlayerId)
    requires IsSkip(e, id) && MaySkip(s, id)
    ensures id in GuessWhoLaws.Step(s, e).skipped
  {
    SkipIsRecorded(s, e, id);
    hide Reduce;
  }

  /** For every player and card the author on record at the end of any run is the one in
      the last guess taken from that player for that card. */
  lemma {:induction false} NameIsTheLastTaken(s: State, events: seq<Json>, id: PlayerId, card: string)
    requires Inv(s)
    ensures NamedFor(GuessWhoLaws.Run(s, events), id, card) == LastNamed(s, events, id, card)
  {
    if events != [] {
      hide GuessWhoLaws.Step, Inv, MayGuess, NamedFor;
      var front, e := events[..|events| - 1], events[|events| - 1];
      var mid := GuessWhoLaws.Run(s, front);
      NameIsTheLastTaken(s, front, id, card);
      GuessWhoLaws.RunKeepsInv(s, front);
      var author := StrField(e, "author");
      if author.Some? && IsGuess(e, id, card, author.value) && MayGuess(mid, id, card, author.value) {
        GuessLeaves(mid, e, id, card, author.value);
      } else {
        OtherEventsKeepNames(mid, e, id, card);
      }
    }
  }

  lemma GuessLeaves(s: State, e: Json, id: PlayerId, card: string, author: PlayerId)
    requires Inv(s) && IsGuess(e, id, card, author) && MayGuess(s, id, card, author)
    ensures NamedFor(GuessWhoLaws.Step(s, e), id, card) == Some(author)
  {
    GuessIsRecorded(s, e, id, card, author);
    hide Reduce, Inv, MayGuess;
  }
}
