/** packages/games/src/guessWho: answer a prompt, then guess who wrote which answer. */
module GuessWho {
  import opened Collections
  import opened Values
  import opened GameEvents
  import Prompts

  datatype Phase = Collect | Guess | Reveal

  datatype AnswerCard = AnswerCard(id: string, text: string, authorId: PlayerId)

  datatype State = State(
    phase: Phase,
    prompt: string,
    roster: seq<PlayerId>,
    drafts: Record<string>,
    skipped: seq<PlayerId>,
    cards: seq<AnswerCard>,
    guesses: Record<Record<PlayerId>>,
    left: seq<PlayerId>,
    salt: nat)

  const PROMPTS: seq<string> := [
    "What is your most controversial food opinion?",
    "What would you do with an extra hour every day?",
    "What is a small thing that makes you unreasonably happy?",
    "What is the worst piece of advice you have ever received?",
    "If you could instantly master one skill, what would it be?",
    "What is a hill you are willing to die on?"]

  const MAX_ANSWER_LEN: nat := 200

  function Init(active: seq<PlayerId>, round: int, salt: nat, config: Option<Json>): State {
    State(Collect, Prompts.ChoosePrompt(config, round, PROMPTS), active, Empty(), [], [], Empty(), [], salt)
  }

  // ---------------------------------------------------------------- events

  datatype Event =
    | Submit(playerId: PlayerId, text: string)
    | Skip(playerId: PlayerId)
    | MakeGuess(playerId: PlayerId, cardId: string, author: PlayerId)
    | Advance(from: Phase)
    | Joined
    | Left(id: PlayerId)

  /** The shape check and the narrowing it gives; None is MALFORMED_EVENT. */
  function Decode(e: Json): Option<Event> {
    if HasType(e, "submit") then
      match (StrField(e, "playerId"), StrField(e, "text"))
      case (Some(id), Some(text)) => Some(Submit(id, text))
      case _ => None
    else if HasType(e, "skip") then
      match StrField(e, "playerId")
      case Some(id) => Some(Skip(id))
      case None => None
    else if HasType(e, "guess") then
      match (StrField(e, "playerId"), StrField(e, "cardId"), StrField(e, "author"))
      case (Some(id), Some(card), Some(author)) => Some(MakeGuess(id, card, author))
      case _ => None
    else if HasType(e, "advance") then
      match StrField(e, "from")
      case Some(from) =>
        if from == "collect" then Some(Advance(Collect))
        else if from == "guess" then Some(Advance(Guess))
        else None
      case None => None
    else if HasType(e, "playerLeft") then
      match StrField(e, "id")
      case Some(id) => Some(Left(id))
      case None => None
    else if HasType(e, "playerJoined") && IsJoinFact(e) then Some(Joined)
    else None
  }

  function Reduce(s: State, e: Json): GameResult<State> {
    match Decode(e)
    case None => Rejected("MALFORMED_EVENT")
    case Some(event) => Apply(s, event)
  }

  function Apply(s: State, event: Event): GameResult<State> {
    match event
    case Submit(id, text) => OnSubmit(s, id, text)
    case Skip(id) => OnSkip(s, id)
    case MakeGuess(id, card, author) => OnGuess(s, id, card, author)
    case Advance(from) => OnAdvance(s, from)
    case Joined => Unchanged
    case Left(id) => if Departs(s.roster, s.left, id) then Next(s.(left := s.left + [id])) else Unchanged
  }

  function OnSubmit(s: State, id: PlayerId, raw: string): GameResult<State> {
    if s.phase != Collect then Rejected("WRONG_PHASE")
    else if id !in s.roster then Rejected("NOT_PLAYING")
    else
      var text := BoundedText(raw, MAX_ANSWER_LEN);
      if text == "" then Rejected("EMPTY_ANSWER")
      else Next(s.(drafts := Put(s.drafts, id, text)))
  }

  function OnSkip(s: State, id: PlayerId): GameResult<State> {
    if s.phase != Collect then Rejected("WRONG_PHASE")
    else if id !in s.roster then Rejected("NOT_PLAYING")
    else if id in s.skipped then Unchanged
    else Next(s.(skipped := s.skipped + [id]))
  }

  function OnAdvance(s: State, from: Phase): GameResult<State> {
    if from != s.phase then Unchanged
    else if s.phase == Collect then Next(s.(phase := Guess, cards := BuildCards(s.drafts, s.salt)))
    else Next(s.(phase := Reveal))
  }

  function FindCard(cards: seq<AnswerCard>, id: string): Option<AnswerCard> {
    if cards == [] then None
    else if cards[0].id == id then Some(cards[0])
    else FindCard(cards[1..], id)
  }

  function MyGuesses(s: State, id: PlayerId): Record<PlayerId> {
    if id in s.guesses.vals then s.guesses.vals[id] else Empty()
  }

  function OnGuess(s: State, id: PlayerId, cardId: string, author: PlayerId): GameResult<State> {
    if s.phase != Guess then Rejected("WRONG_PHASE")
    else if id !in s.roster then Rejected("NOT_PLAYING")
    else
      match FindCard(s.cards, cardId)
      case None => Rejected("NO_SUCH_CARD")
      case Some(card) =>
        if card.authorId == id then Rejected("OWN_CARD")
        else if author !in Authors(s) then Rejected("NOT_A_PLAYER")
        else Next(s.(guesses := Put(s.guesses, id, Put(MyGuesses(s, id), cardId, author))))
  }

  /** authors.ts: the seated roster, minus anyone who left without leaving a card. */
  function Authors(s: State): seq<PlayerId> {
    var wrote := set c | c in s.cards :: c.authorId;
    Keep(s.roster, (id: PlayerId) => id !in s.left || id in wrote)
  }

  // ----------------------------------------------------------------- cards

  datatype Entry = Entry(id: PlayerId, text: string)

  /** Object.entries */
  function Entries(drafts: Record<string>): (r: seq<Entry>)
    ensures |r| == |drafts.keys|
  {
    seq(|drafts.keys|, i requires 0 <= i < |drafts.keys| =>
      Entry(drafts.keys[i], drafts.vals[drafts.keys[i]]))
  }

  const FNV_OFFSET: bv32 := 0x811c9dc5
  const FNV_PRIME: bv32 := 0x01000193

  function CodeUnit(c: char): bv32 {
    ((c as int) % 0x1_0000) as bv32
  }

  function FnvStep(hash: bv32, unit: bv32): bv32 {
    (hash ^ unit) * FNV_PRIME
  }

  /** 32-bit FNV-1a; Math.imul followed by `>>> 0` is multiplication modulo 2^32. */
  function Fnv1a(text: string): bv32 {
    if text == [] then FNV_OFFSET
    else FnvStep(Fnv1a(text[..|text| - 1]), CodeUnit(text[|text| - 1]))
  }

  method Fnv1aLoop(text: string) returns (hash: bv32)
    ensures hash == Fnv1a(text)
  {
    hide FnvStep, CodeUnit;
    hash := FNV_OFFSET;
    for i := 0 to |text|
      invariant hash == Fnv1a(text[..i])
    {
      assert text[..i + 1][..i] == text[..i];
      hash := FnvStep(hash, CodeUnit(text[i]));
    }
    assert text[..|text|] == text;
  }

  function Tie(salt: nat, id: PlayerId): int {
    Fnv1a(Digits(salt) + ":" + id) as int
  }

  /** The comparator of the sort: by text, ties by salted hash. */
  function Compare(a: Entry, b: Entry, salt: nat): int {
    var byText := LocaleCompare(a.text, b.text);
    if byText != 0 then byText else Tie(salt, a.id) - Tie(salt, b.id)
  }

  /** Array.prototype.sort is stable: an entry goes after every entry it does not precede. */
  function Insert(sorted: seq<Entry>, e: Entry, salt: nat): seq<Entry> {
    if sorted == [] then [e]
    else
      var last := sorted[|sorted| - 1];
      if Compare(last, e, salt) <= 0 then sorted + [e]
      else Insert(sorted[..|sorted| - 1], e, salt) + [last]
  }

  function SortEntries(entries: seq<Entry>, salt: nat): seq<Entry> {
    if entries == [] then []
    else Insert(SortEntries(entries[..|entries| - 1], salt), entries[|entries| - 1], salt)
  }

  function CardId(i: nat): string { "c" + Digits(i) }

  function BuildCards(drafts: Record<string>, salt: nat): (cards: seq<AnswerCard>)
    ensures |cards| == |SortEntries(Entries(drafts), salt)|
  {
    var sorted := SortEntries(Entries(drafts), salt);
    seq(|sorted|, i requires 0 <= i < |sorted| => AnswerCard(CardId(i), sorted[i].text, sorted[i].id))
  }

  // --------------------------------------------------------------- scoring

  predicate RightGuess(mine: Record<PlayerId>, card: AnswerCard) {
    card.id in mine.vals && mine.vals[card.id] == card.authorId
  }

  function Correct(mine: Record<PlayerId>, cards: seq<AnswerCard>): nat {
    |Keep(cards, (c: AnswerCard) => RightGuess(mine, c))|
  }

  /** The places of the cards whose author is the one named for them. */
  function RightlyNamed(named: map<string, PlayerId>, cards: seq<AnswerCard>): set<int> {
    set k | 0 <= k < |cards| && cards[k].id in named && named[cards[k].id] == cards[k].authorId
  }

  lemma OneMoreCard(mine: Record<PlayerId>, cards: seq<AnswerCard>, i: nat)
    requires i < |cards|
    ensures Correct(mine, cards[..i + 1]) == Correct(mine, cards[..i]) + if RightGuess(mine, cards[i]) then 1 else 0
    ensures |RightlyNamed(mine.vals, cards[..i + 1])|
      == |RightlyNamed(mine.vals, cards[..i])| + if RightGuess(mine, cards[i]) then 1 else 0
  {
    OneMoreNamed(mine.vals, cards, i);
    hide RightlyNamed;
    assert cards[..i + 1] == cards[..i] + [cards[i]];
    KeepAppend(cards[..i], cards[i], (c: AnswerCard) => RightGuess(mine, c));
  }

  lemma OneMoreNamed(named: map<string, PlayerId>, cards: seq<AnswerCard>, i: nat)
    requires i < |cards|
    ensures |RightlyNamed(named, cards[..i + 1])|
      == |RightlyNamed(named, cards[..i])| + if cards[i].id in named && named[cards[i].id] == cards[i].authorId then 1 else 0
  {
    var before, after := RightlyNamed(named, cards[..i]), RightlyNamed(named, cards[..i + 1]);
    assert i !in before;
    if cards[i].id in named && named[cards[i].id] == cards[i].authorId {
      assert after == before + {i as int};
    } else {
      assert after == before;
    }
  }

  /** The inner loop of scoring.ts `tally`. */
  method CountCorrect(mine: Record<PlayerId>, cards: seq<AnswerCard>) returns (points: nat)
    ensures points == Correct(mine, cards)
    ensures points == |RightlyNamed(mine.vals, cards)|
  {
    hide Correct, RightlyNamed;
    points := 0;
    NoCards(mine);
    assert cards[..0] == [];
    for i := 0 to |cards|
      invariant points == Correct(mine, cards[..i]) == |RightlyNamed(mine.vals, cards[..i])|
    {
      OneMoreCard(mine, cards, i);
      if RightGuess(mine, cards[i]) {
        points := points + 1;
      }
    }
    assert cards[..|cards|] == cards;
  }

  lemma NoCards(mine: Record<PlayerId>)
    ensures Correct(mine, []) == 0 && RightlyNamed(mine.vals, []) == {}
  {
  }

  lemma {:induction false} CorrectIsRightlyNamed(mine: Record<PlayerId>, cards: seq<AnswerCard>, i: nat)
    requires i <= |cards|
    ensures Correct(mine, cards[..i]) == |RightlyNamed(mine.vals, cards[..i])|
  {
    hide Correct, RightlyNamed;
    if i == 0 {
      NoCards(mine);
      assert cards[..0] == [];
    } else {
      CorrectIsRightlyNamed(mine, cards, i - 1);
      OneMoreCard(mine, cards, i - 1);
    }
  }

  function Tally(s: State): seq<Score> {
    Map(Remaining(s.roster, s.left), (id: PlayerId) => Score(id, Correct(MyGuesses(s, id), s.cards)))
  }

  // ------------------------------------------------------------------ view

  datatype PublicCard = PublicCard(id: string, text: string)

  datatype View =
    | CollectBoard(prompt: string, submitted: seq<PlayerId>, submittedCount: int, total: int)
    | CollectPhone(prompt: string, youSubmitted: bool, youSkipped: bool, submittedCount: int, total: int)
    | GuessBoard(prompt: string, cards: seq<PublicCard>, candidates: seq<PlayerId>, guessed: seq<PlayerId>)
    | GuessPhone(prompt: string, cards: seq<PublicCard>, candidates: seq<PlayerId>,
                 myGuesses: Record<PlayerId>, yourCardId: Option<string>)
    | RevealBoard(prompt: string, answers: seq<AnswerCard>, scores: seq<Score>)
    | RevealPhone(prompt: string, answers: seq<AnswerCard>, scores: seq<Score>, myGuesses: Record<PlayerId>)

  /** Resolved = answered or skipped. */
  function Resolved(s: State): seq<PlayerId> {
    Dedupe(s.drafts.keys + s.skipped)
  }

  function Published(cards: seq<AnswerCard>): seq<PublicCard> {
    Map(cards, (c: AnswerCard) => PublicCard(c.id, c.text))
  }

  function OwnCard(cards: seq<AnswerCard>, id: PlayerId): Option<string> {
    if cards == [] then None
    else if cards[0].authorId == id then Some(cards[0].id)
    else OwnCard(cards[1..], id)
  }

  function ViewFor(s: State, viewer: Viewer): View {
    match s.phase
    case Collect => CollectView(s, viewer)
    case Guess => GuessView(s, viewer)
    case Reveal => RevealView(s, viewer)
  }

  function CollectView(s: State, viewer: Viewer): View {
    var resolved := Resolved(s);
    var total := |s.roster| - Gone(s.left, resolved);
    match viewer
    case Host => CollectBoard(s.prompt, resolved, |resolved|, total)
    case Seat(id) => CollectPhone(s.prompt, id in s.drafts.vals, id in s.skipped, |resolved|, total)
  }

  function GuessView(s: State, viewer: Viewer): View {
    match viewer
    case Host => GuessBoard(s.prompt, Published(s.cards), Authors(s), s.guesses.keys)
    case Seat(id) =>
      GuessPhone(s.prompt, Published(s.cards), Authors(s), MyGuesses(s, id), OwnCard(s.cards, id))
  }

  function RevealView(s: State, viewer: Viewer): View {
    match viewer
    case Host => RevealBoard(s.prompt, s.cards, Tally(s))
    case Seat(id) => RevealPhone(s.prompt, s.cards, Tally(s), MyGuesses(s, id))
  }
}
