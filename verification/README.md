# Klatchr, verified

A Dafny model of how Klatchr keeps a multiplayer room consistent, redacted and alive over
unreliable sockets: the room reducer and its two games, the server's sessions and hub, the
browser's self-healing transport, and the arithmetic beside them. Check it with
`dafny verify dfyconfig.toml` (Dafny 4.11).

## How it is laid out

- **Values and kernels.** `Collections` and `Values` hold the plain data: a JavaScript
  record is a list of keys with a map, and an option, a JSON value, a player and a viewer
  are datatypes. `Rounds`, `Rotation` and `Prompts` are the rotating seats, the score fold
  and the question sets.
- **Games.** `GuessWho` and `MostLikelyTo` are the two state machines with their views and
  tallies; `Cards`, `GuessWhoLaws` and `MostLikelyToLaws` prove what they keep,
  `GuessWhoRecords` and `MostLikelyToRecords` what each event leaves. `Games` is the erased
  interface the room uses, and `GamesLaws` restates the games' laws through it.
- **Room.** `Room` is the pure reducer. `RoomLaws` is its invariant over every run,
  `Identity` is about ids and tokens, `ScoreKeeping` and `ParkedScores` about points,
  `QuestionWalk` about the questions a session asks.
- **Server.** `Session` gives the transitions of one live room on values: connections,
  grace timers, the deferred broadcast, and a log of what each connection was sent.
  `RoomSession` is the class, proved to follow them method by method. `SessionLaws`,
  `SessionTheorems`, `Authority`, `Returning`, `Screens` and `Secrecy` prove what follows
  for seats, rights, resumes, screens and secrets. `Hub` is the hub without its indices,
  `HubLaws` its invariant, `Admission` who gets in, and `RoomHub` the class with
  `sessionOf`, `openedBy` and `roomsPerAddress`, proved to give the same answers.
- **Client.** `Client` gives the transitions of one transport, `ClientLaws` its invariant,
  `ClientTheorems` what it means, and `SocketTransport` is the class. `Controls` goes from
  a tap on a screen through transport and hub to what the room then is.
- **Limits.** The token bucket, the flood counter and the sockets per address.

Where the source updates an object in place the model has a class, and each of its methods
is proved to compute a transition on values. The laws are proved once, about the
transitions, and reach the objects: the methods that receive an event say that they keep
the invariant of their session, hub or transport.

"The same object came back" matters twice in the source: a game that changed nothing, and a
room that changed nothing. It is a constructor of its own in the results (`Unchanged`,
`Same`), not an equality of contents.

## What is assumed

- `id()` and `secret()` never repeat. Each step that may draw them carries a `Draw`; a run
  is `FreshRun` when no draw repeats an id or a secret handed out before.
- A new room code is one not in use.
- `send` and `close` of a connection, and the listeners of a transport, do not call back
  synchronously. The session's two callbacks are therefore out-parameters: the connections
  superseded, and those closed out with the room.
- A browser socket opens at most once, then delivers messages, then fails or closes, and
  neither opens nor delivers after an error, a close or a local `close()` (section
  "Feedback from the protocol" of the WHATWG WebSockets Standard).
- Only pending timers fire, only scheduled microtasks run, and the clock does not go
  backward.
- The text functions of the JavaScript runtime are fixed but unknown functions. A lemma
  that needs a law of one asks for it: the anonymity of cards takes `localeCompare` as a
  total order that ties only on equal texts.

## Where a plausible claim is false

- The playtest sheet promises that nobody spectates twice in a row. For a roster that does
  not change between the two rounds, `BenchedTwiceIff` proves it holds exactly when two
  windows cover the roster, and `SecondWindow` names who is benched twice otherwise. Once
  the roster changes, covering is not enough: `OneLeavesOneJoins` and `OneJoins` are two
  families that break the promise with one player more than there are seats.
  `SitsOutAgainIff` gives the exact condition for a roster that keeps its size.
- A changed question set clears the tally but not the parked scores, so a score from the
  old set can come back with its nickname: `ConfigureKeepsParkedScores`.
- Tally plus ledger is not simply conserved by a leave: a second leaver of the same
  nickname overwrites the first one's slot. `StepBalances` gives the exact amount.
- Secrecy is bounded by the stage: an abort shows the tally mid-vote, and an advance
  publishes the texts. In `Secrecy` a stage may only be left when B's entries have come to
  agree in the two runs.

## Model

| member | source | states |
|---|---|---|
| `Rounds.FoldScores` | packages/core/src/rounds.ts:30-39 | The loop that credits one score after the other computes the fold whose exactness FoldAddsExactly proves. |
| `Rounds.FoldAddsExactly` | packages/core/src/rounds.ts:30-39 | Folding adds exactly what was scored: in total, for each player, and under no key that was neither tallied nor scored. |
| `Rotation.RoundSeatsExactly` | packages/core/src/rounds.ts:10-22 | Every round seats exactly min(n, M) players. |
| `Rotation.FairShare` | packages/core/src/rounds.ts:5-22 | Over any k consecutive rounds two players' numbers of seats differ by at most one. |
| `Rotation.NobodyWaitsForever` | packages/core/src/rounds.ts:5-22 | Any k consecutive rounds with k * M >= n seat everyone at least once. |
| `Rotation.BenchedTwiceIff` | docs/playtest.md:46 | For a roster that does not change between the two rounds, the promise that nobody spectates twice in a row holds if and only if n <= 2 * M; the document promises it without conditions. |
| `Rotation.SecondWindow` | docs/playtest.md:46 | The family of rosters that break the promise: with n > 2 * M the player right after the second window sits out rounds 1 and 2. |
| `Rotation.SitsOutAgainIff` | packages/core/src/rounds.ts:10-22 | Between two rounds some leave and as many join: who sat out, with `a` leavers ahead and `q` places between the window and them, sits out again unless a <= q < a + M or q + n < a + M; so with a <= q and n <= 2 * M they are seated. |
| `Rotation.OneLeavesOneJoins` | docs/playtest.md:46 | A family that breaks the promise with n <= 2 * M: of M + 1 players one ahead leaves and somebody joins, and the one who sat out round 1 sits out round 2. |
| `Rotation.OneJoins` | docs/playtest.md:46 | Another: of M + 1 players the first sits out round M + 1, somebody joins, and the same player sits out the next round. |
| `Prompts.CleanLoop` | packages/games/src/promptConfig.ts:40-63 | The scanning loop with its growing list, its set of seen keys and its early stop computes the walk specified below. |
| `Prompts.WalkIsFirstUses` | packages/games/src/promptConfig.ts:40-63 | What is kept is the first use of every usable key among the scanned items, in order, cut at the cap: nothing usable is lost before the list is full. |
| `Prompts.WalkIsASet` | packages/games/src/promptConfig.ts:16-22 | At most 50 prompts, none empty, no two equal when case is ignored. |
| `Prompts.BankIsTheSavedSet` | packages/games/src/promptConfig.ts:23-72 | A session asks from the first fifty different texts among the first two hundred items under `prompts`, trimmed and capped at 200; from the built-in ones if there is none, or for any other config. |
| `Prompts.PromptMemo.Read` | packages/games/src/promptConfig.ts:23-38 | The memo answers what cleaning the object would, never changes an earlier answer, and remembers exactly the objects that have prompts to clean. |
| `Prompts.BankIsDistinct` | packages/games/src/promptConfig.ts:72-88 | The bank a session walks is never empty and never repeats a question. |
| `GameEvents.ProgressCounts` | packages/games/src/guessWho/view.ts:21-37 | A leaver who never acted is not waited for: the count never exceeds the total and equals it exactly when everyone still there has acted. |
| `GuessWho.CountCorrect` | packages/games/src/guessWho/scoring.ts:6-19 | The inner loop returns the number of cards for which the name given is the author's. |
| `Cards.CardsAreTheDrafts` | packages/games/src/guessWho/guessWho.ts:164-170 | buildCards is a bijection: each draft becomes one card with its author and text, every card comes from a draft, and card ids are distinct. |
| `Cards.OneCardEach` | packages/games/src/guessWho/guessWho.ts:164-170 | No two cards have the same author. |
| `Cards.PublishedDependsOnTextsOnly` | packages/games/src/guessWho/guessWho.ts:158-170 | The published ids and texts depend only on the multiset of texts: not on authors, their ids, the order of submission or the salt. |
| `Cards.AuthorshipIsHidden` | packages/games/src/guessWho/view.ts:39-56 | In guess the board is the same under every rearrangement of authors, a phone under every one that leaves its own card alone. |
| `Cards.BoardNeverTellsWhoWrote` | packages/games/src/guessWho/view.ts:39-44 | From the drafts on: permuting who wrote which text before the cards are built never shows on the board. |
| `GuessWhoLaws.RunKeepsInv` | packages/games/src/guessWho/guessWho.ts:50-155 | Over every run of events: entries belong to the roster, the cards are those of the drafts, and every guess names an existing card of somebody else. |
| `GuessWhoLaws.TallyIsBounded` | packages/games/src/guessWho/scoring.ts:6-19 | At every reachable state a player has at most one point for each card somebody else wrote, and only players still in the round appear, once. |
| `GuessWhoLaws.PointsAreRightGuesses` | packages/games/src/guessWho/scoring.ts:6-19 | In every reachable state a tallied player's points are the cards they gave to the author, as many as the others whose draft they gave to its writer: full marks exactly if all are right, 0 exactly if none is. |
| `GuessWhoLaws.CollectProgress` | packages/games/src/guessWho/view.ts:21-37 | Every screen's count is at most its total, equal exactly when everyone still there has answered or skipped; the board names exactly those who have. |
| `GuessWhoLaws.CollectCountNeverFalls` | packages/games/src/guessWho/view.ts:21-25 | While a round stays in collect nobody ever drops out of the resolved players. |
| `GuessWhoLaws.YourCardIsYours` | packages/games/src/guessWho/view.ts:45-55 | `yourCardId` is there exactly when the player wrote an answer, and names a published card with that very text. |
| `GuessWhoLaws.RepeatedAdvance` | packages/games/src/guessWho/guessWho.ts:117-128 | Once an advance has been applied, every later copy in the round changes nothing, whatever came between. |
| `GuessWhoLaws.StepTouchesOwnEntry` | packages/games/src/guessWho/guessWho.ts:84-155 | An event that carries a player's id touches that player's draft, skip and guesses only. |
| `GuessWhoRecords.SubmitIsRecorded` | packages/games/src/guessWho/guessWho.ts:74-99 | A submit is taken exactly in collect, from a seated player, with something visible; it then replaces that player's draft by the text trimmed and capped at 200. |
| `GuessWhoRecords.SkipIsRecorded` | packages/games/src/guessWho/guessWho.ts:101-115 | A skip is taken exactly once, in collect, from a seated player, who is then among those who skipped. |
| `GuessWhoRecords.GuessIsRecorded` | packages/games/src/guessWho/guessWho.ts:130-155 | A guess is taken exactly in guess, from a seated player, for an existing card of another, naming somebody seated who is there or wrote a card; it then writes the named author for that card and leaves the player's other names. |
| `GuessWhoRecords.AdvanceIsTaken` | packages/games/src/guessWho/guessWho.ts:117-128 | Exactly the advance of the phase the round is in is taken: collect freezes the drafts into one card each, guess ends the round. |
| `GuessWhoRecords.DraftIsTheLastTaken` | packages/games/src/guessWho/guessWho.ts:84-99 | At the end of any run a player's draft is the last text taken from them. |
| `GuessWhoRecords.SkippedIsTaken` | packages/games/src/guessWho/guessWho.ts:101-115 | At the end of any run a player counts as skipped exactly if a skip of theirs was taken. |
| `GuessWhoRecords.NameIsTheLastTaken` | packages/games/src/guessWho/guessWho.ts:130-155 | At the end of any run the author on record for a player and a card is the one in the last guess taken from that player for that card. |
| `GuessWhoLaws.StepKeepsHidden` | packages/games/src/guessWho/guessWho.ts:50-155 | Two rounds that differ only in what B hides stay that way under the same event, and under two accepted events of B that differ only in the secret. |
| `GuessWhoLaws.ViewHides` | packages/games/src/guessWho/view.ts:10-66 | Before the reveal two such rounds give every viewer but B the same view. |
| `MostLikelyToLaws.RunKeepsInv` | packages/games/src/mostLikelyTo/mostLikelyTo.ts:32-74 | Over every run of events voters and targets are of the roster, and leavers are recorded once. |
| `MostLikelyToLaws.TallyCountsLiveVotes` | packages/games/src/mostLikelyTo/scoring.ts:5-27 | The points add up to the number of votes whose target has not left, and nobody who left is on the tally. |
| `MostLikelyToLaws.PointsAreVoters` | packages/games/src/mostLikelyTo/scoring.ts:16-27 | A player on the tally has as many points as there are players whose vote names them. |
| `MostLikelyToLaws.VoteProgress` | packages/games/src/mostLikelyTo/view.ts:19-40 | Every screen's count is at most its total, equal exactly when everyone still there has voted. |
| `MostLikelyToLaws.VoteCountNeverFalls` | packages/games/src/mostLikelyTo/view.ts:20-26 | The number of voters never falls, not even when somebody they voted for leaves. |
| `MostLikelyToLaws.RepeatedAdvance` | packages/games/src/mostLikelyTo/mostLikelyTo.ts:66-74 | A repeated or late advance changes nothing. |
| `MostLikelyToLaws.StepTouchesOwnEntry` | packages/games/src/mostLikelyTo/mostLikelyTo.ts:32-64 | An event that carries a player's id touches that player's vote only. |
| `MostLikelyToRecords.VoteIsRecorded` | packages/games/src/mostLikelyTo/mostLikelyTo.ts:50-64 | A vote is taken exactly while the vote is on, from a seated player, for a seated one who has not left; it then replaces that player's vote by the target named. |
| `MostLikelyToRecords.AdvanceIsTaken` | packages/games/src/mostLikelyTo/mostLikelyTo.ts:66-74 | The advance shows the results while the vote is on, and changes nothing later. |
| `MostLikelyToRecords.VoteIsTheLastTaken` | packages/games/src/mostLikelyTo/mostLikelyTo.ts:50-64 | At the end of any run a player's vote is the last one taken from them. |
| `MostLikelyToLaws.StepKeepsHidden` | packages/games/src/mostLikelyTo/mostLikelyTo.ts:32-74 | Two rounds that differ only in B's target stay that way under the same event and under two accepted votes of B. |
| `MostLikelyToLaws.ViewHides` | packages/games/src/mostLikelyTo/view.ts:12-40 | During the vote two such rounds give every viewer but B the same view. |
| `Games.CreateRegistry` | packages/core/src/registry.ts:16-44 | The loop fails exactly when some game widens the platform's bounds, and otherwise registers every game. |
| `Games.LaterIdsWin` | packages/core/src/registry.ts:10-27 | Every id is registered, to the last game in the list that has it. |
| `Games.ShippedIsRegistered` | packages/games/src/index.ts:10 | The two games on offer are within the platform's bounds, so creating the server's registry cannot fail, and it holds each under its own id. |
| `GamesLaws.InitLaws` | packages/games/src/guessWho/guessWho.ts:13-26 | A round starts incomplete, with exactly the seated players, nobody gone, and the prompt the bank gives for its number. |
| `GamesLaws.LeaveFact` | packages/games/src/roster.ts:6-13 | A leave fact is always taken, records a seated player once, and moves neither the phase nor completion. |
| `RoomLaws.RunKeepsInv` | packages/core/src/room.ts:46-68 | Over every run of room events: ids are distinct and at most 50, token keys are the seated ids, the tally names nobody else, the state was built by the selected game, and while a round runs the players who do not spectate are its roster without its leavers and it is not over. |
| `RoomLaws.StartCouples` | packages/core/src/room.ts:182-211 | A started round seats exactly the players it does not make spectators, in a state of the selected game that is not complete. |
| `Identity.TokenResolves` | packages/core/src/room.ts:37-44 | A token resolves to a player exactly when it is that player's. |
| `Identity.TokenOutlivesRuns` | packages/core/src/room.ts:70-109 | A minted token resolves to its own id after every run without that player's leave. |
| `Identity.TokenDiesWithLeave` | packages/core/src/room.ts:111-131 | After its player's leave a token resolves to nobody, after every further run. |
| `Identity.RoundSizes` | packages/core/src/room.ts:194-211 | Every round starts with between minPlayers and maxPlayers players, as many as fit. |
| `Identity.FilterDropsNobody` | packages/core/src/room.ts:273-278 | For the shipped games the seated filter drops nobody at a fold. |
| `ScoreKeeping.StepBalances` | packages/core/src/room.ts:70-180 | The exact change of tally plus ledger at every event: a join nothing, a leave only the same-nickname slot it overwrites, a reset what it clears, the end of a round what it scored. |
| `ScoreKeeping.RunBalances` | packages/core/src/room.ts:97-130 | Conservation over whole runs of events. |
| `ParkedScores.JoinIsTaken` | packages/core/src/room.ts:70-91 | A newcomer is seated exactly with a visible nickname, no token of a seat, and fewer than fifty players. |
| `ParkedScores.JoinTakesUp` | packages/core/src/room.ts:86-109 | A newcomer sits last, late if a round runs, with their own token; a score parked under their nickname becomes theirs and its slot goes; no other entry of tally or ledger moves. |
| `ParkedScores.LeaveParks` | packages/core/src/room.ts:111-131 | A leaver's score, if any, is parked under their nickname and leaves the tally; no other entry moves. |
| `ParkedScores.TheReturnedGetTheirPointsBack` | packages/core/src/room.ts:97-130 | Over runs: who leaves with points and joins under a nickname equal up to case gets exactly those points, if nobody else left or joined under it and no game was selected in between. |
| `ScoreKeeping.ConfigureKeepsParkedScores` | packages/core/src/room.ts:167-180 | A changed question set clears the tally but keeps the parked scores; selecting a game clears both. |
| `ScoreKeeping.EachRoundFoldsOnce` | packages/core/src/room.ts:213-261 | Over every run each started round is folded exactly once, but for one still running. |
| `ScoreKeeping.LateAdvanceIsQuiet` | packages/core/src/room.ts:213-219 | Within a round a repeated or late copy of an applied advance changes nothing, in the scores phase included. |
| `QuestionWalk.RoundsWalkTheBank` | packages/core/src/room.ts:197-211 | Between resets the rounds ask exactly the entries of the bank from the first round number to the last: in order, none skipped, none repeated, never the fallback. |
| `QuestionWalk.SessionAsksEachOnce` | packages/core/src/room.ts:197-209 | A session asks each question at most once and starts at most roundCount rounds. |
| `Protocol.StampLaws` | apps/server/src/roomEvents.ts:23-26 | Stamping sets the acting player on every object, arrays included, and changes nothing else the games read. |
| `RoomSessions.RoomSession.AddHost` | apps/server/src/roomSession.ts:77-84 | The handler is the transition Session.AddHost of the whole session, messages and timers included; around a new room it establishes the session invariant. |
| `RoomSessions.RoomSession.ResumeHost` | apps/server/src/roomSession.ts:91-102 | The transition Session.ResumeHost, keeping the invariant; it reports whether it resumed and whom it pushed out. |
| `RoomSessions.RoomSession.Join` | apps/server/src/roomSession.ts:105-139 | Likewise for a join or a resume, with every refusal. |
| `RoomSessions.RoomSession.HostAct` | apps/server/src/roomSession.ts:141-156 | Likewise for a host action. |
| `RoomSessions.RoomSession.Play` | apps/server/src/roomSession.ts:158-181 | Likewise for a game event. |
| `RoomSessions.RoomSession.Leave` | apps/server/src/roomSession.ts:183-194 | Likewise for a leave. |
| `RoomSessions.RoomSession.Disconnect` | apps/server/src/roomSession.ts:203-214 | Likewise for a dropped socket. |
| `RoomSessions.RoomSession.Fire` | apps/server/src/roomSession.ts:216-223 | Likewise for a grace timer, the player's (lines 253-262) and the host's. |
| `RoomSessions.RoomSession.Evict` | apps/server/src/roomSession.ts:246-251 | The loop over the members supersedes exactly the connections of one seat, each once. |
| `RoomSessions.RoomSession.Broadcast` | apps/server/src/roomSession.ts:317-343 | The loop sends every member its own message, once, and nobody else any. |
| `RoomSessions.RoomSession.Drain` | apps/server/src/roomSession.ts:306-343 | The microtask is the transition Session.Drain; it reports the bystanders exactly when the room was closed. |
| `SessionLaws.RunKeepsInv` | apps/server/src/roomSession.ts:36-304 | Over every interleaving of handlers, timers and drains: seats and board held once, the pending timers are the grace timers, a closed and drained session is empty, and without a broadcast due every screen is current. |
| `SessionTheorems.EverySeatIsHeldOnce` | apps/server/src/roomSession.ts:104-139 | An id is seated exactly when it has one attached connection and no reaper, or a pending reaper and no connection. |
| `SessionTheorems.TheBoardIsHeldOnce` | apps/server/src/roomSession.ts:77-102 | An open room has one board attached or one pending host reaper, never both. |
| `SessionTheorems.AReaperRemovesAnUnattendedSeat` | apps/server/src/roomSession.ts:253-262 | A reaper that fires finds its seat taken and unattended, and removes exactly it. |
| `SessionTheorems.AnAcceptedJoinAlwaysAttaches` | apps/server/src/roomSession.ts:119-138 | JOIN_FAILED is unreachable: a join the room accepts ends with the connection alone on the seat its token names, or failing that on the new player's, and told the secret that resumes that very seat. |
| `Returning.ThePlayerComesBack` | packages/core/src/room.ts:70-84 | A token gets its player back to their own seat after every run in which the seat neither leaves nor is reaped, in a full room and in any phase; only a blank nickname is refused, and the room does not change. |
| `SessionTheorems.OneDrainOneMessage` | apps/server/src/roomSession.ts:306-343 | One drain sends each attached connection exactly one message and nobody else any. |
| `Screens.EveryScreenIsTrue` | apps/server/src/roomSession.ts:345-384 | Over every run, whenever no broadcast is due, the last frame of every attached connection shows the room as it is and, of the round, the screen of that very viewer: the board's shapes on the board, a phone's own entries on that phone; scores exactly in the scores phase, with what each player earned. |
| `Screens.ADrainShowsTheRoom` | apps/server/src/roomSession.ts:306-343 | A drain adds one such frame for each attached connection, or ROOM_CLOSED when the room has closed, and nothing for anybody else. |
| `Screens.WhatIsShownIsFolded` | packages/core/src/room.ts:213-278 | When a round ends each of its players' entries on the tally grows by exactly what the scores screen shows for them, and no other entry moves. |
| `SessionTheorems.CoalescingLosesNothing` | apps/server/src/roomSession.ts:287-315 | After any burst and its one drain every attached connection shows the last frame it would show had the session broadcast after every event. |
| `Authority.APlayerWritesTheirOwnEntryOnly` | apps/server/src/roomSession.ts:158-181 | Whatever JSON a player's connection sends, the phase, roster, scores, seats, timers and every other player's entry stay as they were. |
| `Authority.OnlyTheHostMovesThePhase` | apps/server/src/roomSession.ts:164-174 | While a round runs nothing but the board's advance or abort moves its phase: no player, join, leave, timer or drain. |
| `Authority.OnlyTheBoardRunsTheRoom` | apps/server/src/roomSession.ts:141-156 | Whatever anybody but the board does, the room keeps its game, questions, round and phase, and closes only when the board's grace runs out. |
| `Secrecy.FramesHide` | apps/server/src/roomSession.ts:345-384 | Rooms that differ only in what B hides give every other viewer the same frame. |
| `Secrecy.SecretsMayDiffer` | apps/server/src/roomSession.ts:158-181 | Any two accepted submits, guesses of one card or votes of B are a step in which the two runs may differ. |
| `Secrecy.RunsStayTwins` | apps/server/src/roomSession.ts:345-384 | Non-interference over whole runs with joins, leaves, drops, resumes, timers and drains interleaved: as long as no stage is left while B's entries differ, the sessions differ only in what B hides and was shown. |
| `Secrecy.NobodyElseLearns` | apps/server/src/roomSession.ts:345-384 | From one session, two such runs send every connection that was never shown B's view exactly the same messages. |
| `HubLaws.RunKeepsInv` | apps/server/src/roomHub.ts:67-213 | Over every run across all rooms: a connection is in one room at most, every live session keeps its invariant, and the limits per server and per address hold. |
| `HubLaws.AClosedRoomIsForgotten` | apps/server/src/roomHub.ts:129-136 | A drained closed room is gone: its code is free, nobody is bound to it, its opener has one room less, and the session left has no member, timer or drain. |
| `HubLaws.TheSupersededAreUnbound` | apps/server/src/roomHub.ts:137 | A connection pushed out of its seat is bound to no room. |
| `Admission.OpeningMakesARoom` | apps/server/src/roomHub.ts:109-148 | A room is opened exactly for a connection in none, with the server and its address below their limits: empty, in the lobby, with that connection as its board, told the code and host token; otherwise the one refusal is answered and nothing else happens. |
| `Admission.JoiningReachesTheRoom` | apps/server/src/roomHub.ts:164-203 | A joiner in no room gets the seat the token names or a new one exactly with a visible nickname and such a token or a place; otherwise they are told which was missing and the room goes on. |
| `Admission.OnlyTheHostTokenBringsTheBoardBack` | apps/server/src/roomSession.ts:91-102 | A connection becomes the board, alone, exactly on the room's own host token; any other is answered BAD_HOST_TOKEN. |
| `Admission.TheSeatsRivalIsPushedOut` | apps/server/src/roomSession.ts:246-285 | Whoever holds the seat a token resumes is told SUPERSEDED, closed and attached no more. |
| `Admission.TheRivalBoardIsPushedOut` | apps/server/src/roomSession.ts:232-251 | So is a board that another takes over from. |
| `Admission.ADropStartsTheGrace` | apps/server/src/roomSession.ts:203-262 | A dropped connection is attached nowhere, its seat's three-minute reaper or its board's one-minute reaper is pending, and the room is as it was. |
| `Admission.NobodyAsksAgainInVain` | apps/web/src/transport/socket.ts:330-334 | Every handshake of a connection in no room either attaches it or is answered with an error on which a transport stops for good. |
| `Controls.EveryActionIsTaken` | apps/web/src/transport/socket.ts:137-142 | A transport that knows its room and has not ended takes exactly one message for an action, any other none. |
| `Controls.ConfigureReaches` | apps/web/src/transport/wire.ts:46-64 | From the board's tap to the room: between rounds a different question set becomes the room's, with round 0 and an empty tally; otherwise nothing changes. |
| `Controls.SelectReaches` | packages/core/src/room.ts:133-165 | Between rounds a registered game is selected: lobby, round 0, both books empty, the question set kept exactly if it was this game's; otherwise nothing changes. |
| `Controls.StartReaches` | packages/core/src/room.ts:182-211 | A round begins exactly with a registered game, enough players and questions left: one round on, the same people, the selected game in its first phase with nothing written, the next question of the set; otherwise nothing changes. |
| `Controls.EndReaches` | packages/core/src/room.ts:246-261 | In a round its scores are shown, the round as it stands; between rounds nothing changes. |
| `Controls.TheSavedSetIsAsked` | apps/server/src/roomEvents.ts:9-21 | A set saved between rounds, then Start: round 1 asks that set's first question. |
| `Controls.LeaveReaches` | apps/server/src/roomSession.ts:183-194 | The board's leave closes the room; a phone's takes exactly that player and their token out; the connection is attached no more. |
| `Controls.EventReaches` | apps/server/src/roomSession.ts:158-181 | In a round an event the app sends reaches the game's reducer as the app wrote it, stamped with the seat's player; one its sender may not send changes nothing. |
| `Controls.ATapIsRecorded` | apps/server/src/roomSession.ts:158-181 | From a phone to the record: an answer, a skip, a guess or a vote the round takes is what its state then holds for that player. |
| `RoomHubs.RoomHub.constructor` | apps/server/src/roomHub.ts:22-33 | A hub starts empty, with the games on offer registered, and keeps the invariant from the start. |
| `RoomHubs.RoomHub.Open` | apps/server/src/roomHub.ts:109-148 | The handler does what the hub without indices does, and keeps `sessionOf`, `openedBy` and `roomsPerAddress` exact. |
| `RoomHubs.RoomHub.JoinRoom` | apps/server/src/roomHub.ts:164-203 | Likewise for a join: bound only on a real one, the superseded unbound. |
| `RoomHubs.RoomHub.ResumeHostRoom` | apps/server/src/roomHub.ts:176-203 | Likewise for a host's return. |
| `RoomHubs.RoomHub.Leave` | apps/server/src/roomHub.ts:86-95 | Likewise for a leave: unbound before the session hears of it. |
| `RoomHubs.RoomHub.Disconnect` | apps/server/src/roomHub.ts:103-107 | Likewise for a dropped socket. |
| `RoomHubs.RoomHub.Play` | apps/server/src/roomHub.ts:205-212 | Likewise for a routed event: it acts in the bound room, whatever code it names. |
| `RoomHubs.RoomHub.ForgetOpener` | apps/server/src/roomHub.ts:150-162 | The address loses one room; a count that reaches zero is dropped. |
| `RoomHubs.RoomHub.Handle` | apps/server/src/roomHub.ts:67-100 | Every message is handled as the hub without indices would, with `sessionOf[c] = s` if and only if `c` is a member of `s` afterwards. |
| `RoomHubs.RoomHub.OnTimer` | apps/server/src/roomHub.ts:125-138 | A timer that fires belongs to a live session, never to one that closed. |
| `RoomHubs.RoomHub.OnMicrotask` | apps/server/src/roomHub.ts:125-138 | A drain that runs belongs to a live session, so `onClosed` runs once at most and removes its own code. |
| `SocketTransports.SocketTransport.Send` | apps/web/src/transport/socket.ts:137-142 | The method is the transition Client.Send on the whole transport and keeps its invariant. |
| `SocketTransports.SocketTransport.Connect` | apps/web/src/transport/socket.ts:145-165 | Likewise for a fresh socket and its connect timeout. |
| `SocketTransports.SocketTransport.ForceReconnect` | apps/web/src/transport/socket.ts:168-172 | Likewise for giving the current socket up. |
| `SocketTransports.SocketTransport.HandleOpen` | apps/web/src/transport/socket.ts:219-232 | Likewise for a socket that opens, with the loop that flushes the queue. |
| `SocketTransports.SocketTransport.HandleDrop` | apps/web/src/transport/socket.ts:249-268 | Likewise for a drop. |
| `SocketTransports.SocketTransport.HandleMessage` | apps/web/src/transport/socket.ts:284-345 | Likewise for whatever the server sends. |
| `SocketTransports.SocketTransport.Stop` | apps/web/src/transport/socket.ts:348-364 | Likewise for the end. |
| `SocketTransports.SocketTransport.OnTimer` | apps/web/src/transport/socket.ts:159-188 | The retry, the watchdog and the connect timeout follow their transitions and keep the invariant. |
| `SocketTransports.SocketTransport.OnVisible` | apps/web/src/transport/socket.ts:206-214 | Likewise for the page coming back into view, invariant kept. |
| `ClientLaws.RunKeepsInv` | apps/web/src/transport/socket.ts:93-386 | Over every run of browser, server, clock and screen events the transport keeps the invariant the following theorems read off. |
| `ClientLaws.OpenedLaws` | apps/web/src/transport/socket.ts:219-232 | A socket that opens is handed the handshake with the credentials heard last and then the whole queue. |
| `ClientTheorems.NeverStuckNeverDoubled` | apps/web/src/transport/socket.ts:93-107 | Started and not stopped, it is in exactly one of connecting, connected and waiting, with exactly one timer pending, and only the last socket may be alive. |
| `ClientTheorems.TimersLeadToAFreshSocket` | apps/web/src/transport/socket.ts:159-188 | Left to its timers a visible transport dials a fresh socket in at most two firings. |
| `ClientTheorems.TheLinkIsProbed` | apps/web/src/transport/socket.ts:174-247 | While connected, a tick pings the server, a page coming into view pings it and leaves it four seconds, and a watchdog firing on a hidden page is armed again for forty. |
| `ClientTheorems.BackInViewDialsAtOnce` | apps/web/src/transport/socket.ts:206-217 | While waiting for its retry, a page that comes into view or online dials a fresh socket at once. |
| `ClientTheorems.BackoffBounds` | apps/web/src/transport/socket.ts:259 | The wait doubles from 500 ms to 8000 ms and stays there from the fifth attempt on. |
| `ClientTheorems.StaleEventsChangeNothing` | apps/web/src/transport/socket.ts:148-156 | Events of a replaced or abandoned socket change nothing but that socket's own phase. |
| `ClientTheorems.TheEndIsFinal` | apps/web/src/transport/socket.ts:348-364 | After a terminal error or `dispose` no socket is created, nothing is handed to one, and `onTerminal` does not run again. |
| `ClientTheorems.TerminalAtMostOnce` | apps/web/src/transport/socket.ts:330-334 | `onTerminal` runs at most once, and only for a transport that has stopped. |
| `Admission.ATransportStopsOn` | apps/web/src/transport/socket.ts:330-334 | A running transport stops on exactly nine errors of the server and on no other. |
| `ClientTheorems.ExactlyOnceInOrder` | apps/web/src/transport/socket.ts:376-386 | The app messages handed to the sockets, one after the other, followed by the queue, are the accepted messages in order, over any number of reconnects. |
| `ClientTheorems.HandshakeFirst` | apps/web/src/transport/socket.ts:270-282 | On each socket the handshake goes first and once, with the latest credentials the server had issued; nothing goes to a connecting socket. |
| `Limits.TokenBucket.Take` | apps/server/src/socketServer.ts:222-237 | The method is the refill and withdrawal the following bounds are about. |
| `Limits.AcceptedIsBounded` | apps/server/src/socketServer.ts:221-237 | Over any stretch of a run, accepted messages are at most the burst plus perSecond times the time between its first and last message. |
| `Limits.AcceptedExactlyWithinBudget` | apps/server/src/socketServer.ts:221-237 | A message is accepted exactly when every stretch of the run up to it, back to any message or to the start, then stays within the burst plus what the rate granted in that time. |
| `Limits.SteadySendersAreNeverRefused` | apps/server/src/socketServer.ts:221-237 | With a burst of at least one, messages at least 1/perSecond apart are all accepted. |
| `Limits.SocketWire.OnMessage` | apps/server/src/socketServer.ts:195-214 | A message is handed on exactly when the bucket has a token; the notice goes out on the first refusal in a row, the close from the two-hundredth on. |
| `Limits.StreakIs` | apps/server/src/socketServer.ts:199-212 | The counter is at least n exactly when the last n messages were all refused. |
| `Limits.SocketCounts.OnConnection` | apps/server/src/socketServer.ts:87-97 | A socket is taken unless its address holds the maximum; the counters equal the open sockets per address. |
| `Limits.SocketCounts.OnClose` | apps/server/src/socketServer.ts:98-105 | The one close of a taken socket gives its place back. |

## Left out

- The wire schemas of `packages/protocol`: messages arrive parsed, game events as a JSON
  datatype; malformed input is a message the transport drops and the hub never sees.
- HTTP serving, static files, Nest wiring, heartbeats, the handshake deadline and
  `X-Forwarded-For` parsing: I/O and library behaviour.
- React components, the prompt editor, ranking display, storage in `factory.ts`, bots, the
  mock room and usage logging: they hold no state the properties are about.
- The listeners of the transport, the frame it keeps for new subscribers and the app's
  callbacks for fresh credentials: they only pass on what `heard` records.
- The order of keys in an object's JSON: objects are unordered maps here, so two configs
  that differ only in key order are the same set of questions, while the source's
  `JSON.stringify` comparison (room.ts:167-180) takes the second for a changed one.
- Two hashes that collide on equal texts: the order of their cards is then the order of
  submission, which no viewer can see, so nothing is claimed about it.
- Limits.AcceptedIsBounded: real arithmetic stands for floating point, so rounding is not
  modelled.
- The order in which one drain or one eviction goes through the members: what each
  connection receives, and in which order, does not depend on it.
- Games other than the two shipped: a registry holds games with the rules of one of the
  two, under any id and any bounds the platform allows.
- The delivery of messages: exactly-once is about what is handed to sockets; what a dying
  socket loses on the way is beyond both ends.
