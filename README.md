# imposter-game server core in Dafny

This project models the game server of *imposter-game*, a real-time party game. A host
creates a game and receives a six-character code. Other players join with that code.
Each round every player gets the same question except one randomly chosen imposter, who
gets a different one. Everybody answers by naming a player, then everybody votes on who
the imposter is. A correct vote earns 100 points.

The model covers three source files:

- `imposter-game/server.js`: the in-memory registry of games and sockets, the game
  record, the socket handlers (create, join, start, submit-answer, submit-vote, leave,
  disconnect) and the timer callbacks (round timer, voting timer, start delay,
  intermission).
- `imposter-game/src/lib/questions.ts`: the 20-question catalog and the two draws over
  it.
- `imposter-game/src/lib/game-utils.ts`: game-code generation, imposter selection, and
  the incorrect-vote case of `calculatePoints`.

## Layout

| file | module | what it holds |
|---|---|---|
| `wrappers.dfy` | `Wrappers` | `Option` |
| `shuffle.dfy` | `Shuffle` | the `sort(() => 0.5 - Math.random())` shuffle as an index permutation |
| `questions.dfy` | `Questions` | the catalog, `getRandomQuestionPair`, `getRandomQuestion` |
| `game_utils.dfy` | `GameUtils` | `generateGameCode` (a loop), `selectRandomImposters`, `calculatePoints` |
| `session.dfy` | `Session`, `SessionEvents` | the game record as a value, one transition function per operation, event runs |
| `session_props.dfy` | `SessionProps` | what each game operation promises, and what holds over any run of events |
| `game.dfy` | `ServerGame` | class `Game`: the mutable record, whose methods update its fields in place |
| `server_model.dfy` | `ServerModel` | the whole server (games map plus sockets) as a value, one function per handler and per timer |
| `server_props.dfy` | `ServerProps` | what each handler and timer promises about the whole server |
| `server.dfy` | `ServerRuntime` | class `Server`: the `games` map of `Game` objects and the socket set, with the handlers as methods |

The record's fields live twice, on purpose. Each method of `Game` and `Server` ensures
that its new state equals a pure function of its old state (`State()` for a game,
`Model()` for the server). The properties of those functions are then proved as lemmas,
so they also hold of the objects.

Randomness is an explicit input:

- A shuffle is a permutation `perm` of the list's indices, with `Shuffled(xs, perm)[i] == xs[perm[i]]`.
- `Math.floor(Math.random() * n)` is an index below `n`.
- The six draws of `generateGameCode` are six numbers below 36.

Timers are events that the environment may fire at any moment and in any order. This
admits every schedule the real server can produce, and more.

A submitted `playerId` is an `Option`: `None` stands for a payload without `playerId`,
which JavaScript reads as `undefined`.

## Model

| member | source | states |
|---|---|---|
| Shuffle.Shuffled | imposter-game/src/lib/game-utils.ts:27 | a shuffled copy has the same length, takes every entry from the input, and keeps a duplicate-free list duplicate-free |
| Shuffle.PermutationIsOnto | imposter-game/src/lib/questions.ts:38 | a permutation of n indices hits every index below n (pigeonhole), so the shuffle loses nothing |
| Shuffle.ShuffledKeepsEveryElement | imposter-game/src/lib/questions.ts:38 | every entry of the input is still in the shuffled copy |
| Questions.SampleQuestionsHaveDistinctIds | imposter-game/src/lib/questions.ts:3-24 | the catalog has 20 questions with pairwise distinct ids |
| Questions.Unused | imposter-game/src/lib/questions.ts:27 | a question survives the filter exactly when it is in the catalog and its id is not yet used; ids stay distinct |
| Questions.PairPool | imposter-game/src/lib/questions.ts:27-38 | the draw never fails: over a catalog of at least two questions the pool has at least two; it lies inside the catalog and keeps ids distinct; when at least two questions are unused it is exactly those, so it holds no used id; otherwise it is the whole catalog |
| Questions.PairFrom | imposter-game/server.js:39-55 | both questions come from the catalog and have different ids; when two or more are unused, neither has been used before |
| Questions.GetRandomQuestionPair | imposter-game/src/lib/questions.ts:26-43 | the same guarantees over the questions.ts catalog |
| Questions.QuestionPool | imposter-game/src/lib/questions.ts:46-50 | the pool for a single draw is never empty and lies inside the catalog |
| Questions.GetRandomQuestion | imposter-game/src/lib/questions.ts:45-52 | the drawn question is in the catalog, and it is unused whenever any catalog question is unused |
| Questions.AnyPairCanBeDrawn | imposter-game/src/lib/questions.ts:38-42 | every ordered pair of two different pool entries is the outcome of some shuffle |
| GameUtils.GenerateGameCode | imposter-game/src/lib/game-utils.ts:1-8 | the loop builds the code of the draws: six characters, each an upper-case letter or a digit |
| GameUtils.EveryCodeCanBeGenerated | imposter-game/server.js:30-37 | every six-character string over A-Z0-9 is produced by some draws |
| GameUtils.CalculatePoints | imposter-game/src/lib/game-utils.ts:10-24 | an incorrect vote earns 0; a correct one earns 100 plus the time bonus |
| GameUtils.SliceEnd | imposter-game/src/lib/game-utils.ts:28 | where `slice(0, count)` stops never passes the end of the list |
| GameUtils.SelectRandomImposters | imposter-game/src/lib/game-utils.ts:26-29 | returns min(count, n) ids for a non-negative count (a negative count drops that many from the end); all are player ids, with no repeats |
| GameUtils.AnyPlayerCanBeImposter | imposter-game/server.js:57-60 | any one player can come out as the single imposter |
| Session.IndexOf | imposter-game/server.js:119 | the index of the first roster entry with that id, or none when no entry has it |
| Session.FirstConnected | imposter-game/server.js:345 | the index of the first connected entry, or none when nobody is connected |
| Session.ActiveIds | imposter-game/server.js:153-154 | exactly the ids of the connected entries, without repeats when roster ids are distinct |
| SessionProps.CreatedGameIsLobby | imposter-game/server.js:86-113 | a new game is a lobby at round 0 whose only player is the connected host with no points; an absent or zero setting takes its default (5 rounds, 30000 ms, 20000 ms) |
| SessionProps.AddPlayerRules | imposter-game/server.js:115-133 | a known id is reconnected in place, with no second entry; a new id is appended with 0 points; the record stays well formed |
| SessionProps.JoinRules | imposter-game/server.js:242-247 | a join outside the lobby changes nothing; in the lobby it is `addPlayerToGame` |
| SessionProps.StartRules | imposter-game/server.js:275-285 | refused exactly when the requester is not the host or the roster has fewer than 3 entries; an accepted start enters the question phase from any phase |
| SessionProps.NewRoundRules | imposter-game/server.js:135-154 | the round number goes up by 1; answers and votes are emptied; two different catalog questions are appended to the used ids, unused ones when possible; the imposter is one connected player, or nobody if none is connected |
| SessionProps.RoundEndedRules | imposter-game/server.js:180-194 | exactly the entries whose vote equals `imposterIds[0]` gain 100 points; everything else is unchanged |
| SessionProps.OnlyFirstImposterScores | imposter-game/server.js:186-188 | a vote for the second imposter of a list earns nothing |
| SessionProps.UndefinedVoteMatchesMissingImposter | imposter-game/server.js:186-188 | with no imposter, a vote without `playerId` earns 100 points (`undefined === undefined`) |
| SessionProps.AnswerRules | imposter-game/server.js:297-308 | ignored outside the question phase; otherwise the sender's answer is recorded, and voting starts exactly when the answers reach the number of connected players |
| SessionProps.VoteRules | imposter-game/server.js:314-325 | ignored outside the voting phase; otherwise the sender's vote is recorded, and the round ends with scoring exactly when the votes reach the number of connected players |
| SessionProps.AnswersIgnoredOutsideQuestion | imposter-game/server.js:300 | any run of answers outside the question phase leaves the game unchanged |
| SessionProps.EveryoneAnsweredStartsVoting | imposter-game/server.js:305-308 | once every connected player has answered, in any order and with any resubmissions, the game is voting |
| SessionProps.VotesIgnoredOutsideVoting | imposter-game/server.js:317 | any run of votes outside the voting phase leaves the game unchanged |
| SessionProps.VotesScoreOnce | imposter-game/server.js:319-325 | after any run of votes the round is either still voting with every score untouched, or over with the roster scored exactly once, against the final votes |
| SessionProps.EveryoneVotedEndsRound | imposter-game/server.js:322-325 | once every connected player has voted, the round has ended |
| SessionProps.TimerGuards | imposter-game/server.js:159-177 | the round timer acts only in the question phase, the voting timer only in the voting phase, whatever round set them |
| SessionProps.EarlyVotingDisarmsRoundTimer | imposter-game/server.js:159-163 | a round timer that fires after all answers arrived changes nothing |
| SessionProps.IntermissionRules | imposter-game/server.js:198-204 | after the results the game finishes once `currentRound >= totalRounds`; otherwise the next round starts |
| SessionProps.LeaveRules | imposter-game/server.js:336-350 | the leaver is marked disconnected and keeps their entry; a leaving host is replaced by the first connected player, or stays host when nobody is connected |
| SessionProps.DisconnectRules | imposter-game/server.js:363-366 | the player is marked disconnected and the host is never reassigned |
| SessionProps.AnswerEvolves | imposter-game/server.js:297-308 | an answer keeps the record well formed and moves it only forwards |
| SessionProps.VoteEvolves | imposter-game/server.js:314-325 | a vote keeps the record well formed and moves it only forwards |
| SessionProps.TimersEvolve | imposter-game/server.js:159-177 | both phase timers keep the record well formed and move it only forwards |
| SessionProps.IntermissionEvolves | imposter-game/server.js:198-204 | the intermission keeps the record well formed and moves it only forwards |
| SessionProps.JoinEvolves | imposter-game/server.js:242-247 | a join keeps the record well formed and moves it only forwards |
| SessionProps.NewRoundEvolves | imposter-game/server.js:135-154 | a new round keeps the record well formed and moves it only forwards |
| SessionProps.LeaveEvolves | imposter-game/server.js:331-372 | leaving and disconnecting keep the record well formed and move it only forwards |
| SessionProps.StepEvolves | imposter-game/server.js:135-372 | every event keeps the record well formed and moves it only forwards |
| SessionProps.RunEvolves | imposter-game/server.js:135-372 | over any sequence of events: the host stays on the roster and no id appears twice; the code, round count and time limits are kept; no entry is removed and each keeps its id and name; no score decreases; the round never decreases; used question ids are only appended |
| SessionProps.RestartPassesTotalRounds | imposter-game/server.js:267-288 | the host of a finished game can start it again, and the next round exceeds `totalRounds` |
| ServerProps.ToUpperIsIdempotent | imposter-game/server.js:236 | upper-casing twice is the same as upper-casing once |
| ServerProps.GeneratedCodeIsUpperCase | imposter-game/server.js:30-37 | a generated code is six characters long and already upper case |
| ServerProps.JoinIgnoresCase | imposter-game/server.js:236-247 | join-game treats a code and its upper-case form the same |
| ServerProps.CreateRules | imposter-game/server.js:219-225 | a fresh lobby hosted by the sender is filed under the new code, replacing any game with that code; other games stay; the socket is registered |
| ServerProps.JoinRules | imposter-game/server.js:234-258 | "Game not found" exactly when no game has the upper-cased code; "Game already in progress" exactly outside the lobby, with nothing changed; otherwise only that game changes, the sender is on its roster, and the socket is registered |
| ServerProps.StartRules | imposter-game/server.js:267-288 | the three refusals happen exactly in their cases and change nothing; otherwise only that game moves to the question phase |
| ServerProps.AnswerRules | imposter-game/server.js:297-312 | only the addressed game changes; sockets stay |
| ServerProps.VoteRules | imposter-game/server.js:314-329 | only the addressed game changes; sockets stay |
| ServerProps.LeaveRules | imposter-game/server.js:331-355 | a sender not on the roster changes nothing; otherwise only that game changes and the socket is unregistered |
| ServerProps.DisconnectRules | imposter-game/server.js:357-372 | an unregistered socket changes nothing; otherwise the player is marked disconnected in every game, every host is kept, and the socket is unregistered |
| ServerProps.RoundTimerRules | imposter-game/server.js:159-163 | the round timer acts only on the game now filed under its code |
| ServerProps.VotingTimerRules | imposter-game/server.js:173-177 | the voting timer acts only on the game now filed under its code |
| ServerProps.StartDelayRules | imposter-game/server.js:288 | the start delay starts a round in the game under its code, whatever that game's phase |
| ServerProps.IntermissionRules | imposter-game/server.js:198-204 | the captured record's round count decides between ending and continuing the game now filed under the code |
| ServerProps.IntermissionOfOwnGame | imposter-game/server.js:198-204 | when the captured record is the filed game, the intermission timer is that game's own intermission step |
| Questions.SampleQuestions | imposter-game/src/lib/questions.ts:3-24 | definition: the catalog; its promises are proved in Questions.SampleQuestionsHaveDistinctIds |
| GameUtils.CodeOf | imposter-game/src/lib/game-utils.ts:1-8 | definition: the code a run of draws selects; GameUtils.GenerateGameCode is proved equal to it and GameUtils.EveryCodeCanBeGenerated shows it covers every code |
| Session.ServerQuestions | imposter-game/server.js:16-27 | definition: the server's own catalog, the first ten questions of questions.ts; its promises come from Questions.SampleQuestionsHaveDistinctIds |
| Session.OrDefault | imposter-game/server.js:99-107 | definition: `settings.x \|\| default`; its promises are proved in SessionProps.CreatedGameIsLobby |
| Session.NewGame | imposter-game/server.js:86-113 | definition: `createGameState`; its promises are proved in SessionProps.CreatedGameIsLobby |
| Session.PlayerAdded | imposter-game/server.js:115-133 | definition: `addPlayerToGame`; its promises are proved in SessionProps.AddPlayerRules |
| Session.Joined | imposter-game/server.js:242-247 | definition: the game part of join-game; its promises are proved in SessionProps.JoinRules |
| Session.StartRefusal | imposter-game/server.js:275-283 | definition: the refusals of start-game; its promises are proved in SessionProps.StartRules |
| Session.Started | imposter-game/server.js:285 | definition: an accepted start; its promises are proved in SessionProps.StartRules |
| Session.RoundQuestions | imposter-game/server.js:145 | definition: the question pair a round draws; its promises are proved in SessionProps.NewRoundRules |
| Session.RoundImposters | imposter-game/server.js:153-154 | definition: the imposters a round draws; its promises are proved in SessionProps.NewRoundRules |
| Session.RoundOpened | imposter-game/server.js:139-154 | definition: the field updates of `startNewRound`; its promises are proved in SessionProps.NewRoundRules |
| Session.NewRound | imposter-game/server.js:135-154 | definition: `startNewRound`; its promises are proved in SessionProps.NewRoundRules and SessionProps.NewRoundEvolves |
| Session.VotingStarted | imposter-game/server.js:166-171 | definition: `startVoting`; its promises are proved in SessionProps.AnswerRules and SessionProps.TimerGuards |
| Session.ImposterTarget | imposter-game/server.js:186 | definition: `imposterIds[0]`, undefined for an empty list; its promises are proved in SessionProps.UndefinedVoteMatchesMissingImposter |
| Session.Award | imposter-game/server.js:187-193 | definition: one roster entry after scoring; its promises are proved in SessionProps.RoundEndedRules |
| Session.ScoreRound | imposter-game/server.js:186-194 | definition: the scoring pass; its promises are proved in SessionProps.RoundEndedRules and SessionProps.OnlyFirstImposterScores |
| Session.RoundEnded | imposter-game/server.js:180-194 | definition: `endRound`; its promises are proved in SessionProps.RoundEndedRules |
| Session.GameEnded | imposter-game/server.js:207-212 | definition: `endGame`; its promises are proved in SessionProps.IntermissionRules |
| Session.AnswerSubmitted | imposter-game/server.js:299-308 | definition: submit-answer on one game; its promises are proved in SessionProps.AnswerRules and SessionProps.EveryoneAnsweredStartsVoting |
| Session.VoteSubmitted | imposter-game/server.js:316-325 | definition: submit-vote on one game; its promises are proved in SessionProps.VoteRules and SessionProps.VotesScoreOnce |
| Session.RoundTimerFired | imposter-game/server.js:159-163 | definition: the round timer's callback; its promises are proved in SessionProps.TimerGuards |
| Session.VotingTimerFired | imposter-game/server.js:173-177 | definition: the voting timer's callback; its promises are proved in SessionProps.TimerGuards |
| Session.IntermissionFired | imposter-game/server.js:198-204 | definition: the callback after the results; its promises are proved in SessionProps.IntermissionRules |
| Session.PlayerLeft | imposter-game/server.js:336-350 | definition: leave-game on one game; its promises are proved in SessionProps.LeaveRules |
| Session.PlayerDisconnected | imposter-game/server.js:363-366 | definition: disconnect on one game; its promises are proved in SessionProps.DisconnectRules |
| ServerModel.GameCreated | imposter-game/server.js:219-225 | definition: create-game on the server; its promises are proved in ServerProps.CreateRules |
| ServerModel.JoinRefusal | imposter-game/server.js:236-245 | definition: the refusals of join-game; its promises are proved in ServerProps.JoinRules and ServerProps.JoinIgnoresCase |
| ServerModel.GameJoined | imposter-game/server.js:234-258 | definition: join-game on the server; its promises are proved in ServerProps.JoinRules |
| ServerModel.StartRefusalAt | imposter-game/server.js:269-283 | definition: the refusals of start-game; its promises are proved in ServerProps.StartRules |
| ServerModel.GameStarted | imposter-game/server.js:267-288 | definition: start-game on the server; its promises are proved in ServerProps.StartRules |
| ServerModel.AnswerGiven | imposter-game/server.js:297-312 | definition: submit-answer on the server; its promises are proved in ServerProps.AnswerRules |
| ServerModel.VoteGiven | imposter-game/server.js:314-329 | definition: submit-vote on the server; its promises are proved in ServerProps.VoteRules |
| ServerModel.LeaverFound | imposter-game/server.js:333-337 | definition: whether leave-game finds the sender; used by ServerProps.LeaveRules |
| ServerModel.GameLeft | imposter-game/server.js:331-355 | definition: leave-game on the server; its promises are proved in ServerProps.LeaveRules |
| ServerModel.Registered | imposter-game/server.js:360-361 | definition: whether disconnect finds the socket; used by ServerProps.DisconnectRules |
| ServerModel.Disconnected | imposter-game/server.js:357-372 | definition: disconnect on the server; its promises are proved in ServerProps.DisconnectRules |
| ServerModel.RoundTimerAt | imposter-game/server.js:159-163 | definition: the round timer on the server; its promises are proved in ServerProps.RoundTimerRules |
| ServerModel.VotingTimerAt | imposter-game/server.js:173-177 | definition: the voting timer on the server; its promises are proved in ServerProps.VotingTimerRules |
| ServerModel.StartDelayAt | imposter-game/server.js:288 | definition: the start delay on the server; its promises are proved in ServerProps.StartDelayRules |
| ServerModel.IntermissionAt | imposter-game/server.js:198-204 | definition: the intermission on the server; its promises are proved in ServerProps.IntermissionRules and ServerProps.IntermissionOfOwnGame |
| ServerModel.ToUpper | imposter-game/server.js:236 | no lower-case ASCII letter remains; every other character is kept; letters move by 32 code points |
| ServerGame.Game.constructor | imposter-game/server.js:86-109 | the new record is `NewGame` of its arguments |
| ServerGame.Game.AddPlayer | imposter-game/server.js:115-133 | the record becomes `PlayerAdded` of the old one and stays well formed |
| ServerGame.Game.Start | imposter-game/server.js:275-285 | returns the refusal of the old record and leaves it `Started` |
| ServerGame.Game.StartNewRound | imposter-game/server.js:135-154 | the record becomes `NewRound` of the old one |
| ServerGame.Game.OpenRound | imposter-game/server.js:139-154 | the field updates of a new round, for a drawn pair and imposter list |
| ServerGame.Game.StartVoting | imposter-game/server.js:166-171 | the record becomes `VotingStarted` of the old one |
| ServerGame.Game.EndRound | imposter-game/server.js:180-194 | the loop over the votes leaves the record `RoundEnded`, in whatever order it visits them |
| ServerGame.Game.EndGame | imposter-game/server.js:207-212 | the record becomes `GameEnded` of the old one |
| ServerGame.Game.SubmitAnswer | imposter-game/server.js:299-308 | the record becomes `AnswerSubmitted` of the old one |
| ServerGame.Game.SubmitVote | imposter-game/server.js:316-325 | the record becomes `VoteSubmitted` of the old one |
| ServerGame.Game.Leave | imposter-game/server.js:336-350 | reports whether the sender was on the roster and leaves the record `PlayerLeft` |
| ServerGame.Game.MarkDisconnected | imposter-game/server.js:363-366 | the record becomes `PlayerDisconnected` of the old one |
| ServerRuntime.Server.constructor | imposter-game/server.js:12-13 | the server starts with no games and no sockets |
| ServerRuntime.Server.OnCreateGame | imposter-game/server.js:219-225 | the server becomes `GameCreated`; the new object is filed under its code |
| ServerRuntime.Server.OnJoinGame | imposter-game/server.js:234-258 | returns `JoinRefusal` and leaves the server `GameJoined` |
| ServerRuntime.Server.OnStartGame | imposter-game/server.js:267-288 | returns `StartRefusalAt` and leaves the server `GameStarted` |
| ServerRuntime.Server.OnSubmitAnswer | imposter-game/server.js:297-312 | the server becomes `AnswerGiven` |
| ServerRuntime.Server.OnSubmitVote | imposter-game/server.js:314-329 | the server becomes `VoteGiven` |
| ServerRuntime.Server.OnLeaveGame | imposter-game/server.js:331-355 | the server becomes `GameLeft` |
| ServerRuntime.Server.DisconnectEverywhere | imposter-game/server.js:362-368 | the loop over the games marks the player disconnected in each of them |
| ServerRuntime.Server.OnDisconnect | imposter-game/server.js:357-372 | the server becomes `Disconnected` |
| ServerRuntime.Server.OnRoundTimer | imposter-game/server.js:159-163 | the server becomes `RoundTimerAt` |
| ServerRuntime.Server.OnVotingTimer | imposter-game/server.js:173-177 | the server becomes `VotingTimerAt` |
| ServerRuntime.Server.OnStartDelay | imposter-game/server.js:288 | the server becomes `StartDelayAt` |
| ServerRuntime.Server.OnIntermission | imposter-game/server.js:198-204 | the server becomes `IntermissionAt` for the record the callback captured |

The model follows `server.js` as written, including these behaviours a reader might not
expect:

- start-game has no phase check, so a running or finished game can be started again.
- start-game counts every roster entry, connected or not.
- The timers check only the phase, not the round that set them.
- disconnect never reassigns the host.
- Scoring compares votes with `imposterIds[0]` only.
- Answers and votes are keyed by the sender, with no roster check.
- A code collision silently replaces the older game.
- The server uses its own copy of the first ten catalog questions (server.js:16-27), not
  the questions.ts catalog.

## Left out

- HTTP serving, Next.js, CORS, socket.io rooms and every emitted event (`game-created`, `round-started`, `error`, ...): they are output only. A refusal is returned as a `Failure` instead of an `error` message.
- Logging and the `try`/`catch` blocks around handlers: a payload that makes JavaScript throw (a missing `gameCode`, `settings: null`, a non-string field) is not modelled; payload fields are typed values.
- Real time: timers are events the environment fires in any order. Pending timers are not tracked, so the model also admits schedules that real delays rule out.
- GameUtils.CalculatePoints: the floating-point time bonus `Math.floor((1 - responseTime / maxTime) * 50)` is a parameter, and the server never calls `calculatePoints`.
- ServerModel.ToUpper: only ASCII letters are upper-cased; JavaScript's full Unicode `toUpperCase` (for example `ß` becoming `SS`) is not modelled.
- Session.OrDefault: only absent and zero settings count as falsy; `NaN`, `false` and the empty string are not modelled as setting values.
- `Math.random` itself: every shuffle is an arbitrary permutation. The bias of `sort(() => 0.5 - Math.random())` is not modelled.
- The `id` field of the game record duplicates `code` (server.js:89) and is not kept separately.
- `src/types/game.ts` and the client components are not part of this model.
