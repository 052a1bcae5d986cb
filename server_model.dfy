/**
 * The whole server of imposter-game/server.js as a value: the `games` map from game code to
 * game record and the `playerSockets` registry (server.js:12-13), with one function per
 * socket handler (server.js:219-372) and one per timer callback (server.js:159-163,
 * 173-177, 198-204, 288). A handler's payload fields are parameters; the sender is the
 * socket id, which is also the player id.
 */
module ServerModel {
  import opened Wrappers
  import GameUtils
  import opened Session

  /** `playerSockets` maps every registered socket id to itself, so a set of ids holds it. */
  datatype ServerState = ServerState(games: map<string, GameState>, sockets: set<PlayerId>)

  /** Every game is filed under its own code and is well formed. */
  predicate ServerWf(st: ServerState) {
    forall c :: c in st.games ==> st.games[c].code == c && Session.Wf(st.games[c])
  }

  /** Only the game filed under `code` may differ; no game appears or disappears. */
  predicate OthersUntouched(st: ServerState, t: ServerState, code: string) {
    && t.games.Keys == st.games.Keys
    && forall c :: c in st.games && c != code ==> t.games[c] == st.games[c]
  }

  // ---------------------------------------------------------------- upper case

  /** `toUpperCase` on one character, for the ASCII letters. */
  function UpperChar(c: char): char {
    if 'a' <= c <= 'z' then (c as int - 32) as char else c
  }

  /** `toUpperCase` on a string, character by character: no lower-case ASCII letter is
      left, and every other character is kept. */
  function ToUpper(s: string): (r: string)
    ensures |r| == |s|
    ensures forall i :: 0 <= i < |s| ==> !('a' <= r[i] <= 'z')
    ensures forall i :: 0 <= i < |s| && !('a' <= s[i] <= 'z') ==> r[i] == s[i]
    ensures forall i :: 0 <= i < |s| && 'a' <= s[i] <= 'z' ==> r[i] as int == s[i] as int - 32
  {
    if s == [] then [] else [UpperChar(s[0])] + ToUpper(s[1..])
  }

  /** Puts `g` under `code`. */
  function Update(st: ServerState, code: string, g: GameState): ServerState {
    st.(games := st.games[code := g])
  }

  // ---------------------------------------------------------------- handlers

  /** create-game: a new lobby under the drawn code, replacing any game that already had
      that code, and the sender's socket registered. */
  function GameCreated(st: ServerState, sender: PlayerId, playerName: string, settings: Settings,
                       draws: seq<nat>): ServerState
    requires GameUtils.ValidDraws(draws)
  {
    var code := GameUtils.CodeOf(draws);
    ServerState(st.games[code := NewGame(code, sender, playerName, settings)], st.sockets + {sender})
  }

  /** Why join-game refuses, looking the game up by the upper-cased code. */
  function JoinRefusal(st: ServerState, rawCode: string): Option<Failure> {
    var code := ToUpper(rawCode);
    if code !in st.games then Some(GameNotFound)
    else if st.games[code].phase != Lobby then Some(GameInProgress)
    else None
  }

  /** join-game. */
  function GameJoined(st: ServerState, sender: PlayerId, rawCode: string, playerName: string): ServerState {
    var code := ToUpper(rawCode);
    if JoinRefusal(st, rawCode).Some? then st
    else ServerState(st.games[code := PlayerAdded(st.games[code], sender, playerName)], st.sockets + {sender})
  }

  /** Why start-game refuses; the game id is used as given. */
  function StartRefusalAt(st: ServerState, sender: PlayerId, gameId: string): Option<Failure> {
    if gameId !in st.games then Some(GameNotFound) else StartRefusal(st.games[gameId], sender)
  }

  /** start-game. */
  function GameStarted(st: ServerState, sender: PlayerId, gameId: string): ServerState {
    if gameId !in st.games then st else Update(st, gameId, Started(st.games[gameId], sender))
  }

  /** submit-answer. */
  function AnswerGiven(st: ServerState, sender: PlayerId, gameId: string, choice: Choice): ServerState {
    if gameId !in st.games then st else Update(st, gameId, AnswerSubmitted(st.games[gameId], sender, choice))
  }

  /** submit-vote. */
  function VoteGiven(st: ServerState, sender: PlayerId, gameId: string, choice: Choice): ServerState {
    if gameId !in st.games then st else Update(st, gameId, VoteSubmitted(st.games[gameId], sender, choice))
  }

  /** Whether leave-game finds the sender on the roster of the game. */
  predicate LeaverFound(st: ServerState, sender: PlayerId, gameId: string) {
    gameId in st.games && IndexOf(st.games[gameId].players, sender).Some?
  }

  /** leave-game: only a sender on the roster leaves, and only then is the socket
      unregistered. */
  function GameLeft(st: ServerState, sender: PlayerId, gameId: string): ServerState {
    if !LeaverFound(st, sender, gameId) then st
    else ServerState(st.games[gameId := PlayerLeft(st.games[gameId], sender)], st.sockets - {sender})
  }

  /** Whether disconnect finds a registered socket: `playerSockets.get` gives the id itself,
      which is falsy only when empty. */
  predicate Registered(st: ServerState, sender: PlayerId) {
    sender in st.sockets && sender != ""
  }

  /** disconnect: a registered socket's player is marked disconnected in every game. */
  function Disconnected(st: ServerState, sender: PlayerId): ServerState {
    if !Registered(st, sender) then st
    else ServerState(map c | c in st.games :: PlayerDisconnected(st.games[c], sender), st.sockets - {sender})
  }

  // ---------------------------------------------------------------- timers

  /** The round timer of the game filed under `code`. */
  function RoundTimerAt(st: ServerState, code: string): ServerState {
    if code !in st.games then st else Update(st, code, RoundTimerFired(st.games[code]))
  }

  /** The voting timer of the game filed under `code`. */
  function VotingTimerAt(st: ServerState, code: string): ServerState {
    if code !in st.games then st else Update(st, code, VotingTimerFired(st.games[code]))
  }

  /** The one-second timer set by start-game: `startNewRound` with no phase check. */
  function StartDelayAt(st: ServerState, code: string, qperm: seq<nat>, iperm: seq<nat>): ServerState
    requires code in st.games ==> RoundShufflesFit(st.games[code], qperm, iperm)
  {
    if code !in st.games then st else Update(st, code, NewRound(st.games[code], qperm, iperm))
  }

  /** The three-second timer set by `endRound`: the record `captured` the callback closed
      over decides between `endGame` and `startNewRound`, which act on whatever game is
      filed under `code` when the timer fires. */
  function IntermissionAt(st: ServerState, code: string, captured: GameState, qperm: seq<nat>, iperm: seq<nat>): ServerState
    requires code in st.games && captured.currentRound < captured.totalRounds ==>
               RoundShufflesFit(st.games[code], qperm, iperm)
  {
    if code !in st.games then st
    else if captured.currentRound >= captured.totalRounds then Update(st, code, GameEnded(st.games[code]))
    else Update(st, code, NewRound(st.games[code], qperm, iperm))
  }
}
