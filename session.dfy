/**
 * The per-game session of imposter-game/server.js as values: the game record
 * (server.js:88-109, the GameState of src/types/game.ts) and one function per operation
 * that changes it, giving the record after the operation from the record before.
 * The Game class of module Server performs the same operations in place and is proved
 * to end in exactly these states.
 */
module Session {
  import opened Wrappers
  import opened Shuffle
  import Questions
  import GameUtils

  /** A player is identified by the id of their socket connection. */
  type PlayerId = string

  /** The `playerId` field of a submit-answer or submit-vote payload; `None` is a payload
      without that field, which JavaScript reads as `undefined`. */
  type Choice = Option<PlayerId>

  datatype Player = Player(id: PlayerId, name: string, score: nat, isConnected: bool)

  datatype Phase = Lobby | Question | Voting | Results | Finished

  /** The optional settings of a create-game request; an absent field is `None`. */
  datatype Settings = Settings(totalRounds: Option<int>, roundTimeLimit: Option<int>, votingTimeLimit: Option<int>)

  /** Why a join-game or start-game request is refused. */
  datatype Failure = GameNotFound | GameInProgress | OnlyHostCanStart | NeedMorePlayers

  const DefaultTotalRounds: int := 5
  const DefaultRoundTimeLimit: int := 30000
  const DefaultVotingTimeLimit: int := 20000
  const PointsPerCorrectVote: nat := 100
  const MinPlayersToStart: nat := 3

  /** The server's own catalog (server.js:16-27), the first ten questions of questions.ts. */
  function ServerQuestions(): seq<Questions.Question> {
    Questions.SampleQuestions()[..10]
  }

  datatype GameState = GameState(
    code: string,
    players: seq<Player>,
    hostId: PlayerId,
    currentRound: nat,
    totalRounds: int,
    phase: Phase,
    currentQuestion: Option<Questions.Question>,
    imposterQuestion: Option<Questions.Question>,
    answers: map<PlayerId, Choice>,
    votes: map<PlayerId, Choice>,
    imposterIds: seq<PlayerId>,
    roundTimeLimit: int,
    votingTimeLimit: int,
    usedQuestionIds: seq<string>)

  /** No two roster entries share an id. */
  predicate DistinctIds(ps: seq<Player>) {
    forall i, j :: 0 <= i < j < |ps| ==> ps[i].id != ps[j].id
  }

  /** `players.find(p => p.id === id)`, as the index of the first match. */
  function IndexOf(ps: seq<Player>, id: PlayerId): (r: Option<nat>)
    ensures r.Some? ==> r.value < |ps| && ps[r.value].id == id
    ensures r.Some? ==> forall j :: 0 <= j < r.value ==> ps[j].id != id
    ensures r.None? ==> forall j :: 0 <= j < |ps| ==> ps[j].id != id
  {
    if ps == [] then None
    else if ps[0].id == id then Some(0)
    else match IndexOf(ps[1..], id)
      case None => None
      case Some(k) => Some(k + 1)
  }

  /** `players.find(p => p.isConnected)`, as the index of the first match. */
  function FirstConnected(ps: seq<Player>): (r: Option<nat>)
    ensures r.Some? ==> r.value < |ps| && ps[r.value].isConnected
    ensures r.Some? ==> forall j :: 0 <= j < r.value ==> !ps[j].isConnected
    ensures r.None? ==> forall j :: 0 <= j < |ps| ==> !ps[j].isConnected
  {
    if ps == [] then None
    else if ps[0].isConnected then Some(0)
    else match FirstConnected(ps[1..])
      case None => None
      case Some(k) => Some(k + 1)
  }

  /** `players.filter(p => p.isConnected).map(p => p.id)`: the connected players in roster
      order. Its length is the "everyone has submitted" threshold. */
  function ActiveIds(ps: seq<Player>): (r: seq<PlayerId>)
    ensures |r| <= |ps|
    ensures forall i :: 0 <= i < |ps| && ps[i].isConnected ==> ps[i].id in r
    ensures forall x :: x in r ==> exists i :: 0 <= i < |ps| && ps[i].id == x && ps[i].isConnected
    ensures DistinctIds(ps) ==> NoDup(r)
  {
    if ps == [] then []
    else
      var rest := ActiveIds(ps[1..]);
      assert DistinctIds(ps) ==> DistinctIds(ps[1..]) && forall x :: x in rest ==> x != ps[0].id by {
        if DistinctIds(ps) {
          forall x | x in rest ensures x != ps[0].id {
            var i :| 0 <= i < |ps[1..]| && ps[1..][i].id == x && ps[1..][i].isConnected;
            assert ps[i + 1].id == x;
          }
        }
      }
      if ps[0].isConnected then
        assert DistinctIds(ps) ==> NoDup([ps[0].id] + rest) by {
          if DistinctIds(ps) { NoDupCons(ps[0].id, rest); }
        }
        [ps[0].id] + rest
      else rest
  }

  /** The roster with the connectivity flag of entry `i` set to `b`. */
  function SetConnected(ps: seq<Player>, i: nat, b: bool): seq<Player>
    requires i < |ps|
  {
    ps[i := ps[i].(isConnected := b)]
  }

  /** `settings.x || d`: an absent or zero setting takes the default. */
  function OrDefault(o: Option<int>, d: int): int {
    if o.Some? && o.value != 0 then o.value else d
  }

  /** The record made by `createGameState`. */
  function NewGame(code: string, hostId: PlayerId, hostName: string, settings: Settings): GameState {
    GameState(
      code := code,
      players := [Player(hostId, hostName, 0, true)],
      hostId := hostId,
      currentRound := 0,
      totalRounds := OrDefault(settings.totalRounds, DefaultTotalRounds),
      phase := Lobby,
      currentQuestion := None,
      imposterQuestion := None,
      answers := map[],
      votes := map[],
      imposterIds := [],
      roundTimeLimit := OrDefault(settings.roundTimeLimit, DefaultRoundTimeLimit),
      votingTimeLimit := OrDefault(settings.votingTimeLimit, DefaultVotingTimeLimit),
      usedQuestionIds := [])
  }

  /** The well-formedness every reachable record has: a non-empty roster without duplicate
      ids whose members include the host. */
  predicate Wf(s: GameState) {
    && |s.players| >= 1
    && DistinctIds(s.players)
    && IndexOf(s.players, s.hostId).Some?
  }

  /** `addPlayerToGame`: a known id is marked connected again, a new id is appended. */
  function PlayerAdded(s: GameState, id: PlayerId, name: string): GameState {
    match IndexOf(s.players, id)
    case Some(i) => s.(players := SetConnected(s.players, i, true))
    case None => s.(players := s.players + [Player(id, name, 0, true)])
  }

  /** The join-game handler once the code is found: only a game in the lobby is joined. */
  function Joined(s: GameState, id: PlayerId, name: string): GameState {
    if s.phase == Lobby then PlayerAdded(s, id, name) else s
  }

  /** The checks of the start-game handler, in its order: host first, then roster size
      (disconnected entries included). There is no phase check. */
  function StartRefusal(s: GameState, requester: PlayerId): Option<Failure> {
    if s.hostId != requester then Some(OnlyHostCanStart)
    else if |s.players| < MinPlayersToStart then Some(NeedMorePlayers)
    else None
  }

  /** The start-game handler once the code is found. */
  function Started(s: GameState, requester: PlayerId): GameState {
    if StartRefusal(s, requester).None? then s.(phase := Question) else s
  }

  /** The random inputs of `startNewRound` fit this record: one permutation of the
      question pool, one of the connected players. */
  predicate RoundShufflesFit(s: GameState, qperm: seq<nat>, iperm: seq<nat>) {
    && IsPermutation(qperm, |Questions.PairPool(ServerQuestions(), s.usedQuestionIds)|)
    && IsPermutation(iperm, |ActiveIds(s.players)|)
  }

  /** The two questions `startNewRound` draws for this record. */
  function RoundQuestions(s: GameState, qperm: seq<nat>): Questions.QuestionPair
    requires IsPermutation(qperm, |Questions.PairPool(ServerQuestions(), s.usedQuestionIds)|)
  {
    Questions.SampleQuestionsHaveDistinctIds();
    Questions.PairFrom(ServerQuestions(), s.usedQuestionIds, qperm)
  }

  /** The imposters `startNewRound` draws among the connected players. */
  function RoundImposters(s: GameState, iperm: seq<nat>): seq<PlayerId>
    requires IsPermutation(iperm, |ActiveIds(s.players)|)
  {
    GameUtils.SelectRandomImposters(ActiveIds(s.players), GameUtils.DefaultImposterCount, iperm)
  }

  /** The record a new round starts from, given its question pair and imposters. */
  function RoundOpened(s: GameState, pair: Questions.QuestionPair, chosen: seq<PlayerId>): GameState {
    s.(currentRound := s.currentRound + 1,
       phase := Question,
       answers := map[],
       votes := map[],
       currentQuestion := Some(pair.mainQuestion),
       imposterQuestion := Some(pair.imposterQuestion),
       usedQuestionIds := s.usedQuestionIds + [pair.mainQuestion.id, pair.imposterQuestion.id],
       imposterIds := chosen)
  }

  /** `startNewRound`. */
  function NewRound(s: GameState, qperm: seq<nat>, iperm: seq<nat>): GameState
    requires RoundShufflesFit(s, qperm, iperm)
  {
    RoundOpened(s, RoundQuestions(s, qperm), RoundImposters(s, iperm))
  }

  /** `startVoting`. */
  function VotingStarted(s: GameState): GameState {
    s.(phase := Voting)
  }

  /** `imposterIds[0]`, which is `undefined` for an empty list. */
  function ImposterTarget(imposterIds: seq<PlayerId>): Choice {
    if |imposterIds| == 0 then None else Some(imposterIds[0])
  }

  /** A roster entry after scoring: 100 more points if its vote names the target. */
  function Award(p: Player, votes: map<PlayerId, Choice>, target: Choice): Player {
    if p.id in votes && votes[p.id] == target then p.(score := p.score + PointsPerCorrectVote) else p
  }

  function ScoreRound(ps: seq<Player>, votes: map<PlayerId, Choice>, target: Choice): seq<Player> {
    seq(|ps|, i requires 0 <= i < |ps| => Award(ps[i], votes, target))
  }

  /** `endRound`. */
  function RoundEnded(s: GameState): GameState {
    s.(phase := Results, players := ScoreRound(s.players, s.votes, ImposterTarget(s.imposterIds)))
  }

  /** `endGame`. */
  function GameEnded(s: GameState): GameState {
    s.(phase := Finished)
  }

  /** The submit-answer handler once the code is found. */
  function AnswerSubmitted(s: GameState, sender: PlayerId, choice: Choice): GameState {
    if s.phase != Question then s
    else
      var s1 := s.(answers := s.answers[sender := choice]);
      if |s1.answers| >= |ActiveIds(s1.players)| then VotingStarted(s1) else s1
  }

  /** The submit-vote handler once the code is found. */
  function VoteSubmitted(s: GameState, sender: PlayerId, choice: Choice): GameState {
    if s.phase != Voting then s
    else
      var s1 := s.(votes := s.votes[sender := choice]);
      if |s1.votes| >= |ActiveIds(s1.players)| then RoundEnded(s1) else s1
  }

  /** The round timer at firing time. */
  function RoundTimerFired(s: GameState): GameState {
    if s.phase == Question then VotingStarted(s) else s
  }

  /** The voting timer at firing time. */
  function VotingTimerFired(s: GameState): GameState {
    if s.phase == Voting then RoundEnded(s) else s
  }

  /** The intermission timer of `endRound`, when the game it looks at is this one. */
  function IntermissionFired(s: GameState, qperm: seq<nat>, iperm: seq<nat>): GameState
    requires s.currentRound < s.totalRounds ==> RoundShufflesFit(s, qperm, iperm)
  {
    if s.currentRound >= s.totalRounds then GameEnded(s) else NewRound(s, qperm, iperm)
  }

  /** The leave-game handler once the code is found. */
  function PlayerLeft(s: GameState, id: PlayerId): GameState {
    match IndexOf(s.players, id)
    case None => s
    case Some(i) =>
      var ps := SetConnected(s.players, i, false);
      var host :=
        if s.hostId != id then s.hostId
        else match FirstConnected(ps)
          case Some(j) => ps[j].id
          case None => s.hostId;
      s.(players := ps, hostId := host)
  }

  /** The part of the disconnect handler that concerns one game. */
  function PlayerDisconnected(s: GameState, id: PlayerId): GameState {
    match IndexOf(s.players, id)
    case None => s
    case Some(i) => s.(players := SetConnected(s.players, i, false))
  }
}

/**
 * The events a single game reacts to: the socket handlers after the code lookup, and the
 * timers, which the environment fires at times of its choosing. A timer is not tied to
 * the round that scheduled it, as in server.js, so any interleaving of events is allowed.
 */
module SessionEvents {
  import opened Shuffle
  import opened Session

  datatype Event =
    | JoinEvent(id: PlayerId, name: string)
    | StartEvent(requester: PlayerId)
    | StartDelayEvent(qperm: seq<nat>, iperm: seq<nat>)
    | AnswerEvent(answerer: PlayerId, answer: Choice)
    | VoteEvent(voter: PlayerId, vote: Choice)
    | RoundTimerEvent
    | VotingTimerEvent
    | IntermissionEvent(nextQperm: seq<nat>, nextIperm: seq<nat>)
    | LeaveEvent(leaver: PlayerId)
    | DisconnectEvent(lost: PlayerId)

  /** The random inputs an event carries fit the record it is applied to. */
  predicate Fits(s: GameState, e: Event) {
    match e
    case StartDelayEvent(q, i) => RoundShufflesFit(s, q, i)
    case IntermissionEvent(q, i) => s.currentRound < s.totalRounds ==> RoundShufflesFit(s, q, i)
    case _ => true
  }

  function Apply(s: GameState, e: Event): GameState
    requires Fits(s, e)
  {
    match e
    case JoinEvent(id, name) => Joined(s, id, name)
    case StartEvent(requester) => Started(s, requester)
    case StartDelayEvent(q, i) => NewRound(s, q, i)
    case AnswerEvent(sender, choice) => AnswerSubmitted(s, sender, choice)
    case VoteEvent(sender, choice) => VoteSubmitted(s, sender, choice)
    case RoundTimerEvent => RoundTimerFired(s)
    case VotingTimerEvent => VotingTimerFired(s)
    case IntermissionEvent(q, i) => IntermissionFired(s, q, i)
    case LeaveEvent(id) => PlayerLeft(s, id)
    case DisconnectEvent(id) => PlayerDisconnected(s, id)
  }

  predicate RunFits(s: GameState, es: seq<Event>)
    decreases |es|
  {
    es == [] || (Fits(s, es[0]) && RunFits(Apply(s, es[0]), es[1..]))
  }

  /** The record after the events `es`, in order. */
  function Run(s: GameState, es: seq<Event>): GameState
    requires RunFits(s, es)
    decreases |es|
  {
    if es == [] then s else Run(Apply(s, es[0]), es[1..])
  }

  /** One submission of a submit-answer or submit-vote request. */
  datatype Submission = Submission(sender: PlayerId, choice: Choice)

  predicate Submits(subs: seq<Submission>, x: PlayerId) {
    exists i :: 0 <= i < |subs| && subs[i].sender == x
  }

  function AnswerRun(s: GameState, subs: seq<Submission>): GameState
    decreases |subs|
  {
    if subs == [] then s else AnswerRun(AnswerSubmitted(s, subs[0].sender, subs[0].choice), subs[1..])
  }

  function VoteRun(s: GameState, subs: seq<Submission>): GameState
    decreases |subs|
  {
    if subs == [] then s else VoteRun(VoteSubmitted(s, subs[0].sender, subs[0].choice), subs[1..])
  }
}
