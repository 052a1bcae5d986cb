/**
 * The mutable game record of imposter-game/server.js (server.js:88-109) and the
 * operations that update it in place. Every method ends in the state that the matching
 * transition function of module Session gives, so the properties proved there hold of it.
 */
module ServerGame {
  import opened Wrappers
  import Questions
  import GameUtils
  import opened Session
  import SessionProps

  class Game {
    const code: string
    var players: seq<Player>
    var hostId: PlayerId
    var currentRound: nat
    const totalRounds: int
    var phase: Phase
    var currentQuestion: Option<Questions.Question>
    var imposterQuestion: Option<Questions.Question>
    var answers: map<PlayerId, Choice>
    var votes: map<PlayerId, Choice>
    var imposterIds: seq<PlayerId>
    const roundTimeLimit: int
    const votingTimeLimit: int
    var usedQuestionIds: seq<string>

    /** The record as a value. */
    function State(): GameState
      reads this
    {
      GameState(code, players, hostId, currentRound, totalRounds, phase, currentQuestion,
                imposterQuestion, answers, votes, imposterIds, roundTimeLimit, votingTimeLimit,
                usedQuestionIds)
    }

    ghost predicate Valid()
      reads this
    {
      Wf(State())
    }

    /** `createGameState`, for an already generated code. */
    constructor (code: string, hostId: PlayerId, hostName: string, settings: Settings)
      ensures Valid()
      ensures State() == NewGame(code, hostId, hostName, settings)
    {
      this.code := code;
      players := [Player(hostId, hostName, 0, true)];
      this.hostId := hostId;
      currentRound := 0;
      totalRounds := OrDefault(settings.totalRounds, DefaultTotalRounds);
      phase := Lobby;
      currentQuestion := None;
      imposterQuestion := None;
      answers := map[];
      votes := map[];
      imposterIds := [];
      roundTimeLimit := OrDefault(settings.roundTimeLimit, DefaultRoundTimeLimit);
      votingTimeLimit := OrDefault(settings.votingTimeLimit, DefaultVotingTimeLimit);
      usedQuestionIds := [];
      new;
      SessionProps.CreatedGameIsLobby(code, hostId, hostName, settings);
    }

    /** `addPlayerToGame`. */
    method AddPlayer(id: PlayerId, name: string)
      requires Valid()
      modifies this
      ensures Valid()
      ensures State() == PlayerAdded(old(State()), id, name)
    {
      SessionProps.AddPlayerRules(State(), id, name);
      var existing := IndexOf(players, id);
      if existing.Some? {
        players := SetConnected(players, existing.value, true);
      } else {
        players := players + [Player(id, name, 0, true)];
      }
    }

    /** The checks and the phase change of the start-game handler; the refusal, if any, is
        what the handler reports to the requester. */
    method Start(requester: PlayerId) returns (refusal: Option<Failure>)
      requires Valid()
      modifies this
      ensures Valid()
      ensures refusal == StartRefusal(old(State()), requester)
      ensures State() == Started(old(State()), requester)
    {
      if hostId != requester {
        return Some(OnlyHostCanStart);
      }
      if |players| < MinPlayersToStart {
        return Some(NeedMorePlayers);
      }
      phase := Question;
      return None;
    }

    /** `startNewRound`, with the two shuffles as parameters. */
    method StartNewRound(qperm: seq<nat>, iperm: seq<nat>)
      requires Valid() && RoundShufflesFit(State(), qperm, iperm)
      modifies this
      ensures Valid()
      ensures State() == NewRound(old(State()), qperm, iperm)
    {
      var pair := RoundQuestions(State(), qperm);
      var chosen := RoundImposters(State(), iperm);
      OpenRound(pair, chosen);
    }

    /** The field updates of `startNewRound` once the questions and imposters are drawn. */
    method OpenRound(pair: Questions.QuestionPair, chosen: seq<PlayerId>)
      requires Valid()
      modifies this
      ensures Valid()
      ensures State() == RoundOpened(old(State()), pair, chosen)
    {
      currentRound, phase, answers, votes := currentRound + 1, Question, map[], map[];
      currentQuestion, imposterQuestion := Some(pair.mainQuestion), Some(pair.imposterQuestion);
      usedQuestionIds := usedQuestionIds + [pair.mainQuestion.id, pair.imposterQuestion.id];
      imposterIds := chosen;
    }

    /** `startVoting`. */
    method StartVoting()
      requires Valid()
      modifies this
      ensures Valid()
      ensures State() == VotingStarted(old(State()))
    {
      phase := Voting;
    }

    /** `endRound`: walks the votes and adds 100 points to the roster entry of every voter
        whose vote names `imposterIds[0]`. */
    method EndRound()
      requires Valid()
      modifies this
      ensures Valid()
      ensures State() == RoundEnded(old(State()))
    {
      SessionProps.RoundEndedRules(State());
      ghost var roster := players;
      phase := Results;
      var correctImposterId := ImposterTarget(imposterIds);
      var ps := players;
      var pending := votes.Keys;
      while pending != {}
        invariant pending <= votes.Keys
        invariant |ps| == |roster|
        invariant forall i :: 0 <= i < |ps| ==>
          ps[i] == if roster[i].id in pending then roster[i] else Award(roster[i], votes, correctImposterId)
        decreases pending
      {
        var voter :| voter in pending;
        if votes[voter] == correctImposterId {
          var found := IndexOf(ps, voter);
          if found.Some? {
            var k := found.value;
            ps := ps[k := ps[k].(score := ps[k].score + PointsPerCorrectVote)];
          }
        }
        pending := pending - {voter};
      }
      players := ps;
    }

    /** `endGame`. */
    method EndGame()
      requires Valid()
      modifies this
      ensures Valid()
      ensures State() == GameEnded(old(State()))
    {
      phase := Finished;
    }

    /** The submit-answer handler once the game is found. */
    method SubmitAnswer(sender: PlayerId, choice: Choice)
      requires Valid()
      modifies this
      ensures Valid()
      ensures State() == AnswerSubmitted(old(State()), sender, choice)
    {
      if phase != Question {
        return;
      }
      answers := answers[sender := choice];
      var activePlayers := ActiveIds(players);
      if |answers| >= |activePlayers| {
        StartVoting();
      }
    }

    /** The submit-vote handler once the game is found. */
    method SubmitVote(sender: PlayerId, choice: Choice)
      requires Valid()
      modifies this
      ensures Valid()
      ensures State() == VoteSubmitted(old(State()), sender, choice)
    {
      if phase != Voting {
        return;
      }
      votes := votes[sender := choice];
      var activePlayers := ActiveIds(players);
      if |votes| >= |activePlayers| {
        EndRound();
      }
    }

    /** The leave-game handler once the game is found; `found` tells whether the sender was
        on the roster. */
    method Leave(id: PlayerId) returns (found: bool)
      requires Valid()
      modifies this
      ensures Valid()
      ensures found == IndexOf(old(players), id).Some?
      ensures State() == PlayerLeft(old(State()), id)
    {
      SessionProps.LeaveRules(State(), id);
      var player := IndexOf(players, id);
      if player.None? {
        return false;
      }
      players := SetConnected(players, player.value, false);
      if hostId == id {
        var newHost := FirstConnected(players);
        if newHost.Some? {
          hostId := players[newHost.value].id;
        }
      }
      return true;
    }

    /** What the disconnect handler does to one game. */
    method MarkDisconnected(id: PlayerId)
      requires Valid()
      modifies this
      ensures Valid()
      ensures State() == PlayerDisconnected(old(State()), id)
    {
      SessionProps.DisconnectRules(State(), id);
      var player := IndexOf(players, id);
      if player.Some? {
        players := SetConnected(players, player.value, false);
      }
    }
  }
}
