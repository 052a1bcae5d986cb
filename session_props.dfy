/**
 * What the session operations of server.js guarantee, proved over the transition
 * functions of module Session.
 */
module SessionProps {
  import opened Wrappers
  import opened Shuffle
  import Questions
  import GameUtils
  import opened Session
  import opened SessionEvents

  // ---------------------------------------------------------------- creating a game

  /** `createGameState`: a lobby at round 0 whose only player is the connected host with
      no points; a setting that is absent or zero takes its default (5 rounds, 30000 ms,
      20000 ms). */
  lemma CreatedGameIsLobby(code: string, hostId: PlayerId, hostName: string, settings: Settings)
    ensures var s := NewGame(code, hostId, hostName, settings);
      && Wf(s)
      && s.code == code && s.phase == Lobby && s.currentRound == 0
      && s.players == [Player(hostId, hostName, 0, true)] && s.hostId == hostId
      && s.answers == map[] && s.votes == map[] && s.imposterIds == [] && s.usedQuestionIds == []
      && (settings.totalRounds.None? || settings.totalRounds.value == 0 ==> s.totalRounds == 5)
      && (settings.totalRounds.Some? && settings.totalRounds.value != 0 ==> s.totalRounds == settings.totalRounds.value)
      && (settings.roundTimeLimit.None? || settings.roundTimeLimit.value == 0 ==> s.roundTimeLimit == 30000)
      && (settings.roundTimeLimit.Some? && settings.roundTimeLimit.value != 0 ==> s.roundTimeLimit == settings.roundTimeLimit.value)
      && (settings.votingTimeLimit.None? || settings.votingTimeLimit.value == 0 ==> s.votingTimeLimit == 20000)
      && (settings.votingTimeLimit.Some? && settings.votingTimeLimit.value != 0 ==> s.votingTimeLimit == settings.votingTimeLimit.value)
  {
  }

  // ---------------------------------------------------------------- joining

  /** `addPlayerToGame`: a known id is marked connected again and never added twice; a new
      id is appended at the end of the roster with no points. */
  lemma AddPlayerRules(s: GameState, id: PlayerId, name: string)
    requires Wf(s)
    ensures var t := PlayerAdded(s, id, name);
      && Wf(t)
      && (IndexOf(s.players, id).Some? ==>
            var i := IndexOf(s.players, id).value;
            && t == s.(players := t.players)
            && |t.players| == |s.players|
            && t.players[i] == s.players[i].(isConnected := true)
            && (forall k :: 0 <= k < |s.players| && k != i ==> t.players[k] == s.players[k]))
      && (IndexOf(s.players, id).None? ==>
            t == s.(players := s.players + [Player(id, name, 0, true)]))
  {
    var t := PlayerAdded(s, id, name);
    var h := IndexOf(s.players, s.hostId).value;
    if IndexOf(s.players, id).None? {
      assert forall k :: 0 <= k < |s.players| ==> t.players[k] == s.players[k];
      assert t.players[|s.players|].id == id;
    }
    assert t.players[h].id == s.hostId;
  }

  /** join-game: refused, with nothing changed, unless the game is in the lobby. */
  lemma JoinRules(s: GameState, id: PlayerId, name: string)
    requires Wf(s)
    ensures Wf(Joined(s, id, name))
    ensures s.phase != Lobby ==> Joined(s, id, name) == s
    ensures s.phase == Lobby ==> Joined(s, id, name) == PlayerAdded(s, id, name)
  {
    AddPlayerRules(s, id, name);
  }

  // ---------------------------------------------------------------- starting

  /** start-game: only the host may start, and only with at least three roster entries
      (connected or not); a refused start changes nothing; an accepted one moves to the
      question phase from whatever phase the game was in. */
  lemma StartRules(s: GameState, requester: PlayerId)
    ensures (StartRefusal(s, requester) == Some(OnlyHostCanStart)) <==> s.hostId != requester
    ensures (StartRefusal(s, requester) == Some(NeedMorePlayers)) <==>
              (s.hostId == requester && |s.players| < MinPlayersToStart)
    ensures StartRefusal(s, requester).Some? ==> Started(s, requester) == s
    ensures StartRefusal(s, requester).None? ==> Started(s, requester) == s.(phase := Question)
  {
  }

  // ---------------------------------------------------------------- a new round

  /** `startNewRound`: the round number goes up by one, answers and votes are emptied, two
      different catalog questions are recorded as used, and the imposter is one of the
      connected players (none when nobody is connected). Unused questions are preferred. */
  lemma NewRoundRules(s: GameState, qperm: seq<nat>, iperm: seq<nat>)
    requires Wf(s) && RoundShufflesFit(s, qperm, iperm)
    ensures var t := NewRound(s, qperm, iperm);
      && Wf(t)
      && t.currentRound == s.currentRound + 1
      && t.phase == Question
      && t.answers == map[] && t.votes == map[]
      && t.players == s.players && t.hostId == s.hostId && t.totalRounds == s.totalRounds
      && |t.usedQuestionIds| == |s.usedQuestionIds| + 2
      && t.usedQuestionIds[..|s.usedQuestionIds|] == s.usedQuestionIds
      && t.currentQuestion.Some? && t.imposterQuestion.Some?
      && t.currentQuestion.value in ServerQuestions() && t.imposterQuestion.value in ServerQuestions()
      && t.usedQuestionIds[|s.usedQuestionIds|] == t.currentQuestion.value.id
      && t.usedQuestionIds[|s.usedQuestionIds| + 1] == t.imposterQuestion.value.id
      && t.currentQuestion.value.id != t.imposterQuestion.value.id
      && (|Questions.Unused(ServerQuestions(), s.usedQuestionIds)| >= 2 ==>
            t.currentQuestion.value.id !in s.usedQuestionIds && t.imposterQuestion.value.id !in s.usedQuestionIds)
      && (forall x :: x in t.imposterIds ==>
            exists i :: 0 <= i < |s.players| && s.players[i].id == x && s.players[i].isConnected)
      && |t.imposterIds| == (if |ActiveIds(s.players)| == 0 then 0 else 1)
      && NoDup(t.imposterIds)
  {
  }

  // ---------------------------------------------------------------- scoring

  /** `endRound`: every roster entry whose vote names `imposterIds[0]` gains exactly 100
      points; every other entry is unchanged, so no score goes down. */
  lemma RoundEndedRules(s: GameState)
    requires Wf(s)
    ensures var t := RoundEnded(s);
      && Wf(t)
      && t.phase == Results
      && t == s.(phase := Results, players := t.players)
      && |t.players| == |s.players|
      && (forall i :: 0 <= i < |s.players| ==>
            && t.players[i] == s.players[i].(score := t.players[i].score)
            && (s.players[i].id in s.votes && s.votes[s.players[i].id] == ImposterTarget(s.imposterIds) ==>
                  t.players[i].score == s.players[i].score + 100)
            && (!(s.players[i].id in s.votes && s.votes[s.players[i].id] == ImposterTarget(s.imposterIds)) ==>
                  t.players[i].score == s.players[i].score))
  {
    var t := RoundEnded(s);
    assert forall i :: 0 <= i < |s.players| ==> t.players[i].id == s.players[i].id;
  }

  /** Scoring compares with the first imposter only: with an imposter list `[a, b]`, a vote
      for `b` earns nothing. */
  lemma OnlyFirstImposterScores(p: Player, votes: map<PlayerId, Choice>, a: PlayerId, b: PlayerId)
    requires a != b && p.id in votes && votes[p.id] == Some(b)
    ensures Award(p, votes, ImposterTarget([a, b])) == p
  {
  }

  /** A vote without a `playerId` (undefined) matches `imposterIds[0]` of an empty imposter
      list, which is undefined too, and earns the 100 points. */
  lemma UndefinedVoteMatchesMissingImposter(p: Player, votes: map<PlayerId, Choice>)
    requires p.id in votes && votes[p.id] == None
    ensures Award(p, votes, ImposterTarget([])).score == p.score + 100
  {
  }

  // ---------------------------------------------------------------- submissions

  /** submit-answer: ignored outside the question phase; otherwise the sender's entry is
      set (overwriting an earlier one, and with no check that the sender is on the roster),
      and the game moves to voting exactly when the number of answers reaches the number of
      connected players. */
  lemma AnswerRules(s: GameState, sender: PlayerId, choice: Choice)
    ensures var t := AnswerSubmitted(s, sender, choice);
      && (s.phase != Question ==> t == s)
      && (s.phase == Question ==>
            && t.answers == s.answers[sender := choice]
            && t == s.(answers := t.answers, phase := t.phase)
            && (t.phase == Voting <==> |t.answers| >= |ActiveIds(s.players)|)
            && (t.phase == Question <==> |t.answers| < |ActiveIds(s.players)|))
  {
  }

  /** submit-vote: ignored outside the voting phase; otherwise the sender's entry is set,
      and the round ends (with scoring) exactly when the number of votes reaches the number
      of connected players. */
  lemma VoteRules(s: GameState, sender: PlayerId, choice: Choice)
    ensures var t := VoteSubmitted(s, sender, choice);
      && (s.phase != Voting ==> t == s)
      && (s.phase == Voting ==>
            && t.votes == s.votes[sender := choice]
            && (|t.votes| >= |ActiveIds(s.players)| ==> t == RoundEnded(s.(votes := t.votes)))
            && (|t.votes| < |ActiveIds(s.players)| ==> t == s.(votes := t.votes)))
  {
  }

  /** A map whose keys include every id of a duplicate-free list has at least as many keys. */
  lemma CoveredKeysCount(m: map<PlayerId, Choice>, ids: seq<PlayerId>)
    requires NoDup(ids) && forall x :: x in ids ==> x in m
    ensures |m| >= |ids|
  {
    var covered: set<PlayerId> := set x | x in ids;
    NoDupCardinality(ids);
    assert covered <= m.Keys;
    assert m.Keys == covered + (m.Keys - covered);
    assert covered * (m.Keys - covered) == {};
  }

  /** Once the question phase is over, further answers change nothing. */
  lemma {:induction false} AnswersIgnoredOutsideQuestion(s: GameState, subs: seq<Submission>)
    requires s.phase != Question
    ensures AnswerRun(s, subs) == s
    decreases |subs|
  {
    if subs != [] {
      AnswersIgnoredOutsideQuestion(AnswerSubmitted(s, subs[0].sender, subs[0].choice), subs[1..]);
    }
  }

  /** Whatever the order and however often players resubmit: once every connected player
      has answered, the game is in the voting phase, and it got there exactly once (after
      that, answers are ignored). The roster is not touched. */
  lemma {:induction false} EveryoneAnsweredStartsVoting(s: GameState, subs: seq<Submission>)
    requires s.phase == Question && DistinctIds(s.players) && |subs| > 0
    requires forall x :: x in ActiveIds(s.players) ==> x in s.answers || Submits(subs, x)
    ensures AnswerRun(s, subs).phase == Voting
    ensures AnswerRun(s, subs).players == s.players
    decreases |subs|
  {
    var h, rest := subs[0], subs[1..];
    var s1 := AnswerSubmitted(s, h.sender, h.choice);
    var covered := s.answers[h.sender := h.choice];
    forall x | x in ActiveIds(s.players) ensures x in covered || Submits(rest, x) {
      if x !in covered {
        var i :| 0 <= i < |subs| && subs[i].sender == x;
        assert i != 0;
        assert rest[i - 1].sender == x;
      }
    }
    if rest == [] {
      CoveredKeysCount(covered, ActiveIds(s.players));
    } else if s1.phase == Voting {
      AnswersIgnoredOutsideQuestion(s1, rest);
    } else {
      EveryoneAnsweredStartsVoting(s1, rest);
    }
  }

  /** Once the voting phase is over, further votes change nothing: scoring is not redone. */
  lemma {:induction false} VotesIgnoredOutsideVoting(s: GameState, subs: seq<Submission>)
    requires s.phase != Voting
    ensures VoteRun(s, subs) == s
    decreases |subs|
  {
    if subs != [] {
      VotesIgnoredOutsideVoting(VoteSubmitted(s, subs[0].sender, subs[0].choice), subs[1..]);
    }
  }

  /** A run of votes from the voting phase either is still collecting (scores untouched) or
      has ended the round, in which case scores were awarded exactly once, for the votes
      held at that moment. */
  lemma {:induction false} VotesScoreOnce(s: GameState, subs: seq<Submission>)
    requires s.phase == Voting
    ensures var t := VoteRun(s, subs);
      || (t.phase == Voting && t.players == s.players)
      || (t.phase == Results && t.players == ScoreRound(s.players, t.votes, ImposterTarget(s.imposterIds)))
    decreases |subs|
  {
    if subs != [] {
      var s1 := VoteSubmitted(s, subs[0].sender, subs[0].choice);
      if s1.phase == Voting {
        VotesScoreOnce(s1, subs[1..]);
      } else {
        VotesIgnoredOutsideVoting(s1, subs[1..]);
      }
    }
  }

  /** Once every connected player has voted, the round has ended. */
  lemma {:induction false} EveryoneVotedEndsRound(s: GameState, subs: seq<Submission>)
    requires s.phase == Voting && DistinctIds(s.players) && |subs| > 0
    requires forall x :: x in ActiveIds(s.players) ==> x in s.votes || Submits(subs, x)
    ensures VoteRun(s, subs).phase == Results
    decreases |subs|
  {
    var h, rest := subs[0], subs[1..];
    var s1 := VoteSubmitted(s, h.sender, h.choice);
    var covered := s.votes[h.sender := h.choice];
    forall x | x in ActiveIds(s.players) ensures x in covered || Submits(rest, x) {
      if x !in covered {
        var i :| 0 <= i < |subs| && subs[i].sender == x;
        assert i != 0;
        assert rest[i - 1].sender == x;
      }
    }
    if rest == [] {
      CoveredKeysCount(covered, ActiveIds(s.players));
    } else if s1.phase == Results {
      VotesIgnoredOutsideVoting(s1, rest);
    } else {
      EveryoneVotedEndsRound(s1, rest);
    }
  }

  // ---------------------------------------------------------------- timers

  /** The round and voting timers act only in their own phase, whatever round scheduled
      them; in any other phase they change nothing. */
  lemma TimerGuards(s: GameState)
    ensures s.phase == Question ==> RoundTimerFired(s) == s.(phase := Voting)
    ensures s.phase != Question ==> RoundTimerFired(s) == s
    ensures s.phase == Voting ==> VotingTimerFired(s) == RoundEnded(s)
    ensures s.phase != Voting ==> VotingTimerFired(s) == s
  {
  }

  /** A round timer that fires after all answers arrived early does not alter the game. */
  lemma EarlyVotingDisarmsRoundTimer(s: GameState, sender: PlayerId, choice: Choice)
    requires AnswerSubmitted(s, sender, choice).phase == Voting
    ensures RoundTimerFired(AnswerSubmitted(s, sender, choice)) == AnswerSubmitted(s, sender, choice)
  {
  }

  /** After the results: the game finishes once `currentRound >= totalRounds`, otherwise the
      next round starts. */
  lemma IntermissionRules(s: GameState, qperm: seq<nat>, iperm: seq<nat>)
    requires s.currentRound < s.totalRounds ==> RoundShufflesFit(s, qperm, iperm)
    ensures s.currentRound >= s.totalRounds ==> IntermissionFired(s, qperm, iperm) == s.(phase := Finished)
    ensures s.currentRound < s.totalRounds ==>
              IntermissionFired(s, qperm, iperm).phase == Question &&
              IntermissionFired(s, qperm, iperm).currentRound == s.currentRound + 1
  {
  }

  // ---------------------------------------------------------------- leaving

  /** leave-game: the leaver is marked disconnected and stays on the roster with their score;
      if the leaver was the host, the host becomes the first still-connected player in
      roster order, or stays unchanged when nobody is connected; the host is always on the
      roster. */
  lemma LeaveRules(s: GameState, id: PlayerId)
    requires Wf(s)
    ensures var t := PlayerLeft(s, id);
      && Wf(t)
      && t == s.(players := t.players, hostId := t.hostId)
      && |t.players| == |s.players|
      && (forall i :: 0 <= i < |s.players| ==>
            t.players[i] == (if s.players[i].id == id then s.players[i].(isConnected := false) else s.players[i]))
      && (s.hostId != id ==> t.hostId == s.hostId)
      && (s.hostId == id && FirstConnected(t.players).None? ==> t.hostId == s.hostId)
      && (s.hostId == id && FirstConnected(t.players).Some? ==>
            exists j :: 0 <= j < |t.players| && t.hostId == t.players[j].id && t.players[j].isConnected &&
              forall k :: 0 <= k < j ==> !t.players[k].isConnected)
  {
    var t := PlayerLeft(s, id);
    match IndexOf(s.players, id)
    case None =>
    case Some(i) =>
      assert forall k :: 0 <= k < |s.players| && k != i ==> s.players[k].id != id;
      if s.hostId == id && FirstConnected(t.players).Some? {
        var j := FirstConnected(t.players).value;
        assert t.hostId == t.players[j].id;
      } else {
        var h := IndexOf(s.players, s.hostId).value;
        assert t.players[h].id == t.hostId;
      }
  }

  /** disconnect: the player is marked disconnected, and the host is never reassigned, even
      when the host is the one who disconnected. */
  lemma DisconnectRules(s: GameState, id: PlayerId)
    requires Wf(s)
    ensures var t := PlayerDisconnected(s, id);
      && Wf(t)
      && t == s.(players := t.players)
      && |t.players| == |s.players|
      && (forall i :: 0 <= i < |s.players| ==>
            t.players[i] == (if s.players[i].id == id then s.players[i].(isConnected := false) else s.players[i]))
  {
    var t := PlayerDisconnected(s, id);
    match IndexOf(s.players, id)
    case None =>
    case Some(i) =>
      assert forall k :: 0 <= k < |s.players| && k != i ==> s.players[k].id != id;
      var h := IndexOf(s.players, s.hostId).value;
      assert t.players[h].id == t.hostId;
  }

  // ---------------------------------------------------------------- whole games

  /** What never goes backwards: the code, the number of rounds and the time limits stay;
      the roster only grows and keeps each entry's id and name in place; no score
      decreases; the round number never decreases; used questions are only appended. */
  predicate Evolves(s: GameState, t: GameState) {
    && t.code == s.code && t.totalRounds == s.totalRounds
    && t.roundTimeLimit == s.roundTimeLimit && t.votingTimeLimit == s.votingTimeLimit
    && |s.players| <= |t.players|
    && (forall i :: 0 <= i < |s.players| ==>
          t.players[i].id == s.players[i].id && t.players[i].name == s.players[i].name &&
          t.players[i].score >= s.players[i].score)
    && s.currentRound <= t.currentRound
    && s.usedQuestionIds <= t.usedQuestionIds
  }

  lemma AnswerEvolves(s: GameState, sender: PlayerId, choice: Choice)
    requires Wf(s)
    ensures Wf(AnswerSubmitted(s, sender, choice)) && Evolves(s, AnswerSubmitted(s, sender, choice))
  {
    AnswerRules(s, sender, choice);
  }

  lemma VoteEvolves(s: GameState, sender: PlayerId, choice: Choice)
    requires Wf(s)
    ensures Wf(VoteSubmitted(s, sender, choice)) && Evolves(s, VoteSubmitted(s, sender, choice))
  {
    RoundEndedRules(s.(votes := s.votes[sender := choice]));
  }

  lemma TimersEvolve(s: GameState)
    requires Wf(s)
    ensures Wf(RoundTimerFired(s)) && Evolves(s, RoundTimerFired(s))
    ensures Wf(VotingTimerFired(s)) && Evolves(s, VotingTimerFired(s))
  {
    RoundEndedRules(s);
  }

  lemma IntermissionEvolves(s: GameState, qperm: seq<nat>, iperm: seq<nat>)
    requires Wf(s) && (s.currentRound < s.totalRounds ==> RoundShufflesFit(s, qperm, iperm))
    ensures Wf(IntermissionFired(s, qperm, iperm)) && Evolves(s, IntermissionFired(s, qperm, iperm))
  {
    if s.currentRound < s.totalRounds { NewRoundRules(s, qperm, iperm); }
  }

  lemma JoinEvolves(s: GameState, id: PlayerId, name: string)
    requires Wf(s)
    ensures Wf(Joined(s, id, name)) && Evolves(s, Joined(s, id, name))
  {
    AddPlayerRules(s, id, name);
  }

  lemma NewRoundEvolves(s: GameState, qperm: seq<nat>, iperm: seq<nat>)
    requires Wf(s) && RoundShufflesFit(s, qperm, iperm)
    ensures Wf(NewRound(s, qperm, iperm)) && Evolves(s, NewRound(s, qperm, iperm))
  {
    NewRoundRules(s, qperm, iperm);
  }

  lemma LeaveEvolves(s: GameState, id: PlayerId)
    requires Wf(s)
    ensures Wf(PlayerLeft(s, id)) && Evolves(s, PlayerLeft(s, id))
    ensures Wf(PlayerDisconnected(s, id)) && Evolves(s, PlayerDisconnected(s, id))
  {
    LeaveRules(s, id);
    DisconnectRules(s, id);
  }

  lemma StepEvolves(s: GameState, e: Event)
    requires Wf(s) && Fits(s, e)
    ensures Wf(Apply(s, e)) && Evolves(s, Apply(s, e))
  {
    match e
    case JoinEvent(id, name) => JoinEvolves(s, id, name);
    case StartEvent(requester) => StartRules(s, requester);
    case StartDelayEvent(q, i) => NewRoundEvolves(s, q, i);
    case AnswerEvent(sender, choice) => AnswerEvolves(s, sender, choice);
    case VoteEvent(sender, choice) => VoteEvolves(s, sender, choice);
    case RoundTimerEvent => TimersEvolve(s);
    case VotingTimerEvent => TimersEvolve(s);
    case IntermissionEvent(q, i) => IntermissionEvolves(s, q, i);
    case LeaveEvent(id) => LeaveEvolves(s, id);
    case DisconnectEvent(id) => LeaveEvolves(s, id);
  }

  /** Over any sequence of events, the record stays well formed (the host is on the roster,
      no id is on it twice) and evolves only forwards: no player is ever removed and no
      score ever decreases. */
  lemma {:induction false} RunEvolves(s: GameState, es: seq<Event>)
    requires Wf(s) && RunFits(s, es)
    ensures Wf(Run(s, es)) && Evolves(s, Run(s, es))
    decreases |es|
  {
    if es != [] {
      var s1 := Apply(s, es[0]);
      StepEvolves(s, es[0]);
      RunEvolves(s1, es[1..]);
    }
  }

  /** start-game has no phase check: the host of a finished game that played all its rounds
      can start it again, and the next round then goes past `totalRounds`. */
  lemma RestartPassesTotalRounds(s: GameState, qperm: seq<nat>, iperm: seq<nat>)
    requires Wf(s) && s.phase == Finished && s.currentRound == s.totalRounds
    requires |s.players| >= MinPlayersToStart
    requires RoundShufflesFit(s, qperm, iperm)
    ensures var es := [StartEvent(s.hostId), StartDelayEvent(qperm, iperm)];
      RunFits(s, es) && Run(s, es).currentRound == s.totalRounds + 1 && Run(s, es).phase == Question
  {
    var s1 := Started(s, s.hostId);
    assert s1 == s.(phase := Question);
    assert RoundShufflesFit(s1, qperm, iperm);
    var s2 := NewRound(s1, qperm, iperm);
    var es := [StartEvent(s.hostId), StartDelayEvent(qperm, iperm)];
    assert es[1..] == [StartDelayEvent(qperm, iperm)];
    assert [StartDelayEvent(qperm, iperm)][1..] == [];
    assert Apply(s1, StartDelayEvent(qperm, iperm)) == s2;
    assert RunFits(s2, []) && Run(s2, []) == s2;
    assert RunFits(s1, es[1..]) && Run(s1, es[1..]) == s2;
    assert Apply(s, StartEvent(s.hostId)) == s1;
  }
}
