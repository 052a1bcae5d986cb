/**
 * What the handlers and timers of server.js promise about the whole server, proved on the
 * value-level model of module ServerModel.
 */
module ServerProps {
  import opened Wrappers
  import GameUtils
  import opened Session
  import SessionProps
  import opened ServerModel

  // ---------------------------------------------------------------- upper case

  /** Upper-casing twice is upper-casing once. */
  lemma {:induction false} ToUpperIsIdempotent(s: string)
    ensures ToUpper(ToUpper(s)) == ToUpper(s)
  {
    if s != [] {
      ToUpperIsIdempotent(s[1..]);
      assert ToUpper(s) == [UpperChar(s[0])] + ToUpper(s[1..]);
      assert ToUpper(s)[1..] == ToUpper(s[1..]);
    }
  }

  /** Every generated code is already upper case, so join-game finds it however the
      player types its letters. */
  lemma GeneratedCodeIsUpperCase(draws: seq<nat>)
    requires GameUtils.ValidDraws(draws)
    ensures var code := GameUtils.CodeOf(draws);
      |code| == GameUtils.CodeLength && ToUpper(code) == code
  {
    GameUtils.CharsAreTheCodeAlphabet();
    var code := GameUtils.CodeOf(draws);
    assert forall i :: 0 <= i < |code| ==> code[i] in GameUtils.Chars;
  }

  /** join-game treats a code and its upper-cased form alike. */
  lemma JoinIgnoresCase(st: ServerState, sender: PlayerId, rawCode: string, playerName: string)
    ensures JoinRefusal(st, ToUpper(rawCode)) == JoinRefusal(st, rawCode)
    ensures GameJoined(st, sender, ToUpper(rawCode), playerName) == GameJoined(st, sender, rawCode, playerName)
  {
    ToUpperIsIdempotent(rawCode);
  }

  // ---------------------------------------------------------------- handlers

  /** create-game files a fresh lobby, hosted by the sender, under its generated six-character
      upper-case code, silently replacing a game that had the same code; every other game
      stays, and the sender's socket is registered. */
  lemma CreateRules(st: ServerState, sender: PlayerId, playerName: string, settings: Settings, draws: seq<nat>)
    requires ServerWf(st) && GameUtils.ValidDraws(draws)
    ensures var t := GameCreated(st, sender, playerName, settings, draws);
      var code := GameUtils.CodeOf(draws);
      && ServerWf(t)
      && t.games.Keys == st.games.Keys + {code}
      && t.games[code].phase == Lobby && t.games[code].hostId == sender
      && t.games[code].players == [Player(sender, playerName, 0, true)]
      && ToUpper(code) == code && |code| == 6
      && (forall c :: c in st.games && c != code ==> t.games[c] == st.games[c])
      && t.sockets == st.sockets + {sender}
  {
    SessionProps.CreatedGameIsLobby(GameUtils.CodeOf(draws), sender, playerName, settings);
    GeneratedCodeIsUpperCase(draws);
  }

  /** join-game: refused with "Game not found" when no game has the upper-cased code, with
      "Game already in progress" outside the lobby, and then nothing changes; otherwise the
      sender is added to that game's roster (or reconnected) and registered. */
  lemma JoinRules(st: ServerState, sender: PlayerId, rawCode: string, playerName: string)
    requires ServerWf(st)
    ensures var t := GameJoined(st, sender, rawCode, playerName);
      var code := ToUpper(rawCode);
      && ServerWf(t)
      && (JoinRefusal(st, rawCode) == Some(GameNotFound) <==> code !in st.games)
      && (JoinRefusal(st, rawCode) == Some(GameInProgress) <==> code in st.games && st.games[code].phase != Lobby)
      && (JoinRefusal(st, rawCode).Some? ==> t == st)
      && (JoinRefusal(st, rawCode).None? ==>
            && OthersUntouched(st, t, code)
            && t.games[code] == PlayerAdded(st.games[code], sender, playerName)
            && IndexOf(t.games[code].players, sender).Some?
            && t.sockets == st.sockets + {sender})
  {
    var code := ToUpper(rawCode);
    if JoinRefusal(st, rawCode).None? {
      SessionProps.AddPlayerRules(st.games[code], sender, playerName);
      var t := GameJoined(st, sender, rawCode, playerName);
      var ps := st.games[code].players;
      match IndexOf(ps, sender)
      case Some(i) =>
        assert t.games[code].players[i].id == sender;
      case None =>
        assert t.games[code].players[|ps|].id == sender;
    }
  }

  /** start-game: refused when the id names no game, when the sender is not the host, or
      when the roster has fewer than three entries, and then nothing changes; otherwise only
      that game moves to the question phase. */
  lemma StartRules(st: ServerState, sender: PlayerId, gameId: string)
    requires ServerWf(st)
    ensures var t := GameStarted(st, sender, gameId);
      && ServerWf(t)
      && (StartRefusalAt(st, sender, gameId) == Some(GameNotFound) <==> gameId !in st.games)
      && (StartRefusalAt(st, sender, gameId) == Some(OnlyHostCanStart) <==>
            gameId in st.games && st.games[gameId].hostId != sender)
      && (StartRefusalAt(st, sender, gameId) == Some(NeedMorePlayers) <==>
            gameId in st.games && st.games[gameId].hostId == sender && |st.games[gameId].players| < 3)
      && (StartRefusalAt(st, sender, gameId).Some? ==> t == st)
      && (StartRefusalAt(st, sender, gameId).None? ==>
            OthersUntouched(st, t, gameId) && t.games[gameId] == st.games[gameId].(phase := Question))
  {
    if gameId in st.games {
      SessionProps.StartRules(st.games[gameId], sender);
    }
  }

  /** Filing a well-formed record under its own code, in place of the game there, changes
      nothing else. */
  lemma UpdateRules(st: ServerState, code: string, g: GameState)
    requires ServerWf(st) && code in st.games && g.code == code && Session.Wf(g)
    ensures var t := Update(st, code, g);
      ServerWf(t) && OthersUntouched(st, t, code) && t.sockets == st.sockets && t.games[code] == g
  {
  }

  /** submit-answer changes at most the addressed game, never the sockets. */
  lemma AnswerRules(st: ServerState, sender: PlayerId, gameId: string, choice: Choice)
    requires ServerWf(st)
    ensures var t := AnswerGiven(st, sender, gameId, choice);
      ServerWf(t) && OthersUntouched(st, t, gameId) && t.sockets == st.sockets &&
      (gameId in st.games ==> t.games[gameId] == AnswerSubmitted(st.games[gameId], sender, choice))
  {
    if gameId in st.games {
      SessionProps.AnswerRules(st.games[gameId], sender, choice);
      UpdateRules(st, gameId, AnswerSubmitted(st.games[gameId], sender, choice));
    }
  }

  /** submit-vote changes at most the addressed game, never the sockets. */
  lemma VoteRules(st: ServerState, sender: PlayerId, gameId: string, choice: Choice)
    requires ServerWf(st)
    ensures var t := VoteGiven(st, sender, gameId, choice);
      ServerWf(t) && OthersUntouched(st, t, gameId) && t.sockets == st.sockets &&
      (gameId in st.games ==> t.games[gameId] == VoteSubmitted(st.games[gameId], sender, choice))
  {
    if gameId in st.games {
      var s := st.games[gameId];
      SessionProps.VoteRules(s, sender, choice);
      SessionProps.RoundEndedRules(s.(votes := s.votes[sender := choice]));
      UpdateRules(st, gameId, VoteSubmitted(s, sender, choice));
    }
  }

  /** leave-game: a sender not on the addressed game's roster changes nothing; otherwise the
      sender is marked disconnected there (the host passing on when it was the host) and the
      socket is unregistered. */
  lemma LeaveRules(st: ServerState, sender: PlayerId, gameId: string)
    requires ServerWf(st)
    ensures var t := GameLeft(st, sender, gameId);
      && ServerWf(t)
      && (!LeaverFound(st, sender, gameId) ==> t == st)
      && (LeaverFound(st, sender, gameId) ==>
            && OthersUntouched(st, t, gameId)
            && t.games[gameId] == PlayerLeft(st.games[gameId], sender)
            && t.sockets == st.sockets - {sender})
  {
    if LeaverFound(st, sender, gameId) {
      SessionProps.LeaveRules(st.games[gameId], sender);
    }
  }

  /** leave-game as an update of the addressed game, followed by unregistering the socket
      when the sender was found. */
  lemma LeftIsUpdate(st: ServerState, sender: PlayerId, gameId: string)
    requires gameId in st.games
    ensures var u := Update(st, gameId, PlayerLeft(st.games[gameId], sender));
      GameLeft(st, sender, gameId) ==
        if LeaverFound(st, sender, gameId) then u.(sockets := st.sockets - {sender}) else u
  {
    if !LeaverFound(st, sender, gameId) {
      assert st.games[gameId := st.games[gameId]] == st.games;
    }
  }

  /** disconnect: an unregistered socket changes nothing; a registered one is unregistered and
      its player is marked disconnected in every game it is on, with every host kept. */
  lemma DisconnectRules(st: ServerState, sender: PlayerId)
    requires ServerWf(st)
    ensures var t := Disconnected(st, sender);
      && ServerWf(t)
      && (!Registered(st, sender) ==> t == st)
      && (Registered(st, sender) ==>
            && t.games.Keys == st.games.Keys
            && t.sockets == st.sockets - {sender}
            && forall c :: c in st.games ==>
                 && t.games[c].hostId == st.games[c].hostId
                 && |t.games[c].players| == |st.games[c].players|
                 && forall i :: 0 <= i < |st.games[c].players| ==>
                      t.games[c].players[i] ==
                        if st.games[c].players[i].id == sender
                        then st.games[c].players[i].(isConnected := false)
                        else st.games[c].players[i])
  {
    if Registered(st, sender) {
      var t := Disconnected(st, sender);
      forall c | c in st.games
        ensures t.games[c].code == c && Session.Wf(t.games[c])
        ensures t.games[c].hostId == st.games[c].hostId
        ensures |t.games[c].players| == |st.games[c].players|
        ensures forall i :: 0 <= i < |st.games[c].players| ==>
                  t.games[c].players[i] ==
                    if st.games[c].players[i].id == sender
                    then st.games[c].players[i].(isConnected := false)
                    else st.games[c].players[i]
      {
        SessionProps.DisconnectRules(st.games[c], sender);
      }
    }
  }

  // ---------------------------------------------------------------- timers

  /** The round timer acts only on the game now filed under its code. */
  lemma RoundTimerRules(st: ServerState, code: string)
    requires ServerWf(st)
    ensures var t := RoundTimerAt(st, code);
      ServerWf(t) && OthersUntouched(st, t, code) && t.sockets == st.sockets &&
      (code in st.games ==> t.games[code] == RoundTimerFired(st.games[code]))
  {
    if code in st.games {
      UpdateRules(st, code, RoundTimerFired(st.games[code]));
    }
  }

  /** The voting timer acts only on the game now filed under its code. */
  lemma VotingTimerRules(st: ServerState, code: string)
    requires ServerWf(st)
    ensures var t := VotingTimerAt(st, code);
      ServerWf(t) && OthersUntouched(st, t, code) && t.sockets == st.sockets &&
      (code in st.games ==> t.games[code] == VotingTimerFired(st.games[code]))
  {
    if code in st.games {
      SessionProps.RoundEndedRules(st.games[code]);
      UpdateRules(st, code, VotingTimerFired(st.games[code]));
    }
  }

  /** The delayed start acts only on the game filed under its code, whatever its phase. */
  lemma StartDelayRules(st: ServerState, code: string, qperm: seq<nat>, iperm: seq<nat>)
    requires ServerWf(st)
    requires code in st.games ==> RoundShufflesFit(st.games[code], qperm, iperm)
    ensures var t := StartDelayAt(st, code, qperm, iperm);
      ServerWf(t) && OthersUntouched(st, t, code) && t.sockets == st.sockets &&
      (code in st.games ==> t.games[code] == NewRound(st.games[code], qperm, iperm))
  {
    if code in st.games {
      SessionProps.NewRoundRules(st.games[code], qperm, iperm);
      UpdateRules(st, code, NewRound(st.games[code], qperm, iperm));
    }
  }

  /** The intermission ends or continues the game filed under its code, as the captured
      record's round count says, and touches nothing else. */
  lemma IntermissionRules(st: ServerState, code: string, captured: GameState, qperm: seq<nat>, iperm: seq<nat>)
    requires ServerWf(st)
    requires code in st.games && captured.currentRound < captured.totalRounds ==>
               RoundShufflesFit(st.games[code], qperm, iperm)
    ensures var t := IntermissionAt(st, code, captured, qperm, iperm);
      && ServerWf(t) && OthersUntouched(st, t, code) && t.sockets == st.sockets
      && (code in st.games && captured.currentRound >= captured.totalRounds ==>
            t.games[code] == st.games[code].(phase := Finished))
      && (code in st.games && captured.currentRound < captured.totalRounds ==>
            t.games[code] == NewRound(st.games[code], qperm, iperm))
  {
    if code in st.games {
      if captured.currentRound >= captured.totalRounds {
        UpdateRules(st, code, GameEnded(st.games[code]));
      } else {
        SessionProps.NewRoundRules(st.games[code], qperm, iperm);
        UpdateRules(st, code, NewRound(st.games[code], qperm, iperm));
      }
    }
  }

  /** When the captured record is the game filed under the code, as it is unless a later
      create-game replaced it, the intermission timer is the game's own intermission step. */
  lemma IntermissionOfOwnGame(st: ServerState, code: string, qperm: seq<nat>, iperm: seq<nat>)
    requires code in st.games
    requires st.games[code].currentRound < st.games[code].totalRounds ==>
               RoundShufflesFit(st.games[code], qperm, iperm)
    ensures IntermissionAt(st, code, st.games[code], qperm, iperm) ==
              Update(st, code, IntermissionFired(st.games[code], qperm, iperm))
  {
  }
}
