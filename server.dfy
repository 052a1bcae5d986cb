/**
 * The running server of imposter-game/server.js: the `games` map of mutable game records
 * and the `playerSockets` registry (server.js:12-13), with the socket handlers
 * (server.js:219-372) and the timer callbacks as methods. Each method leaves the server in
 * the state that the matching function of module ServerModel gives.
 */
module ServerRuntime {
  import opened Wrappers
  import GameUtils
  import opened Session
  import ServerModel
  import ServerProps
  import opened ServerGame

  class Server {
    var games: map<string, Game>
    var sockets: set<PlayerId>

    /** The server as a value. */
    function Model(): ServerModel.ServerState
      reads this, games.Values
    {
      ServerModel.ServerState(map c | c in games :: games[c].State(), sockets)
    }

    ghost predicate Valid()
      reads this, games.Values
    {
      ServerModel.ServerWf(Model())
    }

    /** An empty server: no games, no sockets. */
    constructor ()
      ensures Valid()
      ensures Model() == ServerModel.ServerState(map[], {})
    {
      games := map[];
      sockets := {};
    }

    /** Every game is filed under its own code, so two codes never share a record. */
    lemma Filed()
      requires Valid()
      ensures forall c :: c in games ==> games[c].code == c && games[c].Valid()
      ensures forall c, d :: c in games && d in games && c != d ==> games[c] != games[d]
    {
      assert forall c :: c in games ==> Model().games[c] == games[c].State();
    }

    /** The game under `code` is filed under its own code, so no other code shares it. */
    lemma FiledAt(code: string)
      requires Valid() && code in games
      ensures games[code].code == code && games[code].Valid()
      ensures forall c :: c in games && c != code ==> games[c] != games[code]
    {
      Filed();
    }

    /** When every game but the one under `code` keeps its state, the server's value changes
        only at `code`. */
    twostate lemma OnlyOneGameChanged(code: string)
      requires code in games && games.Keys == old(games.Keys) + {code}
      requires forall c :: c in games && c != code ==>
                 c in old(games) && games[c] == old(games[c]) && games[c].State() == old(games[c].State())
      ensures Model().games == old(Model()).games[code := games[code].State()]
    {
    }

    /** When only the game under `code` has changed, and it is still filed under its own
        code and valid, the server's value is the old one with its new record under `code`. */
    twostate lemma ReplacedAt(code: string)
      requires old(Valid()) && code in games && games == old(games) && sockets == old(sockets)
      requires forall c :: c in games && c != code ==> games[c].State() == old(games[c].State())
      requires games[code].code == code && games[code].Valid()
      ensures Valid() && Model() == ServerModel.Update(old(Model()), code, games[code].State())
    {
      OnlyOneGameChanged(code);
      ServerProps.UpdateRules(old(Model()), code, games[code].State());
    }

    /** When no game has changed, the server's value changes at most in its sockets. */
    twostate lemma OnlySocketsChanged()
      requires old(Valid()) && games == old(games) && unchanged(games.Values)
      ensures Valid() && Model() == old(Model()).(sockets := sockets)
    {
      assert forall c :: c in games ==> games[c].State() == old(games[c].State());
      assert Model().games == old(Model()).games;
    }

    /** When every game has had `sender` marked disconnected, the server's games are those of
        the disconnect step. */
    twostate lemma EveryGameDisconnected(sender: PlayerId)
      requires games == old(games)
      requires forall c :: c in games ==> games[c].State() == PlayerDisconnected(old(games[c].State()), sender)
      ensures Model().games == map c | c in old(Model()).games :: PlayerDisconnected(old(Model()).games[c], sender)
    {
    }

    /** create-game. The new record is also returned, as the handler sends it back. */
    method OnCreateGame(sender: PlayerId, playerName: string, settings: Settings, draws: seq<nat>)
      returns (game: Game)
      requires Valid() && GameUtils.ValidDraws(draws)
      modifies this
      ensures Valid()
      ensures fresh(game) && game.code == GameUtils.CodeOf(draws) && game.code in games && games[game.code] == game
      ensures Model() == ServerModel.GameCreated(old(Model()), sender, playerName, settings, draws)
    {
      Filed();
      var code := GameUtils.GenerateGameCode(draws);
      game := new Game(code, sender, playerName, settings);
      games := games[code := game];
      sockets := sockets + {sender};
      OnlyOneGameChanged(code);
      ServerProps.CreateRules(old(Model()), sender, playerName, settings, draws);
    }

    /** join-game. */
    method OnJoinGame(sender: PlayerId, rawCode: string, playerName: string) returns (refusal: Option<Failure>)
      requires Valid()
      modifies this, games.Values
      ensures Valid()
      ensures refusal == ServerModel.JoinRefusal(old(Model()), rawCode)
      ensures Model() == ServerModel.GameJoined(old(Model()), sender, rawCode, playerName)
    {
      var code := ServerModel.ToUpper(rawCode);
      if code !in games {
        return Some(GameNotFound);
      }
      FiledAt(code);
      var game := games[code];
      if game.phase != Lobby {
        return Some(GameInProgress);
      }
      game.AddPlayer(sender, playerName);
      sockets := sockets + {sender};
      OnlyOneGameChanged(code);
      ServerProps.JoinRules(old(Model()), sender, rawCode, playerName);
      return None;
    }

    /** start-game. The one-second timer it sets is the OnStartDelay event. */
    method OnStartGame(sender: PlayerId, gameId: string) returns (refusal: Option<Failure>)
      requires Valid()
      modifies games.Values
      ensures Valid()
      ensures refusal == ServerModel.StartRefusalAt(old(Model()), sender, gameId)
      ensures Model() == ServerModel.GameStarted(old(Model()), sender, gameId)
    {
      if gameId !in games {
        return Some(GameNotFound);
      }
      FiledAt(gameId);
      var game := games[gameId];
      refusal := game.Start(sender);
      OnlyOneGameChanged(gameId);
      ServerProps.StartRules(old(Model()), sender, gameId);
    }

    /** submit-answer. */
    method OnSubmitAnswer(sender: PlayerId, gameId: string, choice: Choice)
      requires Valid()
      modifies games.Values
      ensures Valid()
      ensures Model() == ServerModel.AnswerGiven(old(Model()), sender, gameId, choice)
    {
      if gameId in games {
        FiledAt(gameId);
        var game := games[gameId];
        game.SubmitAnswer(sender, choice);
        OnlyOneGameChanged(gameId);
        ServerProps.AnswerRules(old(Model()), sender, gameId, choice);
      }
    }

    /** submit-vote. */
    method OnSubmitVote(sender: PlayerId, gameId: string, choice: Choice)
      requires Valid()
      modifies games.Values
      ensures Valid()
      ensures Model() == ServerModel.VoteGiven(old(Model()), sender, gameId, choice)
    {
      if gameId in games {
        FiledAt(gameId);
        var game := games[gameId];
        game.SubmitVote(sender, choice);
        OnlyOneGameChanged(gameId);
        ServerProps.VoteRules(old(Model()), sender, gameId, choice);
      }
    }

    /** The part of leave-game that concerns the game under `gameId`. */
    method LeaveAt(sender: PlayerId, gameId: string) returns (found: bool)
      requires Valid() && gameId in games
      modifies games.Values
      ensures Valid()
      ensures found == ServerModel.LeaverFound(old(Model()), sender, gameId)
      ensures Model() == ServerModel.Update(old(Model()), gameId, PlayerLeft(old(Model()).games[gameId], sender))
    {
      FiledAt(gameId);
      var game := games[gameId];
      assert Model().games[gameId] == game.State();
      found := game.Leave(sender);
      ReplacedAt(gameId);
    }

    /** leave-game. */
    method OnLeaveGame(sender: PlayerId, gameId: string)
      requires Valid()
      modifies this, games.Values
      ensures Valid()
      ensures Model() == ServerModel.GameLeft(old(Model()), sender, gameId)
    {
      if gameId in games {
        ServerProps.LeftIsUpdate(Model(), sender, gameId);
        var found := LeaveAt(sender, gameId);
        if found {
          label left:
          sockets := sockets - {sender};
          OnlySocketsChanged@left();
        }
      }
    }

    /** The `games.forEach` walk of disconnect: marks `sender` disconnected in every game. */
    method DisconnectEverywhere(sender: PlayerId)
      requires forall g :: g in games.Values ==> g.Valid()
      modifies games.Values
      ensures forall g :: g in games.Values ==> g.State() == PlayerDisconnected(old(g.State()), sender)
    {
      var pending := games.Values;
      while pending != {}
        invariant pending <= games.Values
        invariant forall g :: g in games.Values ==>
          g.State() == if g in pending then old(g.State()) else PlayerDisconnected(old(g.State()), sender)
        decreases pending
      {
        var game :| game in pending;
        game.MarkDisconnected(sender);
        pending := pending - {game};
      }
    }

    /** disconnect: a registered socket's player is marked disconnected in every game, then
        the socket is unregistered. */
    method OnDisconnect(sender: PlayerId)
      requires Valid()
      modifies this, games.Values
      ensures Valid()
      ensures Model() == ServerModel.Disconnected(old(Model()), sender)
    {
      if sender in sockets && sender != "" {
        Filed();
        DisconnectEverywhere(sender);
        sockets := sockets - {sender};
        EveryGameDisconnected(sender);
        ServerProps.DisconnectRules(old(Model()), sender);
      }
    }

    /** The round timer of the game filed under `code`. */
    method OnRoundTimer(code: string)
      requires Valid()
      modifies games.Values
      ensures Valid()
      ensures Model() == ServerModel.RoundTimerAt(old(Model()), code)
    {
      if code in games {
        FiledAt(code);
        var game := games[code];
        if game.phase == Question {
          game.StartVoting();
        }
        OnlyOneGameChanged(code);
        ServerProps.RoundTimerRules(old(Model()), code);
      }
    }

    /** The voting timer of the game filed under `code`. */
    method OnVotingTimer(code: string)
      requires Valid()
      modifies games.Values
      ensures Valid()
      ensures Model() == ServerModel.VotingTimerAt(old(Model()), code)
    {
      if code in games {
        FiledAt(code);
        var game := games[code];
        if game.phase == Voting {
          game.EndRound();
        }
        OnlyOneGameChanged(code);
        ServerProps.VotingTimerRules(old(Model()), code);
      }
    }

    /** The timer start-game sets: `startNewRound` for the game filed under `code`. */
    method OnStartDelay(code: string, qperm: seq<nat>, iperm: seq<nat>)
      requires Valid()
      requires code in games ==> RoundShufflesFit(games[code].State(), qperm, iperm)
      modifies games.Values
      ensures Valid()
      ensures Model() == ServerModel.StartDelayAt(old(Model()), code, qperm, iperm)
    {
      if code in games {
        FiledAt(code);
        var game := games[code];
        game.StartNewRound(qperm, iperm);
        ReplacedAt(code);
      }
    }

    /** The timer `endRound` sets; `captured` is the record its callback closed over. */
    method OnIntermission(captured: Game, code: string, qperm: seq<nat>, iperm: seq<nat>)
      requires Valid()
      requires code in games && captured.currentRound < captured.totalRounds ==>
                 RoundShufflesFit(games[code].State(), qperm, iperm)
      modifies games.Values
      ensures Valid()
      ensures Model() == ServerModel.IntermissionAt(old(Model()), code, old(captured.State()), qperm, iperm)
    {
      if code in games {
        FiledAt(code);
        var game := games[code];
        if captured.currentRound >= captured.totalRounds {
          game.EndGame();
        } else {
          game.StartNewRound(qperm, iperm);
        }
        ReplacedAt(code);
      }
    }
  }
}
