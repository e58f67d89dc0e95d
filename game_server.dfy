/** The authoritative game server: a map of games driven through
    Waiting -> Started -> Voting -> Over by five remote operations. Each
    operation checks its conditions in a fixed order and fails, changing
    nothing, at the first one that does not hold. */
module Server {
  import opened GameModel

  datatype Error =
    | NoSuchGame
    | UnknownPlayer
    | EmptyName         // "" is refused as a player name (see the vote bookkeeping)
    | JoinClosed        // a new player tried to join after the Waiting stage
    | ColorsExhausted   // the palette has no colour left for an eleventh player
    | NotGameRunner
    | AlreadyStarted
    | NotStarted
    | NotYourTurn
    | NotVoting
    | UnknownAgainst
    | AlreadyVoted

  datatype Result<T> = Ok(value: T) | Err(error: Error)

  datatype Outcome = Pass | Fail(error: Error)

  /** No game disappears and no game's stage moves backwards. */
  ghost predicate Evolves(before: map<GameId, Game>, after: map<GameId, Game>) {
    forall id :: id in before ==> id in after && before[id].stage.Rank() <= after[id].stage.Rank()
  }

  /** authors[i] is the player who drew stroke i of g: the turn order decides it. */
  ghost predicate Authored(g: Game, authors: seq<PlayerName>)
    requires g.Valid()
  {
    && |authors| == |g.strokes|
    && forall i :: 0 <= i < |authors| ==> authors[i] == g.turnOrder[i % |g.players|]
  }

  /** The ids below n. */
  function IdsBelow(n: nat): (ids: set<GameId>)
    ensures forall id :: id in ids <==> 0 <= id < n
    ensures |ids| == n
  {
    if n == 0 then {} else IdsBelow(n - 1) + {n - 1}
  }

  /** While fewer than n ids are in use, some id below n is free. */
  lemma FreeIdExists(used: set<GameId>, n: nat)
    requires |used| < n
    ensures exists id :: 0 <= id < n && id !in used
  {
    var ids := IdsBelow(n);
    var free := ids - used;
    var shared := ids * used;
    assert ids == free + shared && free !! shared;
    assert used == (used - ids) + shared && (used - ids) !! shared;
    assert free != {};
    var id :| id in free;
  }

  /** The sum of votes, accumulated over the players in map order. */
  method CountVotes(players: map<PlayerName, Player>) returns (total: int)
    ensures total == SumOfVotes(players)
  {
    total := 0;
    var remaining := players.Keys;
    while remaining != {}
      invariant remaining <= players.Keys
      invariant total + SumVotes(players, remaining) == SumOfVotes(players)
      decreases remaining
    {
      var p :| p in remaining;
      SumVotesRemove(players, remaining, p);
      total := total + players[p].votes;
      remaining := remaining - {p};
    }
  }

  /** Every player holds a colour of the palette. */
  ghost predicate PaletteColored(players: map<PlayerName, Player>) {
    forall p :: p in players ==> players[p].color in Colors
  }

  /** What the server keeps of each game it holds: the game invariant, no
      player named "", colours from the palette, and who drew each stroke. */
  ghost predicate Stored(games: map<GameId, Game>, authors: map<GameId, seq<PlayerName>>) {
    && authors.Keys == games.Keys
    && forall id :: id in games ==>
         && games[id].id == id
         && games[id].Valid()
         && "" !in games[id].players
         && PaletteColored(games[id].players)
         && Authored(games[id], authors[id])
  }

  /** Storing one more well-formed game keeps the others as they were. */
  lemma StoreGame(games: map<GameId, Game>, authors: map<GameId, seq<PlayerName>>, g: Game, drawn: seq<PlayerName>)
    requires Stored(games, authors)
    requires g.Valid() && "" !in g.players && PaletteColored(g.players) && Authored(g, drawn)
    ensures Stored(games[g.id := g], authors[g.id := drawn])
  {
  }

  /** Admitting a player to a waiting game keeps what the server keeps of
      its games: the newcomer gets a palette colour and nothing is drawn yet. */
  lemma StoreJoin(games: map<GameId, Game>, authors: map<GameId, seq<PlayerName>>, id: GameId, name: PlayerName)
    requires Stored(games, authors) && id in games && games[id].stage == Waiting
    requires name != "" && name !in games[id].players && |games[id].players| < |Colors|
    ensures var g := games[id];
            Stored(games[id := g.(players := g.players[name := Player(name, Colors[|g.players|], 0, "")],
                                  turnOrder := g.turnOrder + [name])], authors)
  {
    var g := games[id];
    var g' := g.(players := g.players[name := Player(name, Colors[|g.players|], 0, "")],
                 turnOrder := g.turnOrder + [name]);
    JoinValid(g, name);
    assert |g'.strokes| == |g.strokes| == |authors[id]|;
    StoreGame(games, authors, g', authors[id]);
  }

  /** Accepting a stroke from the player whose turn it is keeps what the
      server keeps of its games: that player is recorded as its author. */
  lemma StoreStroke(games: map<GameId, Game>, authors: map<GameId, seq<PlayerName>>, id: GameId,
                    name: PlayerName, stroke: seq<Coord>)
    requires Stored(games, authors) && id in games && games[id].stage == Started
    requires games[id].TurnPlayer() == name
    ensures Stored(games[id := AfterStroke(games[id], stroke)], authors[id := authors[id] + [name]])
  {
    var g := games[id];
    StrokeValid(g, stroke);
    StoreGame(games, authors, AfterStroke(g, stroke), authors[id] + [name]);
  }

  /** Recording a vote keeps what the server keeps of its games. */
  lemma StoreVote(games: map<GameId, Game>, authors: map<GameId, seq<PlayerName>>, id: GameId,
                  name: PlayerName, against: PlayerName)
    requires Stored(games, authors) && id in games && games[id].stage == Voting
    requires name in games[id].players && against in games[id].players
    requires games[id].players[name].votedAgainst == ""
    ensures var g := games[id];
            var q := AfterVote(g.players, name, against);
            Stored(games[id := g.(players := q, stage := if SumOfVotes(q) == |q| then Over else Voting)], authors)
  {
    var g := games[id];
    var q := AfterVote(g.players, name, against);
    VoteValid(g, name, against);
    StoreGame(games, authors, g.(players := q, stage := if SumOfVotes(q) == |q| then Over else Voting), authors[id]);
  }

  /** Every game the server holds, once its vote is open, is over exactly
      when every one of its players has voted. */
  lemma OverWhenAllVoted(s: GameServer, id: GameId)
    requires s.Valid() && id in s.games
    requires s.games[id].stage == Voting || s.games[id].stage == Over
    ensures s.games[id].stage == Over <==> Voters(s.games[id].players) == s.games[id].players.Keys
  {
    OverIffAllVoted(s.games[id]);
  }

  class GameServer {
    var games: map<GameId, Game>
    /** For each game, who drew each of its strokes. */
    ghost var authors: map<GameId, seq<PlayerName>>

    ghost predicate Valid()
      reads this
    {
      Stored(games, authors)
    }

    constructor ()
      ensures Valid()
      ensures games == map[]
    {
      games := map[];
      authors := map[];
    }

    /** Picks an id in [0, MaxGameId) that no game uses. The source retries
        random ids until one is free, so it ends only while one exists. */
    method MakeGameId() returns (id: GameId)
      requires |games| < MaxGameId
      ensures 0 <= id < MaxGameId
      ensures id !in games
    {
      FreeIdExists(games.Keys, MaxGameId);
      id :| 0 <= id < MaxGameId && id !in games;
    }

    /** Creates a game with its creator as the only player. The empty name is
        refused: with it the vote bookkeeping cannot tell who has voted. */
    method NewGame(name: PlayerName) returns (r: Result<Game>)
      requires Valid()
      requires |games| < MaxGameId
      modifies this
      ensures Valid()
      ensures Evolves(old(games), games)
      ensures name == "" ==> r == Err(EmptyName) && games == old(games) && authors == old(authors)
      ensures name != "" ==>
        && r.Ok?
        && var g := r.value;
        && g.id !in old(games) && 0 <= g.id < MaxGameId
        && g == Game(g.id, Waiting, name, map[name := Player(name, Colors[0], 0, "")], [name], 0, [])
        && games == old(games)[g.id := g]
        && authors == old(authors)[g.id := []]
    {
      if name == "" {
        return Err(EmptyName);
      }
      var id := MakeGameId();
      var players := map[name := Player(name, Colors[0], 0, "")];
      var g := Game(id, Waiting, name, players, [name], 0, []);
      NewGameValid(id, name);
      StoreGame(games, authors, g, []);
      games := games[id := g];
      authors := authors[id := []];
      return Ok(g);
    }

    method JoinGame(gameId: GameId, name: PlayerName) returns (r: Result<Game>)
      requires Valid()
      modifies this
      ensures Valid()
      ensures Evolves(old(games), games)
      ensures authors == old(authors)
      ensures gameId !in old(games) ==> r == Err(NoSuchGame) && games == old(games)
      ensures gameId in old(games) ==>
        var g := old(games)[gameId];
        if name in g.players then
          r == Ok(g) && games == old(games)
        else if name == "" then
          r == Err(EmptyName) && games == old(games)
        else if g.stage != Waiting then
          r == Err(JoinClosed) && games == old(games)
        else if |g.players| == |Colors| then
          r == Err(ColorsExhausted) && games == old(games)
        else
          var g' := g.(players := g.players[name := Player(name, Colors[|g.players|], 0, "")],
                       turnOrder := g.turnOrder + [name]);
          r == Ok(g') && games == old(games)[gameId := g']
    {
      if gameId !in games {
        return Err(NoSuchGame);
      }
      var g := games[gameId];
      if name !in g.players {
        if name == "" {
          return Err(EmptyName);
        }
        if g.stage != Waiting {
          return Err(JoinClosed);
        }
        if |g.players| >= |Colors| {
          return Err(ColorsExhausted);
        }
        StoreJoin(games, authors, gameId, name);
        var player := Player(name, Colors[|g.players|], 0, "");
        g := g.(players := g.players[name := player], turnOrder := g.turnOrder + [name]);
        games := games[gameId := g];
      }
      return Ok(g);
    }

    method StartGame(gameId: GameId, name: PlayerName) returns (r: Outcome)
      requires Valid()
      modifies this
      ensures Valid()
      ensures Evolves(old(games), games)
      ensures authors == old(authors)
      ensures gameId !in old(games) ==> r == Fail(NoSuchGame) && games == old(games)
      ensures gameId in old(games) ==>
        var g := old(games)[gameId];
        if name !in g.players then
          r == Fail(UnknownPlayer) && games == old(games)
        else if g.player0 != name then
          r == Fail(NotGameRunner) && games == old(games)
        else if g.stage != Waiting then
          r == Fail(AlreadyStarted) && games == old(games)
        else
          && r == Pass
          && gameId in games
          && games == old(games)[gameId := g.(stage := Started, turnOrderRound := 0,
                                              turnOrder := games[gameId].turnOrder)]
          && multiset(games[gameId].turnOrder) == multiset(g.turnOrder)
    {
      if gameId !in games {
        return Fail(NoSuchGame);
      }
      var g := games[gameId];
      if name !in g.players {
        return Fail(UnknownPlayer);
      }
      if g.player0 != name {
        return Fail(NotGameRunner);
      }
      if g.stage != Waiting {
        return Fail(AlreadyStarted);
      }
      // the shuffle: any reordering of the turn order
      var shuffled: seq<PlayerName> :| multiset(shuffled) == multiset(g.turnOrder);
      StartValid(g, shuffled);
      g := g.(turnOrder := shuffled, turnOrderRound := 0, stage := Started);
      games := games[gameId := g];
      return Pass;
    }

    method DrawStroke(gameId: GameId, name: PlayerName, stroke: seq<Coord>) returns (r: Outcome)
      requires Valid()
      modifies this
      ensures Valid()
      ensures Evolves(old(games), games)
      ensures r.Fail? ==> games == old(games) && authors == old(authors)
      ensures gameId !in old(games) ==> r == Fail(NoSuchGame)
      ensures gameId in old(games) ==>
        var g := old(games)[gameId];
        if name !in g.players then
          r == Fail(UnknownPlayer)
        else if g.stage != Started then
          r == Fail(NotStarted)
        else if g.TurnPlayer() != name then
          r == Fail(NotYourTurn)
        else
          && r == Pass
          && games == old(games)[gameId := AfterStroke(g, stroke)]
          && authors == old(authors)[gameId := old(authors)[gameId] + [name]]
    {
      if gameId !in games {
        return Fail(NoSuchGame);
      }
      var g := games[gameId];
      if name !in g.players {
        return Fail(UnknownPlayer);
      }
      if g.stage != Started {
        return Fail(NotStarted);
      }
      var numPlayers := |g.players|;
      var current := g.turnOrder[g.turnOrderRound % numPlayers];
      if current != name {
        return Fail(NotYourTurn);
      }
      StoreStroke(games, authors, gameId, name, stroke);
      ghost var before := g;
      g := g.(strokes := g.strokes + [stroke], turnOrderRound := g.turnOrderRound + 1);
      if g.turnOrderRound == |g.players| * 2 {
        g := g.(stage := Voting);
      }
      assert g == AfterStroke(before, stroke);
      games := games[gameId := g];
      authors := authors[gameId := authors[gameId] + [name]];
      return Pass;
    }

    method VoteAgainst(gameId: GameId, name: PlayerName, against: PlayerName) returns (r: Outcome)
      requires Valid()
      modifies this
      ensures Valid()
      ensures Evolves(old(games), games)
      ensures authors == old(authors)
      ensures r.Fail? ==> games == old(games)
      ensures gameId !in old(games) ==> r == Fail(NoSuchGame)
      ensures gameId in old(games) ==>
        var g := old(games)[gameId];
        if name !in g.players then
          r == Fail(UnknownPlayer)
        else if g.stage != Voting then
          r == Fail(NotVoting)
        else if against !in g.players then
          r == Fail(UnknownAgainst)
        else if |g.players[name].votedAgainst| > 0 then
          r == Fail(AlreadyVoted)
        else
          var counted := AfterVote(g.players, name, against);
          && r == Pass
          && SumOfVotes(counted) == SumOfVotes(g.players) + 1
          && games == old(games)[gameId := g.(players := counted,
                                              stage := if SumOfVotes(counted) == |g.players| then Over else Voting)]
    {
      if gameId !in games {
        return Fail(NoSuchGame);
      }
      var g := games[gameId];
      if name !in g.players {
        return Fail(UnknownPlayer);
      }
      var player := g.players[name];
      if g.stage != Voting {
        return Fail(NotVoting);
      }
      if against !in g.players {
        return Fail(UnknownAgainst);
      }
      if |player.votedAgainst| > 0 {
        return Fail(AlreadyVoted);
      }
      // record the voter's choice, then count the vote against its target
      var counted := AfterVote(g.players, name, against);
      VoteStep(g.players, name, against);
      StoreVote(games, authors, gameId, name, against);

      // did everyone vote?
      var totalVotes := CountVotes(counted);
      g := g.(players := counted);
      if totalVotes == |counted| {
        g := g.(stage := Over);
      }
      games := games[gameId := g];
      return Pass;
    }
  }
}
