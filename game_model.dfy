/** The game records of the drawing/guessing party game: stages, players,
    games, the colour palette, the turn rule and vote bookkeeping. */
module GameModel {

  type GameId = int
  type PlayerName = string
  type Color = string

  /** The palette handed out by join position, as the server writes it. Entry
      8, "cornflower", is not a colour a canvas can draw with. */
  const ColorsAsWritten: seq<Color> := ["darkgreen", "darkblue", "maroon", "red", "gold",
                                        "chartreuse", "aqua", "fuchsia", "cornflower", "peachpuff"]

  /** The palette the model hands out: the written one with entry 8 corrected
      to the colour name it evidently means. */
  const Colors: seq<Color> := ["darkgreen", "darkblue", "maroon", "red", "gold",
                               "chartreuse", "aqua", "fuchsia", "cornflowerblue", "peachpuff"]

  /** Game ids are drawn from [0, MaxGameId). */
  const MaxGameId: nat := 10000

  /** The stages a game moves through, in order. */
  datatype Stage = Waiting | Started | Voting | Over {
    /** The numeric value the stage has on the wire (0 to 3). */
    function Rank(): (n: nat)
      ensures n < 4
      ensures n == 0 <==> Waiting?
      ensures n == 1 <==> Started?
      ensures n == 2 <==> Voting?
      ensures n == 3 <==> Over?
    {
      match this
      case Waiting => 0
      case Started => 1
      case Voting => 2
      case Over => 3
    }
  }

  datatype Coord = Coord(x: int, y: int)

  /** votedAgainst == "" means the player has not voted yet. */
  datatype Player = Player(name: PlayerName, color: Color, votes: nat, votedAgainst: PlayerName)

  datatype Game = Game(
    id: GameId,
    stage: Stage,
    player0: PlayerName,
    players: map<PlayerName, Player>,
    turnOrder: seq<PlayerName>,
    turnOrderRound: nat,
    strokes: seq<seq<Coord>>)
  {
    /** The invariant every game held by the server keeps. */
    ghost predicate Valid() {
      && 0 <= id < MaxGameId
      && player0 in players
      && |players| <= |Colors|
      && (forall p :: p in players ==> players[p].name == p)
      // the turn order is a permutation of the player names
      && multiset(turnOrder) == multiset(players.Keys)
      && |turnOrder| == |players|
      && (forall i :: 0 <= i < |turnOrder| ==> turnOrder[i] in players)
      && |strokes| == turnOrderRound
      && (stage == Waiting ==>
            && turnOrderRound == 0
            && forall i :: 0 <= i < |turnOrder| ==> players[turnOrder[i]].color == Colors[i])
      && (stage == Started ==> turnOrderRound < 2 * |players|)
      && (stage == Voting || stage == Over ==> turnOrderRound == 2 * |players|)
      && (stage == Waiting || stage == Started ==> NoVotes(players))
      && (stage == Voting ==> SumOfVotes(players) < |players|)
      && (stage == Over ==> SumOfVotes(players) == |players|)
      && ("" !in players ==> SumOfVotes(players) == |Voters(players)|)
    }

    /** Whose turn it is: the server's rule, also used by the client. */
    function TurnPlayer(): (p: PlayerName)
      requires Valid()
      ensures p in players
      ensures p == turnOrder[turnOrderRound % |players|]
    {
      turnOrder[turnOrderRound % |players|]
    }
  }

  /** Nobody has voted and nobody has received a vote. */
  ghost predicate NoVotes(players: map<PlayerName, Player>) {
    forall p :: p in players ==> players[p].votes == 0 && players[p].votedAgainst == ""
  }

  /** The players who have cast their vote. */
  ghost function Voters(players: map<PlayerName, Player>): set<PlayerName> {
    set p | p in players && players[p].votedAgainst != ""
  }

  /** The number of votes cast against the players in names. */
  ghost function SumVotes(players: map<PlayerName, Player>, names: set<PlayerName>): (total: int)
    requires names <= players.Keys
    ensures total >= 0
    decreases names
  {
    if names == {} then 0
    else
      var n :| n in names;
      players[n].votes + SumVotes(players, names - {n})
  }

  ghost function SumOfVotes(players: map<PlayerName, Player>): int {
    SumVotes(players, players.Keys)
  }

  /** Any name may be taken out of the sum first. */
  lemma {:induction false} SumVotesRemove(players: map<PlayerName, Player>, names: set<PlayerName>, n: PlayerName)
    requires n in names && names <= players.Keys
    ensures SumVotes(players, names) == players[n].votes + SumVotes(players, names - {n})
    decreases names
  {
    var m :| m in names && SumVotes(players, names) == players[m].votes + SumVotes(players, names - {m});
    if m != n {
      SumVotesRemove(players, names - {m}, n);
      SumVotesRemove(players, names - {n}, m);
      assert names - {m} - {n} == names - {n} - {m};
    }
  }

  /** Only the vote counts matter to the sum. */
  lemma {:induction false} SumVotesSameCounts(p: map<PlayerName, Player>, q: map<PlayerName, Player>, names: set<PlayerName>)
    requires names <= p.Keys && names <= q.Keys
    requires forall n :: n in names ==> p[n].votes == q[n].votes
    ensures SumVotes(p, names) == SumVotes(q, names)
    decreases names
  {
    if names != {} {
      var n :| n in names;
      SumVotesRemove(p, names, n);
      SumVotesRemove(q, names, n);
      SumVotesSameCounts(p, q, names - {n});
    }
  }

  /** Adding one vote against a player adds one to the total. */
  lemma SumOfVotesIncrement(players: map<PlayerName, Player>, against: PlayerName)
    requires against in players
    ensures SumOfVotes(players[against := players[against].(votes := players[against].votes + 1)])
            == SumOfVotes(players) + 1
  {
    var q := players[against := players[against].(votes := players[against].votes + 1)];
    assert q.Keys == players.Keys;
    SumVotesRemove(players, players.Keys, against);
    SumVotesRemove(q, q.Keys, against);
    SumVotesSameCounts(players, q, players.Keys - {against});
  }

  /** The total is zero when nobody has been voted against. */
  lemma {:induction false} SumVotesZero(players: map<PlayerName, Player>, names: set<PlayerName>)
    requires names <= players.Keys
    requires forall n :: n in names ==> players[n].votes == 0
    ensures SumVotes(players, names) == 0
    decreases names
  {
    if names != {} {
      var n :| n in names;
      SumVotesRemove(players, names, n);
      SumVotesZero(players, names - {n});
    }
  }

  /** A permutation of a set of names has one entry per name, and only those names. */
  lemma PermutationFacts(order: seq<PlayerName>, names: set<PlayerName>)
    requires multiset(order) == multiset(names)
    ensures |order| == |names|
    ensures forall i :: 0 <= i < |order| ==> order[i] in names
  {
    assert |multiset(order)| == |order|;
    forall i | 0 <= i < |order| ensures order[i] in names {
      assert order[i] in multiset(order);
    }
  }

  /** A fresh game holds the invariant. */
  lemma NewGameValid(id: GameId, name: PlayerName)
    requires 0 <= id < MaxGameId
    ensures Game(id, Waiting, name, map[name := Player(name, Colors[0], 0, "")], [name], 0, []).Valid()
  {
    var players := map[name := Player(name, Colors[0], 0, "")];
    SumVotesZero(players, players.Keys);
    assert Voters(players) == {};
  }

  /** The joined name goes to the end of the turn order: it stays a
      permutation of the player names. */
  lemma JoinOrder(g: Game, name: PlayerName)
    requires g.Valid() && name !in g.players && |g.players| < |Colors|
    ensures var players := g.players[name := Player(name, Colors[|g.players|], 0, "")];
            var order := g.turnOrder + [name];
            && multiset(order) == multiset(players.Keys)
            && |order| == |players|
            && forall i :: 0 <= i < |order| ==> order[i] in players
  {
    var players := g.players[name := Player(name, Colors[|g.players|], 0, "")];
    var order := g.turnOrder + [name];
    assert players.Keys == g.players.Keys + {name};
    assert |players| == |g.players| + 1;
    assert multiset(players.Keys) == multiset(g.players.Keys) + multiset{name};
    assert multiset(order) == multiset(g.turnOrder) + multiset{name};
  }

  /** The joined player gets the colour of its join position. */
  lemma JoinColors(g: Game, name: PlayerName)
    requires g.Valid() && g.stage == Waiting && name !in g.players && |g.players| < |Colors|
    ensures var players := g.players[name := Player(name, Colors[|g.players|], 0, "")];
            var order := g.turnOrder + [name];
            forall i :: 0 <= i < |order| ==> order[i] in players && players[order[i]].color == Colors[i]
  {
    var players := g.players[name := Player(name, Colors[|g.players|], 0, "")];
    var order := g.turnOrder + [name];
    forall i | 0 <= i < |order| ensures order[i] in players && players[order[i]].color == Colors[i] {
      if i < |g.turnOrder| {
        assert order[i] == g.turnOrder[i] && order[i] != name;
      }
    }
  }

  /** Admitting a new player keeps the invariant: the name goes to the end of
      the turn order and gets the next unused colour. */
  lemma JoinValid(g: Game, name: PlayerName)
    requires g.Valid() && g.stage == Waiting
    requires name !in g.players && |g.players| < |Colors|
    ensures g.(players := g.players[name := Player(name, Colors[|g.players|], 0, "")],
               turnOrder := g.turnOrder + [name]).Valid()
  {
    var players := g.players[name := Player(name, Colors[|g.players|], 0, "")];
    JoinOrder(g, name);
    JoinColors(g, name);
    assert NoVotes(players);
    SumVotesZero(players, players.Keys);
    assert Voters(players) == {};
  }

  /** Starting keeps the invariant whatever permutation the shuffle picks. */
  lemma StartValid(g: Game, order: seq<PlayerName>)
    requires g.Valid() && g.stage == Waiting
    requires multiset(order) == multiset(g.turnOrder)
    ensures g.(stage := Started, turnOrderRound := 0, turnOrder := order).Valid()
  {
    PermutationFacts(order, g.players.Keys);
  }

  /** The game after one accepted stroke. */
  function AfterStroke(g: Game, stroke: seq<Coord>): (g': Game)
    ensures g'.strokes == g.strokes + [stroke]
    ensures g'.turnOrderRound == g.turnOrderRound + 1
    ensures g'.stage == (if g'.turnOrderRound == 2 * |g.players| then Voting else g.stage)
    ensures g'.players == g.players && g'.turnOrder == g.turnOrder && g'.id == g.id && g'.player0 == g.player0
  {
    var round := g.turnOrderRound + 1;
    g.(strokes := g.strokes + [stroke], turnOrderRound := round,
       stage := if round == 2 * |g.players| then Voting else g.stage)
  }

  /** A stroke keeps the invariant; the 2n-th stroke opens the vote. */
  lemma StrokeValid(g: Game, stroke: seq<Coord>)
    requires g.Valid() && g.stage == Started
    ensures AfterStroke(g, stroke).Valid()
    ensures AfterStroke(g, stroke).stage in {Started, Voting}
  {
    var g' := AfterStroke(g, stroke);
    if g'.stage == Voting {
      SumVotesZero(g.players, g.players.Keys);
    }
  }

  /** The players after name votes against against. */
  function AfterVote(players: map<PlayerName, Player>, name: PlayerName, against: PlayerName): (q: map<PlayerName, Player>)
    requires name in players && against in players
    ensures q.Keys == players.Keys
    ensures q[name].votedAgainst == against
    ensures q[against].votes == players[against].votes + 1
    ensures forall p :: p in q && p != name && p != against ==> q[p] == players[p]
    ensures forall p :: p in q ==> q[p].name == players[p].name && q[p].color == players[p].color
  {
    var cast := players[name := players[name].(votedAgainst := against)];
    cast[against := cast[against].(votes := cast[against].votes + 1)]
  }

  /** One vote adds one to the total; when no player is named "" it also
      adds the voter, and only the voter, to the set of those who voted. */
  lemma VoteStep(players: map<PlayerName, Player>, name: PlayerName, against: PlayerName)
    requires name in players && against in players
    requires players[name].votedAgainst == ""
    ensures SumOfVotes(AfterVote(players, name, against)) == SumOfVotes(players) + 1
    ensures "" !in players ==>
              && name !in Voters(players)
              && Voters(AfterVote(players, name, against)) == Voters(players) + {name}
  {
    var cast := players[name := players[name].(votedAgainst := against)];
    assert cast.Keys == players.Keys;
    SumVotesSameCounts(players, cast, players.Keys);
    SumOfVotesIncrement(cast, against);
  }

  /** A vote keeps the invariant; the game is over exactly when the total reaches the player count. */
  lemma VoteValid(g: Game, name: PlayerName, against: PlayerName)
    requires g.Valid() && g.stage == Voting
    requires name in g.players && against in g.players && g.players[name].votedAgainst == ""
    ensures
      var q := AfterVote(g.players, name, against);
      g.(players := q, stage := if SumOfVotes(q) == |q| then Over else Voting).Valid()
  {
    VoteStep(g.players, name, against);
  }

  /** In every game the server holds, no more votes are cast than there are
      players, and the game is over exactly when every player's vote is in. */
  lemma VotesBounded(g: Game)
    requires g.Valid()
    ensures 0 <= SumOfVotes(g.players) <= |g.players|
    ensures g.stage == Over <==> g.stage.Rank() >= 2 && SumOfVotes(g.players) == |g.players|
  {
    if g.stage == Waiting || g.stage == Started {
      SumVotesZero(g.players, g.players.Keys);
    }
  }

  /** A subset as large as the whole is the whole. */
  lemma SubsetSameSize(part: set<PlayerName>, whole: set<PlayerName>)
    requires part <= whole && |part| == |whole|
    ensures part == whole
  {
    var rest := whole - part;
    assert whole == part + rest && part !! rest;
    assert |rest| == 0;
  }

  /** Once the vote is open, and when no player is named "", the game is
      over exactly when every player has cast a vote. */
  lemma OverIffAllVoted(g: Game)
    requires g.Valid() && (g.stage == Voting || g.stage == Over)
    requires "" !in g.players
    ensures g.stage == Over <==> Voters(g.players) == g.players.Keys
  {
    var voters := Voters(g.players);
    assert |g.players.Keys| == |g.players|;
    if |voters| == |g.players| {
      SubsetSameSize(voters, g.players.Keys);
    }
  }

  /** Two players, the creator "" and "B" who joined second, as the vote
      opens after four strokes. */
  function EmptyNameGame(): (g: Game)
    ensures g.stage == Voting && g.players.Keys == {"", "B"}
    ensures NoVotes(g.players)
  {
    var dot := [Coord(0, 0)];
    var players := map["" := Player("", Colors[0], 0, ""), "B" := Player("B", Colors[1], 0, "")];
    assert players.Keys == {"", "B"};
    Game(0, Voting, "", players, ["B", ""], 4, [dot, dot, dot, dot])
  }

  lemma EmptyNameGameValid()
    ensures EmptyNameGame().Valid()
  {
    var g := EmptyNameGame();
    assert multiset(g.turnOrder) == multiset(g.players.Keys);
    SumVotesZero(g.players, g.players.Keys);
  }

  /** The already-voted test reads an empty votedAgainst as "has not voted",
      so a vote against the player named "" leaves the voter free to vote
      again: B casts both votes, the total reaches the player count and the
      game is over, yet no player is recorded as having voted. */
  lemma EmptyNameEndsVoteEarly()
    ensures var g := EmptyNameGame();
            var once := AfterVote(g.players, "B", "");
            var twice := AfterVote(once, "B", "");
            && g.Valid()
            && g.(players := once).Valid()
            && |once["B"].votedAgainst| == 0
            && SumOfVotes(twice) == |twice|
            && g.(players := twice, stage := Over).Valid()
            && Voters(twice) == {}
  {
    var g := EmptyNameGame();
    EmptyNameGameValid();
    var once := AfterVote(g.players, "B", "");
    VoteStep(g.players, "B", "");
    SumVotesZero(g.players, g.players.Keys);
    VoteValid(g, "B", "");
    var g1 := g.(players := once);
    VoteStep(once, "B", "");
    VoteValid(g1, "B", "");
  }
}
