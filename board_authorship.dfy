/** The client's stroke colouring checked against the server's record of
    who drew each stroke. */
module BoardAuthorship {
  import opened GameModel
  import opened GameStateScreen
  import opened Canvas
  import Server

  /** On every game the server holds, the colour the board gives committed
      stroke i is the colour of the player the server accepted that stroke
      from. */
  lemma StrokeColorIsAuthorColor(s: Server.GameServer, id: GameId, name: PlayerName, i: nat)
    requires s.Valid() && id in s.games && name in s.games[id].players
    requires forall k :: 0 <= k < |s.games[id].strokes| ==> |s.games[id].strokes[k]| > 0
    requires i < |s.games[id].strokes|
    ensures Renderable(GameState(id, name, Some(s.games[id])))
    ensures StrokeColor(GameState(id, name, Some(s.games[id])), i) == s.games[id].players[s.authors[id][i]].color
  {
    ServerSnapshotRenderable(s.games[id], name, id);
  }

  /** Every colour the server hands its players is one a canvas can draw
      with, so a player's view of any game the server holds redraws the
      board with each committed stroke in its author's colour. */
  lemma ServerBoardRedraw(s: Server.GameServer, id: GameId, name: PlayerName, surface: Surface, buffer: seq<Coord>)
    requires s.Valid() && id in s.games && name in s.games[id].players
    requires forall k :: 0 <= k < |s.games[id].strokes| ==> |s.games[id].strokes[k]| > 0
    ensures var state := GameState(id, name, Some(s.games[id]));
            && Renderable(state)
            && ColorsParse(state)
            && Run(surface, BoardCommands(state, buffer)).drawn
               == (if |buffer| > 0 then [Polyline(SelfColor(state), LineWidth, buffer)] else [])
                  + CommittedPicture(state, |s.games[id].strokes|)
  {
    var state := GameState(id, name, Some(s.games[id]));
    ServerSnapshotRenderable(s.games[id], name, id);
    PaletteParses();
    assert Server.PaletteColored(s.games[id].players);
    forall p | p in s.games[id].players ensures Parses(s.games[id].players[p].color) {
      var c := s.games[id].players[p].color;
      assert c in Colors;
      var i :| 0 <= i < |Colors| && Colors[i] == c;
    }
    RedrawPicture(surface, state, buffer);
  }
}
