/** The playing screen of the browser client: whose turn it is, how the
    board is redrawn from a pushed game snapshot, and the pointer handlers
    that capture the local player's stroke. */
module GameStateScreen {
  import opened GameModel
  import opened Canvas

  datatype Option<T> = None | Some(value: T)

  /** The client's state: the game it is in, the local player's name and the
      latest snapshot the server pushed. */
  datatype GameState = GameState(gameId: GameId, name: PlayerName, data: Option<Game>)

  /** A remote call recorded instead of sent: drawStroke(gameId, name, stroke). */
  datatype DrawStrokeCall = DrawStrokeCall(gameId: GameId, name: PlayerName, stroke: seq<Coord>)

  /** The width every stroke is drawn with. */
  const LineWidth: int := 3

  // ---------------------------------------------------------------- turns

  /** getCurrentTurnPlayer: the turn-order entry at round mod player count.
      A lookup outside the turn order (or a division by zero players)
      yields no name, as the source's lookup yields undefined. */
  function CurrentTurnPlayer(g: Game): (p: Option<PlayerName>)
    ensures p.Some? <==> |g.players| > 0 && g.turnOrderRound % |g.players| < |g.turnOrder|
  {
    var n := |g.players|;
    if n > 0 && g.turnOrderRound % n < |g.turnOrder| then Some(g.turnOrder[g.turnOrderRound % n]) else None
  }

  /** The screen's own copy of the rule, dividing by the length of its list
      of players (one entry per player). */
  function ListedTurnPlayer(g: Game, listed: seq<Player>): (p: Option<PlayerName>)
    requires |listed| == |g.players|
    ensures p.Some? <==> |listed| > 0 && g.turnOrderRound % |listed| < |g.turnOrder|
  {
    var n := |listed|;
    if n > 0 && g.turnOrderRound % n < |g.turnOrder| then Some(g.turnOrder[g.turnOrderRound % n]) else None
  }

  /** On every snapshot the server can push, both client computations name
      the player the server will accept a stroke from. */
  lemma TurnAgreement(g: Game, listed: seq<Player>)
    requires g.Valid() && |listed| == |g.players|
    ensures CurrentTurnPlayer(g) == Some(g.TurnPlayer())
    ensures ListedTurnPlayer(g, listed) == Some(g.TurnPlayer())
  {
  }

  // ---------------------------------------------------------------- board

  /** What the board needs of a snapshot: the local player and every
      stroke's author are present, and no committed stroke is empty. */
  ghost predicate Renderable(state: GameState) {
    && state.data.Some?
    && var g := state.data.value;
    && state.name in g.players
    && |g.players| > 0
    && forall i :: 0 <= i < |g.strokes| ==>
         && |g.strokes[i]| > 0
         && i % |g.players| < |g.turnOrder|
         && g.turnOrder[i % |g.players|] in g.players
  }

  /** Every snapshot of a game the server holds can be drawn for any of its
      players, provided no empty stroke was submitted. */
  lemma ServerSnapshotRenderable(g: Game, name: PlayerName, gameId: GameId)
    requires g.Valid() && name in g.players
    requires forall i :: 0 <= i < |g.strokes| ==> |g.strokes[i]| > 0
    ensures Renderable(GameState(gameId, name, Some(g)))
  {
  }

  function SelfColor(state: GameState): Color
    requires Renderable(state)
  {
    state.data.value.players[state.name].color
  }

  /** Committed stroke i is coloured as its author: the player at
      turn-order position i mod player count. */
  function StrokeColor(state: GameState, i: nat): (c: Color)
    requires Renderable(state) && i < |state.data.value.strokes|
    ensures var g := state.data.value;
            exists p :: p in g.players && c == g.players[p].color && p == g.turnOrder[i % |g.players|]
  {
    var g := state.data.value;
    g.players[g.turnOrder[i % |g.players|]].color
  }

  /** One lineTo per point, in order. */
  function LineTos(pts: seq<Coord>): (cmds: seq<Cmd>)
    ensures |cmds| == |pts|
    ensures forall i :: 0 <= i < |pts| ==> cmds[i] == LineTo(pts[i])
    decreases |pts|
  {
    if pts == [] then [] else LineTos(pts[..|pts| - 1]) + [LineTo(pts[|pts| - 1])]
  }

  /** The commands renderStroke issues: style, width, a new path, a moveTo
      to the first point, a lineTo to each later point, then stroke. */
  function StrokeCommands(pts: seq<Coord>, color: Color): seq<Cmd>
    requires |pts| > 0
  {
    [SetStrokeStyle(color), SetLineWidth(LineWidth), BeginPath, MoveTo(pts[0])] + LineTos(pts[1..]) + [Stroke]
  }

  /** The commands for the committed strokes 0 .. k-1, in index order. */
  function CommittedCommands(state: GameState, k: nat): seq<Cmd>
    requires Renderable(state) && k <= |state.data.value.strokes|
  {
    if k == 0 then []
    else CommittedCommands(state, k - 1) + StrokeCommands(state.data.value.strokes[k - 1], StrokeColor(state, k - 1))
  }

  /** The commands renderStrokes issues: clear the whole board, draw the
      local buffer in the local colour if it is not empty, then every
      committed stroke in its author's colour. */
  function BoardCommands(state: GameState, buffer: seq<Coord>): seq<Cmd>
    requires Renderable(state)
  {
    [ClearRect(0, 0, Width, Height)]
    + (if |buffer| > 0 then StrokeCommands(buffer, SelfColor(state)) else [])
    + CommittedCommands(state, |state.data.value.strokes|)
  }

  method RenderStroke(pts: seq<Coord>, color: Color) returns (cmds: seq<Cmd>)
    requires |pts| > 0
    ensures cmds == StrokeCommands(pts, color)
  {
    cmds := [SetStrokeStyle(color), SetLineWidth(LineWidth), BeginPath];
    cmds := cmds + [MoveTo(pts[0])];
    var i := 1;
    while i < |pts|
      invariant 1 <= i <= |pts|
      invariant cmds == [SetStrokeStyle(color), SetLineWidth(LineWidth), BeginPath, MoveTo(pts[0])] + LineTos(pts[1..i])
    {
      assert pts[1..i + 1][..i - 1] == pts[1..i];
      cmds := cmds + [LineTo(pts[i])];
      i := i + 1;
    }
    assert pts[1..i] == pts[1..];
    cmds := cmds + [Stroke];
  }

  /** The commands for one more committed stroke follow those before it. */
  lemma CommittedStep(state: GameState, i: nat)
    requires Renderable(state) && i < |state.data.value.strokes|
    ensures var g := state.data.value;
            CommittedCommands(state, i + 1)
            == CommittedCommands(state, i) + StrokeCommands(g.strokes[i], g.players[g.turnOrder[i % |g.players|]].color)
  {
  }

  method RenderStrokes(state: GameState, buffer: seq<Coord>) returns (cmds: seq<Cmd>)
    requires Renderable(state)
    ensures cmds == BoardCommands(state, buffer)
  {
    var g := state.data.value;
    var selfColor := g.players[state.name].color;
    var numPlayers := |g.players|;
    cmds := [ClearRect(0, 0, Width, Height)];
    if |buffer| > 0 {
      var own := RenderStroke(buffer, selfColor);
      cmds := cmds + own;
    }
    ghost var head := cmds;
    assert head == [ClearRect(0, 0, Width, Height)] + (if |buffer| > 0 then StrokeCommands(buffer, SelfColor(state)) else []);
    var i := 0;
    while i < |g.strokes|
      invariant 0 <= i <= |g.strokes|
      invariant cmds == head + CommittedCommands(state, i)
    {
      var player := g.turnOrder[i % numPlayers];
      var color := g.players[player].color;
      var one := RenderStroke(g.strokes[i], color);
      CommittedStep(state, i);
      assert cmds + one == head + (CommittedCommands(state, i) + one);
      cmds := cmds + one;
      i := i + 1;
    }
  }

  // ------------------------------------------- what the commands paint

  /** The lineTos extend the last subpath by exactly the given points. */
  lemma {:induction false} RunLineTos(s: Surface, pts: seq<Coord>)
    requires |s.path| > 0
    ensures Run(s, LineTos(pts)) == s.(path := s.path[..|s.path| - 1] + [s.path[|s.path| - 1] + pts])
    decreases |pts|
  {
    var last := |s.path| - 1;
    if pts == [] {
      assert s.path[last] + pts == s.path[last];
      assert s.path[..last] + [s.path[last]] == s.path;
    } else {
      var front, q := pts[..|pts| - 1], pts[|pts| - 1];
      RunAppend(s, LineTos(front), [LineTo(q)]);
      RunLineTos(s, front);
      var mid := Run(s, LineTos(front));
      assert Run(mid, [LineTo(q)]) == Step(mid, LineTo(q));
      assert mid.path[..last] == s.path[..last];
      assert mid.path[last] == s.path[last] + front;
      assert front + [q] == pts;
      assert s.path[last] + front + [q] == s.path[last] + pts;
    }
  }

  /** Running a stroke's commands paints exactly that stroke, once, in the
      stroke width, on top of what was there: in the given colour when it
      parses, and otherwise in the style set before. */
  lemma RunStroke(s: Surface, pts: seq<Coord>, color: Color)
    requires |pts| > 0
    ensures Run(s, StrokeCommands(pts, color)).drawn
            == s.drawn + [Polyline(if Parses(color) then color else s.style, LineWidth, pts)]
  {
    var style := if Parses(color) then color else s.style;
    var opening := [SetStrokeStyle(color), SetLineWidth(LineWidth), BeginPath, MoveTo(pts[0])];
    RunAppend(s, opening + LineTos(pts[1..]), [Stroke]);
    RunAppend(s, opening, LineTos(pts[1..]));
    RunOpening(s, color, pts[0]);
    var started := Run(s, opening);
    RunLineTos(started, pts[1..]);
    assert [pts[0]] + pts[1..] == pts;
    var traced := Run(started, LineTos(pts[1..]));
    assert traced == s.(style := style, width := LineWidth, path := [pts]);
    assert Run(traced, [Stroke]) == Step(traced, Stroke);
    assert Painted(traced) == [Polyline(style, LineWidth, pts)];
  }

  /** With the palette as written, a stroke in the ninth player's colour is
      painted in whatever style the surface had before it. */
  lemma WrittenNinthColorKeepsStyle(s: Surface, pts: seq<Coord>)
    requires |pts| > 0
    ensures Run(s, StrokeCommands(pts, ColorsAsWritten[8])).drawn == s.drawn + [Polyline(s.style, LineWidth, pts)]
  {
    WrittenPaletteEntryIgnored();
    RunStroke(s, pts, ColorsAsWritten[8]);
  }

  /** The four opening commands of a stroke set its style (when the colour
      parses) and width and start a path at the first point. */
  lemma RunOpening(s: Surface, color: Color, p: Coord)
    ensures Run(s, [SetStrokeStyle(color), SetLineWidth(LineWidth), BeginPath, MoveTo(p)])
            == s.(style := if Parses(color) then color else s.style, width := LineWidth, path := [[p]])
  {
    var cmds := [SetStrokeStyle(color), SetLineWidth(LineWidth), BeginPath, MoveTo(p)];
    var s1 := Step(s, SetStrokeStyle(color));
    assert Run(s, cmds) == Run(s1, [SetLineWidth(LineWidth), BeginPath, MoveTo(p)]);
    var s2 := Step(s1, SetLineWidth(LineWidth));
    assert Run(s1, [SetLineWidth(LineWidth), BeginPath, MoveTo(p)]) == Run(s2, [BeginPath, MoveTo(p)]);
    var s3 := Step(s2, BeginPath);
    assert Run(s2, [BeginPath, MoveTo(p)]) == Run(s3, [MoveTo(p)]);
    assert Run(s3, [MoveTo(p)]) == Step(s3, MoveTo(p));
  }

  /** Every player's colour is one the surface accepts. */
  ghost predicate ColorsParse(state: GameState)
    requires state.data.Some?
  {
    var g := state.data.value;
    forall p :: p in g.players ==> Parses(g.players[p].color)
  }

  lemma StrokeColorParses(state: GameState, i: nat)
    requires Renderable(state) && ColorsParse(state) && i < |state.data.value.strokes|
    ensures Parses(StrokeColor(state, i))
  {
  }

  /** The committed strokes 0 .. k-1 as they appear on the board. */
  function CommittedPicture(state: GameState, k: nat): (lines: seq<Polyline>)
    requires Renderable(state) && k <= |state.data.value.strokes|
    ensures |lines| == k
    ensures forall i :: 0 <= i < k ==>
              lines[i] == Polyline(StrokeColor(state, i), LineWidth, state.data.value.strokes[i])
  {
    seq(k, i requires 0 <= i < k => Polyline(StrokeColor(state, i), LineWidth, state.data.value.strokes[i]))
  }

  /** One more committed stroke adds its line at the end of the picture. */
  lemma CommittedPictureStep(state: GameState, k: nat)
    requires Renderable(state) && 0 < k <= |state.data.value.strokes|
    ensures CommittedPicture(state, k)
            == CommittedPicture(state, k - 1) + [Polyline(StrokeColor(state, k - 1), LineWidth, state.data.value.strokes[k - 1])]
  {
    var lines := CommittedPicture(state, k - 1) + [Polyline(StrokeColor(state, k - 1), LineWidth, state.data.value.strokes[k - 1])];
    assert |lines| == k;
    forall i | 0 <= i < k ensures lines[i] == CommittedPicture(state, k)[i] {
      if i < k - 1 {
        assert lines[i] == CommittedPicture(state, k - 1)[i];
      }
    }
  }

  lemma {:induction false} RunCommitted(s: Surface, state: GameState, k: nat)
    requires Renderable(state) && ColorsParse(state) && k <= |state.data.value.strokes|
    ensures Run(s, CommittedCommands(state, k)).drawn == s.drawn + CommittedPicture(state, k)
  {
    if k == 0 {
      assert s.drawn + CommittedPicture(state, 0) == s.drawn;
    } else {
      var pts, color := state.data.value.strokes[k - 1], StrokeColor(state, k - 1);
      StrokeColorParses(state, k - 1);
      var earlier := CommittedCommands(state, k - 1);
      assert CommittedCommands(state, k) == earlier + StrokeCommands(pts, color);
      RunAppend(s, earlier, StrokeCommands(pts, color));
      RunCommitted(s, state, k - 1);
      RunStroke(Run(s, earlier), pts, color);
      CommittedPictureStep(state, k);
      var line := Polyline(color, LineWidth, pts);
      assert Run(s, CommittedCommands(state, k)).drawn == (s.drawn + CommittedPicture(state, k - 1)) + [line];
    }
  }

  /** Whatever was on the board before, a redraw leaves exactly the local
      buffer (when not empty) in the local colour, then committed stroke i
      in its author's colour, for every i in order. */
  lemma RedrawPicture(s: Surface, state: GameState, buffer: seq<Coord>)
    requires Renderable(state) && ColorsParse(state)
    ensures Run(s, BoardCommands(state, buffer)).drawn
            == (if |buffer| > 0 then [Polyline(SelfColor(state), LineWidth, buffer)] else [])
               + CommittedPicture(state, |state.data.value.strokes|)
  {
    var clear := [ClearRect(0, 0, Width, Height)];
    var own := if |buffer| > 0 then StrokeCommands(buffer, SelfColor(state)) else [];
    var rest := CommittedCommands(state, |state.data.value.strokes|);
    RunAppend(s, clear + own, rest);
    RunAppend(s, clear, own);
    var cleared := Run(s, clear);
    assert cleared.drawn == [];
    if |buffer| > 0 {
      RunStroke(cleared, buffer, SelfColor(state));
    } else {
      assert Run(cleared, own) == cleared;
    }
    RunCommitted(Run(cleared, own), state, |state.data.value.strokes|);
  }

  // ------------------------------------------------------- input capture

  /** No sample repeats the one before it. */
  predicate NoRepeats(pts: seq<Coord>) {
    forall i :: 0 < i < |pts| ==> pts[i] != pts[i - 1]
  }

  /** The Finish Drawing button is enabled exactly when there is a stroke. */
  function FinishEnabled(stroke: seq<Coord>): (enabled: bool)
    ensures enabled <==> stroke != []
  {
    !(|stroke| == 0)
  }

  /** The drawing pad of one render: the pointer handlers' shared state
      (the drawing flag and the point buffer), the component's stroke state
      they publish to, the commands sent to the canvas, and the strokes
      submitted with the Finish Drawing button. */
  class DrawPad {
    const state: GameState
    var drawing: bool
    var stroke: seq<Coord>
    var published: seq<Coord>
    var canvas: seq<Cmd>
    var sent: seq<DrawStrokeCall>

    ghost predicate Valid()
      reads this
    {
      && Renderable(state)
      && (drawing ==> |stroke| > 0)
      && NoRepeats(stroke) && NoRepeats(published)
      && forall k :: 0 <= k < |sent| ==> |sent[k].stroke| > 0 && NoRepeats(sent[k].stroke)
    }

    /** The local player's name as the snapshot's player record has it. */
    function LocalName(): PlayerName
      reads this
      requires Valid()
    {
      state.data.value.players[state.name].name
    }

    /** Render with the component's current stroke: attach fresh handlers
        (not drawing, buffer = that stroke) and redraw the whole board. */
    constructor (state: GameState, stroke: seq<Coord>, canvas: seq<Cmd>)
      requires Renderable(state)
      requires NoRepeats(stroke)  // the component's stroke is [] or an earlier release
      ensures Valid()
      ensures this.state == state && !drawing && this.stroke == stroke && published == stroke
      ensures this.canvas == canvas + BoardCommands(state, stroke)
      ensures sent == []
    {
      var board := RenderStrokes(state, stroke);
      this.state := state;
      drawing := false;
      this.stroke := stroke;
      published := stroke;
      this.canvas := canvas + board;
      sent := [];
    }

    /** Press at (x, y), in canvas coordinates. Only the turn player starts
        a stroke: a one-point buffer, and the whole board is redrawn. */
    method MouseDown(x: int, y: int)
      requires Valid()
      modifies this
      ensures Valid()
      ensures published == old(published) && sent == old(sent)
      ensures CurrentTurnPlayer(state.data.value) != Some(LocalName()) ==>
                drawing == old(drawing) && stroke == old(stroke) && canvas == old(canvas)
      ensures CurrentTurnPlayer(state.data.value) == Some(LocalName()) ==>
                && drawing
                && stroke == [Coord(x, y)]
                && canvas == old(canvas) + BoardCommands(state, [Coord(x, y)])
    {
      var turn := CurrentTurnPlayer(state.data.value);
      if turn != Some(LocalName()) {
        return;
      }
      drawing := true;
      stroke := [Coord(x, y)];
      var board := RenderStrokes(state, stroke);
      canvas := canvas + board;
    }

    /** Move to (x, y) while drawing: a new sample is appended and the
        buffer is drawn again on top; a repeat of the last sample is dropped. */
    method MouseMove(x: int, y: int)
      requires Valid()
      modifies this
      ensures Valid()
      ensures drawing == old(drawing) && published == old(published) && sent == old(sent)
      ensures !old(drawing) || Coord(x, y) == old(stroke)[|old(stroke)| - 1] ==>
                stroke == old(stroke) && canvas == old(canvas)
      ensures old(drawing) && Coord(x, y) != old(stroke)[|old(stroke)| - 1] ==>
                && stroke == old(stroke) + [Coord(x, y)]
                && canvas == old(canvas) + StrokeCommands(stroke, SelfColor(state))
    {
      if !drawing {
        return;
      }
      var prev := stroke[|stroke| - 1];
      if x == prev.x && y == prev.y {
        return;
      }
      stroke := stroke + [Coord(x, y)];
      var cmds := RenderStroke(stroke, SelfColor(state));
      canvas := canvas + cmds;
    }

    /** Release: stop drawing and publish the buffer as it is. */
    method MouseUp()
      requires Valid()
      modifies this
      ensures Valid()
      ensures !drawing && published == old(stroke)
      ensures stroke == old(stroke) && canvas == old(canvas) && sent == old(sent)
    {
      drawing := false;
      published := stroke;
    }

    /** Leaving the canvas ends a stroke in progress like a release does,
        and does nothing otherwise. */
    method MouseLeave()
      requires Valid()
      modifies this
      ensures Valid()
      ensures !drawing
      ensures published == if old(drawing) then old(stroke) else old(published)
      ensures stroke == old(stroke) && canvas == old(canvas) && sent == old(sent)
    {
      if !drawing {
        return;
      }
      drawing := false;
      published := stroke;
    }

    /** A click on Finish Drawing sends the published stroke; a disabled
        button cannot be clicked, so an empty stroke is never sent. */
    method FinishDrawing()
      requires Valid()
      modifies this
      ensures Valid()
      ensures drawing == old(drawing) && stroke == old(stroke) && published == old(published)
      ensures canvas == old(canvas)
      ensures sent == old(sent) + if FinishEnabled(published) then [DrawStrokeCall(state.gameId, state.name, published)] else []
    {
      if FinishEnabled(published) {
        sent := sent + [DrawStrokeCall(state.gameId, state.name, published)];
      }
    }
  }

  /** The mousedown gate lets a press through exactly when the server would
      accept a stroke from the local player in that snapshot. */
  lemma GateMatchesServer(g: Game, name: PlayerName)
    requires g.Valid() && name in g.players
    ensures CurrentTurnPlayer(g) == Some(g.players[name].name) <==> g.TurnPlayer() == name
  {
  }

  /** Three players A, B, C at round 4, with one-point strokes so far. */
  function ScenarioGame(): (g: Game)
    ensures CurrentTurnPlayer(g) == Some("B")
    ensures Renderable(GameState(g.id, "A", Some(g))) && Renderable(GameState(g.id, "B", Some(g)))
  {
    var players := map["A" := Player("A", "darkgreen", 0, ""),
                       "B" := Player("B", "darkblue", 0, ""),
                       "C" := Player("C", "maroon", 0, "")];
    assert players.Keys == {"A", "B", "C"};
    var dot := [Coord(1, 1)];
    Game(7, Started, "A", players, ["A", "B", "C"], 4, [dot, dot, dot, dot])
  }

  /** At round 4 of three players it is B's turn: a press by A is ignored. */
  method OutOfTurnScenario() {
    var g := ScenarioGame();
    var pad := new DrawPad(GameState(g.id, "A", Some(g)), [], []);
    pad.MouseDown(3, 3);
    assert !pad.drawing && pad.stroke == [];
  }

  /** B's samples (0,0) (5,5) (5,5) (10,2) publish and send the stroke
      (0,0) (5,5) (10,2). */
  method RepeatedSampleScenario() {
    var g := ScenarioGame();
    var pad := new DrawPad(GameState(g.id, "B", Some(g)), [], []);
    pad.MouseDown(0, 0);
    assert pad.drawing && pad.stroke == [Coord(0, 0)];
    pad.MouseMove(5, 5);
    assert pad.stroke == [Coord(0, 0), Coord(5, 5)];
    pad.MouseMove(5, 5);
    assert pad.stroke == [Coord(0, 0), Coord(5, 5)];
    pad.MouseMove(10, 2);
    assert pad.stroke == [Coord(0, 0), Coord(5, 5), Coord(10, 2)];
    pad.MouseUp();
    assert pad.published == [Coord(0, 0), Coord(5, 5), Coord(10, 2)];
    pad.FinishDrawing();
    assert pad.sent == [DrawStrokeCall(g.id, "B", [Coord(0, 0), Coord(5, 5), Coord(10, 2)])];
  }
}
