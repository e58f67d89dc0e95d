# fakeartist: verified model of the game server and the drawing pad

This project models the core of a multiplayer drawing/guessing party game.

The Go game server (`game.go`) holds a map of games. Five remote operations drive each game through
the stages Waiting → Started → Voting → Over:

- `NewGame` creates a game with its creator as the only player.
- `JoinGame` admits players while the game is waiting, giving each the next colour of a ten-colour palette (game.go:13).
- `StartGame` lets the creator shuffle the turn order and start play.
- `DrawStroke` accepts one stroke from the player whose turn it is. The game moves to voting after two strokes per player.
- `VoteAgainst` records one vote per player and ends the game once every vote is in.

Each operation checks its conditions in a fixed order and fails at the first one that does not hold, before it changes anything.

The browser client's playing screen (`frontend/src/game_state_screen.tsx`) has three parts:

- It computes whose turn it is with the server's formula.
- It redraws the board from the pushed snapshot. Committed stroke *i* gets the colour of the player at turn-order position *i* mod player count. The canvas ignores a stroke style that is not a colour it can parse, and the stroke is then drawn in the style set before it.
- Pointer handlers capture the local player's stroke: press, move, release and leave over a point buffer.

Files:

- `game_model.dfy` (module `GameModel`) holds the records: stage, player, game. It also holds the invariant every stored game keeps (`Game.Valid`) and the lemmas that each successful operation preserves it.
- `game_server.dfy` (module `Server`) holds the `GameServer` class. Its methods follow the Go code step by step. Each method's postcondition gives the error for every failed check and the full new state on success. Every method also promises that no game disappears and no stage moves backwards (`Evolves`). A ghost field records who drew each stroke. The class invariant ties that record to the positional rule `TurnOrder[i % len(Players)]` that the client uses for colouring. The invariant also keeps every player's colour in the palette (`PaletteColored`).
- `canvas.dfy` (module `Canvas`) holds the drawing-surface calls as a list of commands. An interpreter (`Run`) tells which polylines a command list leaves on the surface. Setting the stroke style takes effect only for a colour name of CSS Color Module Level 4 (section 6.1); any other value is ignored (`Parses`).
- `game_state_screen.dfy` (module `GameStateScreen`) holds the turn functions and the stroke and board renderers, which are loops proved equal to command-list functions. It proves what a redraw paints. The `DrawPad` class holds the pointer handlers and the Finish Drawing button. Two small scenario methods replay a turn check and a repeated-sample stroke through the handlers.
- `board_authorship.dfy` (module `BoardAuthorship`) proves that the colour the board gives each committed stroke is the colour of the player the server recorded as its author, and that on every game the server holds a redraw paints each committed stroke in that colour.

Modelling choices that are not one-to-one with the code:

- The palette entry 8 is written `cornflower` (game.go:13), which is not a CSS colour name. The model's palette `Colors` has `cornflowerblue` there; the written one is kept as `ColorsAsWritten` (see "## Findings").
- `kColors[len(game.Players)]` (game.go:119) indexes past the palette when an eleventh player joins. In Go that panics, and it does so before anything is written. The model returns the error `ColorsExhausted` and changes nothing.
- `rand.Intn` in `makeGameId` is modelled as a choice of any unused id in [0, 10000). `rand.Shuffle` in `StartGame` is modelled as a choice of any permutation.
- An empty `VotedAgainst` means "has not voted" (game.go:222), so a vote against a player named `""` leaves the voter free to vote again. The game invariant states "sum of votes = number of players who have voted" only when no player is named `""`. The bound "total votes ≤ player count" holds without that condition. `EmptyNameEndsVoteEarly` shows the code as written ending a vote that nobody is recorded as having cast (see "## Findings"). The server model therefore refuses `""` as a player name in `NewGame` and `JoinGame`, with the error `EmptyName`, which the Go code does not do. With that, every game the server holds is over exactly when every player has voted.
- On a mouse move the code redraws the whole buffer in the local colour on top of the board (game_state_screen.tsx:91), not only the new segment. The model follows the code.
- The handlers do not look at the stage. They are attached only when a snapshot in the Started stage is rendered (game_state_screen.tsx:104-108), and the playing screen is unmounted when the stage changes (index.tsx:43-50). So the stage needs no gate, and the model gates a press only on the turn check against the snapshot the handlers were made for. The voting screen mounts the same pad (game_voting_screen.tsx:34) in the Voting and Over stages. There it attaches no handlers, because the stage is not Started (game_state_screen.tsx:104), and it only redraws the final board with an empty buffer, which `RedrawPicture` covers for any stage.
- The effect that attaches the handlers (game_state_screen.tsx:42-47) has no cleanup, and the remove calls at lines 110-113 pass fresh closures, so they remove nothing. Every render of a Started snapshot therefore adds one more set of handlers, and the older sets stay attached. Each set checks the turn against the snapshot it was made from. The model is one render's set of handlers (`DrawPad`), and its guarantees hold for that set only (see "## Left out").

## Model

| member | source | states |
|---|---|---|
| `GameModel.Stage.Rank` | game.go:24-29 | the stages are numbered 0 to 3 in the order Waiting, Started, Voting, Over: each stage's number is pinned, so "no stage moves backwards" means the order of the Go enum |
| `GameModel.Game.TurnPlayer` | game.go:192-193 | in a valid game the turn player `TurnOrder[TurnOrderRound % len(Players)]` is always a known player |
| `GameModel.NewGameValid` | game.go:79-99 | a new game (Waiting, one player with colour `kColors[0]`, no votes, turn order `[name]`, round 0, no strokes) satisfies the game invariant |
| `GameModel.JoinValid` | game.go:112-125 | adding a new player with colour `kColors[len(Players)]` and appending the name to the turn order keeps the invariant: the turn order stays a permutation of the players, `len(TurnOrder) == len(Players)`, and player *i* in join order has colour *i* |
| `GameModel.StartValid` | game.go:154-162 | starting with any permutation of the turn order, round 0 and stage Started keeps the invariant |
| `GameModel.StrokeValid` | game.go:198-202 | appending a stroke and adding 1 to the round keeps `len(Strokes) == TurnOrderRound`; the stage becomes Voting exactly at round `2·len(Players)` and never goes past it |
| `GameModel.SumOfVotesIncrement` | game.go:228 | one more vote against a player raises the vote total by exactly 1 |
| `GameModel.VoteStep` | game.go:227-228 | a vote adds 1 to the total; if no player is named "" it adds exactly the voter to the set of those who have voted |
| `GameModel.VoteValid` | game.go:227-239 | a vote keeps the invariant when the game becomes Over exactly as the total reaches the player count |
| `GameModel.VotesBounded` | game.go:230-239 | in every valid game the vote total lies between 0 and the player count, and the game is Over exactly when it is voting or over and the total equals the player count |
| `GameModel.OverIffAllVoted` | game.go:236-239 | once the vote is open and no player is named "", the game is Over exactly when every player has cast a vote (both directions) |
| `GameModel.EmptyNameEndsVoteEarly` | game.go:222-239 | as written, with players "" and B, B votes against "" twice, the already-voted check passes both times, the total reaches the player count and the game is Over, yet no player is recorded as having voted |
| `Server.OverWhenAllVoted` | game.go:236-239 | every game the server holds, once voting has opened, is Over exactly when all its players have voted |
| `Server.FreeIdExists` | game.go:67-77 | while fewer than 10000 ids are used, an unused id below 10000 exists, so the retry loop can end |
| `Server.CountVotes` | game.go:230-235 | the loop over the players' records sums their vote counts in whatever order the map yields them |
| `Server.GameServer.constructor` | game.go:61-65 | the server starts with no games |
| `Server.GameServer.MakeGameId` | game.go:67-77 | the id returned is in [0, 10000) and not a key of `games` |
| `Server.GameServer.NewGame` | game.go:79-104 | the empty name is refused with `EmptyName` and no change (a correction, see "## Findings"); any other name: stores under a fresh id a Waiting game whose only player is the creator (`Player0`, colour `kColors[0]`, 0 votes, not voted), with turn order `[name]`, round 0 and no strokes; no other game changes |
| `Server.GameServer.JoinGame` | game.go:106-130 | unknown id: error, no change; a known name: success with nothing changed, at any stage; a new empty name: `EmptyName`, no change (a correction, see "## Findings"); a new name after Waiting: error, no change; a new name while Waiting: exactly one player added, with colour `kColors[len(Players)]` of the corrected palette, and appended to the end of the turn order |
| `Server.GameServer.StartGame` | game.go:143-167 | fails without change for an unknown id, an unknown player, a player other than `Player0` or a stage other than Waiting, in that order; otherwise Started, round 0, and the turn order is a permutation of its old contents |
| `Server.GameServer.DrawStroke` | game.go:181-205 | fails without change for an unknown id, an unknown player, a stage other than Started, or a player other than the turn player; otherwise the stroke is appended, the round goes up by 1, the stage becomes Voting exactly at round `2·len(Players)`, and the recorded author is the caller |
| `Server.GameServer.VoteAgainst` | game.go:207-243 | fails without change for an unknown id, an unknown voter, a stage other than Voting, an unknown target, or a voter who already voted; otherwise sets the voter's `VotedAgainst`, adds 1 to the target's votes, and ends the game exactly when the total equals the player count |
| `GameStateScreen.TurnAgreement` | frontend/src/game_state_screen.tsx:61-64 | on every game the server can push, `getCurrentTurnPlayer` and the player list's copy of the rule (line 9, dividing by the list's length) both name a player, and it is the player the server's `DrawStroke` accepts (game.go:192-193) |
| `GameStateScreen.GateMatchesServer` | frontend/src/game_state_screen.tsx:72-75 | the press gate lets a local player through exactly when the server's `DrawStroke` turn check would accept that player |
| `GameStateScreen.ServerSnapshotRenderable` | frontend/src/game_state_screen.tsx:127-130 | every stroke author lookup of the board succeeds on any valid server game whose strokes are non-empty |
| `BoardAuthorship.StrokeColorIsAuthorColor` | frontend/src/game_state_screen.tsx:128-130 | on every game the server holds, the colour the board gives committed stroke *i* (that of turn-order position *i* mod player count) is the colour of the player the server accepted stroke *i* from |
| `GameStateScreen.RenderStroke` | frontend/src/game_state_screen.tsx:136-145 | the loop issues style, width 3, begin path, one moveTo for point 0, one lineTo per later point in order, then stroke |
| `GameStateScreen.RenderStrokes` | frontend/src/game_state_screen.tsx:119-134 | the loop issues a full clear, then the local buffer in the local colour if it is non-empty, then each committed stroke in index order in its author's colour |
| `GameStateScreen.RunLineTos` | frontend/src/game_state_screen.tsx:141-143 | the lineTo run extends the current line by exactly the given points, in order |
| `GameStateScreen.RunStroke` | frontend/src/game_state_screen.tsx:136-145 | a rendered stroke paints exactly one polyline, with exactly its points and width 3, on top of what was there; its style is the given colour when that colour parses, and otherwise the style the surface had before |
| `GameStateScreen.WrittenNinthColorKeepsStyle` | game.go:13 | with the palette as written, a stroke in the ninth player's colour is painted in the style the surface had before, not in a colour of its own |
| `Canvas.WrittenPaletteEntryIgnored` | game.go:13 | entry 8 of the palette as written, `cornflower`, is not a colour the canvas accepts; the other nine entries are |
| `Canvas.PaletteParses` | game.go:13 | every entry of the corrected palette is a colour the canvas accepts |
| `GameStateScreen.RunCommitted` | frontend/src/game_state_screen.tsx:127-133 | for a snapshot whose player colours all parse, drawing the committed strokes paints one polyline per stroke, in index order, each in its author's colour |
| `GameStateScreen.RedrawPicture` | frontend/src/game_state_screen.tsx:119-134 | for a snapshot whose player colours all parse: whatever the board showed before, a redraw leaves exactly the buffer (only if non-empty) in the local colour and then the N committed strokes in their authors' colours, so the same inputs give the same picture |
| `BoardAuthorship.ServerBoardRedraw` | frontend/src/game_state_screen.tsx:119-134 | every colour the server hands out (game.go:84, game.go:119) parses, so for any game the server holds a player's redraw leaves exactly the buffer and then each committed stroke in its author's colour |
| `GameStateScreen.DrawPad.constructor` | frontend/src/game_state_screen.tsx:65-117 | a render starts not drawing, with the component's stroke (`[]` or an earlier release, so free of repeated samples) as the buffer, and redraws the whole board |
| `GameStateScreen.DrawPad.MouseDown` | frontend/src/game_state_screen.tsx:72-80 | a press from a player other than the turn player changes nothing; the turn player's press starts drawing with exactly the one pressed point as buffer and redraws the board |
| `GameStateScreen.DrawPad.MouseMove` | frontend/src/game_state_screen.tsx:81-92 | while not drawing, or at the last buffered point, nothing changes; otherwise exactly that point is appended after the earlier ones and the buffer is drawn again; the buffer never holds two equal consecutive points |
| `GameStateScreen.DrawPad.MouseUp` | frontend/src/game_state_screen.tsx:93-96 | always stops drawing and publishes the buffer unchanged, so a published stroke never holds two equal consecutive points |
| `GameStateScreen.DrawPad.MouseLeave` | frontend/src/game_state_screen.tsx:97-103 | while drawing, acts as a release; otherwise changes nothing |
| `GameStateScreen.DrawPad.FinishDrawing` | frontend/src/game_state_screen.tsx:53-57 | the button is enabled exactly when the stroke is non-empty, and a click sends `drawStroke(gameId, name, stroke)` only then, so every stroke sent is non-empty and free of repeated consecutive samples |

## Findings

| source | as written | input that shows it | evidently intended | confidence | as-written member | corrected member |
|---|---|---|---|---|---|---|
| game.go:222 | "has voted" is tested as `len(player.VotedAgainst) > 0`, and any name, including `""`, is admitted by `NewGame` and `JoinGame` (the name field starts as `''`, new_game_screen.tsx:24) | players `""` and `B` at the vote; `B` votes against `""` twice: both votes pass the check, the total reaches 2 and the game is Over although `""` never voted | each player votes once, and the game ends exactly when every player has voted | not executed; high (the model's vote step is the code's) | `GameModel.EmptyNameEndsVoteEarly` | `Server.OverWhenAllVoted` (the server refuses `""` in `Server.GameServer.NewGame` and `Server.GameServer.JoinGame`) |
| game.go:13 | palette entry 8 is `"cornflower"`, which is not a CSS named colour (the name is `cornflowerblue`), so assigning it to `strokeStyle` is ignored | a ninth player joins and gets `"cornflower"`; each of that player's strokes is drawn in the style of the stroke drawn before it, so it takes another player's colour | every player's strokes are drawn in a colour of their own | not executed; high (CSS Color Module Level 4, section 6.1, lists no `cornflower`) | `Canvas.WrittenPaletteEntryIgnored`, `GameStateScreen.WrittenNinthColorKeepsStyle` | `Canvas.PaletteParses`, `BoardAuthorship.ServerBoardRedraw` (the model's palette `Colors` has `cornflowerblue` at entry 8) |

## Left out

- `saveClient`, `broadcastState`, the RPC client, contexts and logging in game.go. These are network notification and logging; a broadcast is treated as a no-op after each successful change.
- main.go: HTTP routing, the websocket endpoint and the static file server.
- Concurrency: RPC calls reach the unsynchronised `games` map concurrently. The model runs the operations one at a time.
- Server.GameServer.NewGame: requires fewer than 10000 games. With all ids taken, `makeGameId` loops forever.
- Server.GameServer.MakeGameId: does not model the random distribution or the number of retries, only that the id it returns is unused and in range.
- Server.GameServer.StartGame: does not model which permutation `rand.Shuffle` picks, only that it is one.
- Pointers: `NewGame` returns a copy of the game and `JoinGame` a pointer into the map. The model returns the game value in both cases.
- The ten-player limit: the out-of-range palette index panics in Go; the model reports it as an error with no change.
- React hooks and the re-render that follows `setStroke` are not modelled. The model covers the handlers of one render.
- GameStateScreen.DrawPad.MouseDown: the turn gate holds only for the handler set of the newest render. Older sets (see above) keep the snapshot they were made from. For example, with players A and B, the set attached at round 0 still lets A start a stroke at round 1, and then it redraws the round-0 board.
- GameStateScreen.GateMatchesServer: the agreement with the server's turn check is proved for the snapshot a handler set holds, not for the server's current state, which a stale set may no longer show.
- GameStateScreen.DrawPad.MouseUp: publishing is modelled within one render. `onmouseup` publishes without checking `drawing`, and every attached set handles the release, newest set last. So when a snapshot arrives in the middle of a stroke (for example after a known player rejoins and game.go:128 broadcasts), the newest set's stale buffer replaces the stroke just drawn. The model does not capture this interleaving.
- The canvas: pixels, anti-aliasing and partial `clearRect` calls are not modelled. The board is modelled as the list of polylines stroked since the last full clear.
- Coordinates are integers; the event offset `pageX - offsetLeft` is taken as given, and fractional pixel positions are not modelled.
- Empty committed strokes: the server accepts them, but the board would then read past the end of the stroke. Non-empty strokes are a precondition of the renderer.
- The player list markup at game_state_screen.tsx:11-36, apart from the turn computation at line 9.
- frontend/src/index.tsx, new_game_screen.tsx, game_waiting_screen.tsx, game_voting_screen.tsx and types.tsx: presentational screens, RPC wrappers and type declarations. The voting screen's disabled button mirrors the server rule modelled in `VoteAgainst`; the pad it mounts is the one modelled here, used only to redraw.
- Canvas.Parses: only the lower-case CSS named colours are modelled as accepted. Hex, `rgb()` and other colour syntaxes, and names in other letter cases, are not modelled, since the palette uses none of them.
