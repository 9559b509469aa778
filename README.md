# Chess client: session synchronisation model

A Dafny model of the browser side of a small multiplayer chess site (`script.js`). The page
keeps one chess.js engine object, the id of the game it has joined (`currentGameId`), a list
of joinable games, and a WebSocket to the server. Its handlers:

- `ws.onmessage` dispatches on the message `type`: `gamesList` rebuilds the games list,
  `update` resets the engine and replays the server's move list (only when the message's id
  is the joined game), `gameCreated` joins the new game;
- `joinGame(id)` records the id and sends `join`;
- the drop handler asks the engine for the move (always promoting to a queen) and, if the
  engine accepted it and a game is joined, sends `move` with the move's SAN;
- the new-game button sends `create`;
- `createBoard` and `renderPieces` name and colour the 64 squares.

Modules:

- `Rules` — the engine as seen by the client. chess.js is foreign code, so an `Engine` value
  carries two arbitrary functions: `play` (a move by squares) and `playSan` (a move in
  notation, the sloppy parse), each accepting or rejecting a move given the history so far.
  The `chess` object is its history of accepted moves; the board is a function of it.
  `Replay` is `chess.reset()` followed by the `forEach` of line 89, which skips rejected moves.
- `Squares` — the square-name and colour arithmetic, and `CreateBoard` with its two loops.
- `Protocol` — messages as datatypes, the client state as a value, one transition function
  per handler, and the protocol's properties as lemmas over all states and any engine (a lemma
  that needs the engine to accept particular moves says which in its precondition).
- `ChessClient` — class `Client`, whose fields are the script's module-level state and whose
  methods are the handlers, run imperatively (the list and replay loops are loops) and each
  proved to reach exactly the state its transition function gives.

Behaviour worth noting:

- `joinGame` does not clear the board; the old history stays until the first `update`.
- The drop handler calls the engine before testing `currentGameId`, so a legal drop with no
  game joined changes the local board but sends nothing (`Protocol.DropMovesLocally`).
- The games list keeps the order of the broadcast.
- The test before sending is JavaScript truthiness of `currentGameId`: a joined game whose
  id is the empty string never sends moves, though its updates are still applied, since the
  update test is `===` (`Protocol.GameActive`).
- An unknown message type matches none of the three tests and changes nothing.

The colour rule as written makes a square "black" when rank plus file is odd, so a1 is
drawn "white" and a8 "black"; `Squares.ColoursAlternate` states the checkerboard pattern
it does give.

## Model

| member | source | states |
|---|---|---|
| ChessClient.Client.constructor | script.js:5-7 | the client keeps the engine it is given; at page load no game is joined, the engine is at the start position (empty history), nothing is sent, the games list is empty |
| ChessClient.Client.JoinGame | script.js:101-104 | `currentGameId` becomes `id`, exactly one `join{id}` is appended to what was sent, the history and the games list are untouched |
| ChessClient.Client.OnNewGame | script.js:107 | the button appends exactly one `create` message and changes nothing else |
| ChessClient.Client.OnSelect | script.js:82 | clicking a list item performs `joinGame` on that item's game id |
| ChessClient.Client.OnDrop | script.js:52-63 | the engine is asked for the move with promotion to queen; an accepted move is appended to the history; a `move` with the active id and the move's SAN is sent only if the move was accepted and `currentGameId` is truthy |
| ChessClient.Client.OnMessage | script.js:73-97 | `gamesList` rebuilds the list item by item, `update` for the joined game resets the history and replays the server's moves one by one, `gameCreated` joins; the resulting state is exactly the one `Protocol.Received` defines |
| Protocol.StaleUpdateIgnored | script.js:87 | an `update` whose id is not the joined game's leaves history, board, list and sent messages unchanged |
| Protocol.UpdateReplaces | script.js:87-89 | an `update` for the joined game sets the history to the replay of its moves from the start position, independent of the previous history; nothing else changes |
| Protocol.UpdateIdempotent | script.js:87-89 | applying the same `update` twice gives the same state as applying it once |
| Protocol.OptimisticMoveOverwritten | script.js:57-59 | after a local drop, the next `update` for the joined game leaves exactly the server's replayed history; the sent `move` stays sent |
| Protocol.ConfirmingUpdateChangesNothing | script.js:87-89 | an `update` listing the SANs of the local history, which the engine replays to the same moves, leaves the whole state as it was |
| Protocol.SwitchDiscardsOld | script.js:87 | after `joinGame(b)` (lines 101-104), a late `update` for a different game `a` leaves the state exactly as the join left it |
| Protocol.BlindJoin | script.js:101-104 | `joinGame` keeps the board it found; the first `update` for the joined game then replaces it with the replay of the server's moves (lines 87-89) |
| Protocol.GameCreatedJoins | script.js:94-96 | a `gameCreated{id}` message has exactly the effect of `joinGame(id)` |
| Protocol.CreateThenCreatedJoins | script.js:94-96 | pressing the new-game button (line 107) and then receiving `gameCreated{id}` joins `id`, keeps history and list, and leaves exactly `create` then `join{id}` appended to what was sent |
| Protocol.DropSendsIff | script.js:57-59 | a `move` is sent iff the engine accepted the drop and a game is active, carrying the active id and the accepted move's SAN; a rejected drop changes nothing |
| Protocol.DropMovesLocally | script.js:57 | an accepted drop extends the history even when no game is active; a drop never changes the active id or the list |
| Protocol.GamesListReplaces | script.js:76-85 | the list is replaced wholesale: one entry per game of the message, in order, labelled `Game <id> - <moves> moves` and joining that id; nothing else changes |
| Protocol.SelectJoinsListed | script.js:78-82 | clicking entry `i` of a broadcast list joins the `i`-th game of that broadcast |
| Protocol.Entries | script.js:78-84 | the list has as many entries as the broadcast has games, entry `i` made from game `i` |
| Protocol.Decimal | script.js:80 | a move count is written as a non-empty string of decimal digits |
| Protocol.DecimalRoundTrip | script.js:80 | the count written in a label reads back as exactly that count |
| Protocol.OutboxOnlyGrows | script.js:59-107 | no handler (message, drop, button, `joinGame`, list click) removes or alters a message already sent |
| Protocol.CreateThenJoinScenario | script.js:94-107 | `create`, then `gameCreated{G1}`, then `update{G1, []}` leaves the client joined to G1 on an empty history, having sent `create` and `join{G1}` |
| Protocol.ListThenSelectScenario | script.js:76-104 | a broadcast of one game G2 with 5 moves shows one entry `Game G2 - 5 moves`; clicking it sends `join{G2}` |
| Rules.Step | script.js:89 | one sloppy `chess.move` either appends one move to the history or leaves it unchanged |
| Rules.ReplayFrom | script.js:89 | replaying keeps the history it starts from as a prefix and adds at most one move per entry |
| Rules.ReplaySans | script.js:87-89 | replaying the SANs of a history the engine reproduces rebuilds that history exactly |
| Rules.ReplayAppend | script.js:89 | replaying two batches one after the other equals replaying their concatenation |
| Rules.ReplaySkipsRejected | script.js:89 | a move the engine rejects at its turn is skipped and the replay continues as if it were absent |
| Rules.ReplayKeepsAccepted | script.js:89 | when the engine accepts each move of this replay at its turn, the replay adds one move per entry |
| Squares.CreateBoard | script.js:10-22 | 64 squares, rank 8 down to rank 1 and files a to h within a rank; square (r, c) is named file letter then rank digit and is black exactly when r + c is odd |
| Squares.SquareNameInjective | script.js:14-15 | different squares get different names |
| Squares.ColoursAlternate | script.js:17 | squares sharing an edge differ in colour, diagonal neighbours agree |
| Squares.PieceSquareOnBoard | script.js:27-33 | engine cell [rIndex][cIndex] is named like the board's square number 8·rIndex + cIndex, i.e. file `abcdefgh`[cIndex] and rank 8 − rIndex |
| Squares.PieceSquareInjective | script.js:30-32 | distinct engine cells map to distinct square names |
| Squares.BoardNamesDistinct | script.js:12-18 | the 64 board names are pairwise distinct, so the cell-to-square map is a bijection onto them |

## Left out

- The chess rules themselves (legality, SAN, `pgn()`, `board()`, the sloppy parser): chess.js is a foreign library, kept as the two arbitrary functions of `Rules.Engine`.
- DOM work: `innerHTML`, element creation, event-listener registration, the `dataTransfer` plumbing (the dragged square is a parameter of `OnDrop`), piece glyphs and `movesBox.textContent`; these are presentation.
- `renderPieces` beyond its cell-to-square mapping: which pieces sit where is the engine's board, a function of the history.
- The WebSocket lifecycle (`connectWS`, `onopen`, logging) and the transport: `ws.send` is appending to `outbox`.
- `JSON.parse` and `JSON.stringify`: messages are datatypes; malformed JSON is not handled by the code and is not modelled.
- Numeric game ids: ids are strings, so the falsy id `0` is not represented (the empty string is).
