# Multiplayer chess client: session state machine and move gate

This project models the client side of a multiplayer chess web app in Dafny.
It covers the React hook `useMultiplayer` and the game-changing handlers of
`App`. Together they keep one local mirror of a game that a server owns.

- The client lists joinable games while none is selected.
- It joins a game by fetching a REST snapshot and opening a WebSocket. The
  socket address carries a client id that is persisted in local storage.
- It applies the server's `init`, `move` and `error` messages, and it reacts
  to the socket's `close` and `error` events.
- It gates the player's own piece drops on status, colour and turn. It then
  applies each accepted move optimistically and sends it over the socket.

The client state is one immutable value, `Session.State`. Every user action,
timer tick and network completion is a pure transition over it. A transition
returns the new state and the side effects it asks for (`Session.Command`):
open, send on or close a socket, fetch the game list or a snapshot, start or
stop the poll. `Client.Handle` dispatches a closed datatype of events, and
`Client.Run` handles a sequence of them in delivery order.

The rules engine (chess.js) is not reimplemented. `Rules.Engine` is a value
whose fields are the engine operations the client calls: parse a FEN, side to
move, apply a move, apply a move given as text, undo, print a FEN, and the
start position. Positions have the abstract type `Rules.Pos`. Every property
below therefore holds for any engine. The undo round trip additionally
assumes `Rules.UndoReverts`, which says that undo takes back the move just
made.

Modules:

- `Prelude`: an optional value, JavaScript's `||` defaults, `includes` and
  `trim`.
- `Rules`: the engine oracle and `Replay`, the reference meaning of playing
  a sequence of drags.
- `Session`: the state record, sockets, commands, and the socket-ownership
  invariant `Inv`.
- `Multiplayer`: the effect of `useMultiplayer`, its cleanup, the poll, the
  snapshot, the client id, the socket address and the socket handlers.
- `Board`: `onDrop`, reset, undo, flip, the engine's reply, Join by typed
  id, mode switching and the move-history table.
- `Client`: the event dispatcher.
- `Properties`: lemmas that relate several transitions.

JavaScript details are modelled explicitly:

- `x || "ongoing"` and `x || 'q'` treat a missing value and `""` alike
  (`Prelude.OrText`).
- `x || []` only replaces a missing array (`Prelude.OrEmpty`).
- `!playerColor` also rejects the empty string (`Prelude.Truthy`).
- `trim` removes exactly the ECMAScript white-space and line-terminator
  characters (`Prelude.IsJsSpace`).
- Colours are the strings `"white"` and `"black"` that the server sends. The
  gate compares them with the engine's `'w'` and `'b'`.

Behaviour of the code that the model keeps as written:

- An illegal remote move for which chess.js returns `null` is ignored. Only
  a move that throws re-requests the snapshot.
- A snapshot never touches the colour.
- No handshake timeout or retry bound exists.
- The outbound move message also carries `type: "move"`.
- Close handlers are never detached. The close event of a socket the client
  already dropped still clears the colour and writes "Disconnected", after
  leaving multiplayer mode and also over the session of a newly joined game
  (`Properties.LateCloseAfterLeaving`,
  `Properties.StaleCloseAfterSwitchingGames`).
- The snapshot request is never cancelled either. A snapshot of the previous
  game that arrives after switching games overwrites the new game's
  position, history and status (`Properties.StaleSnapshotAfterSwitchingGames`).
- "Create New Game" and the effect each call `crypto.randomUUID()`. The
  game id and a first client id are therefore two independent UUIDs: the
  `Client.CreateGame` event carries its own, and `Client.Env` supplies the
  effect's.

## Model

| member | source | states |
|---|---|---|
| `Prelude.Includes` | src/components/useMultiplayer.jsx:71 | `backendUrl.includes(s)` is true exactly when `s` occurs at some index of the URL |
| `Prelude.Trim` | src/App.jsx:191-192 | `trim()` yields an infix of the input with only white space cut from both ends; it is empty exactly when the input is all white space, and otherwise starts and ends with a non-space character |
| `Prelude.OrText` | src/components/useMultiplayer.jsx:56 | the string default `data.status` or "ongoing" gives the default when the field is missing or empty, and the field itself otherwise |
| `Prelude.OrEmpty` | src/components/useMultiplayer.jsx:55 | the array default `data.move_history` or `[]` gives `[]` only for a missing array; a present array, even an empty one, is kept |
| `Session.Initial` | src/App.jsx:14-25 | the app mounts in local mode, with no game selected, an empty typed id and history, the engine's start position on the board, no colour, status "", no games, orientation "white", the stored client id, no socket and no poll |
| `Session.CloseCurrent` | src/components/useMultiplayer.jsx:139 | `wsRef.current.close()` keeps the ref and leaves no live socket; a `CloseSocket` command is issued only for a socket that was still live, and nothing else changes |
| `Multiplayer.SocketBase` | src/components/useMultiplayer.jsx:71-73 | the socket server is `ws://localhost:8000` exactly when the backend URL contains "localhost", and the hosted `wss` server exactly when it does not |
| `Multiplayer.SocketUrl` | src/components/useMultiplayer.jsx:74 | the address starts with the server plus `/ws/chess/` plus the game id, and ends with `?client_id=` plus the client id |
| `Multiplayer.ChooseClientId` | src/components/useMultiplayer.jsx:65-69 | after the step the store holds the id that was used; a stored non-empty id is reused unchanged, otherwise the fresh UUID is used |
| `Multiplayer.LeaveMode` | src/components/useMultiplayer.jsx:18-28 | outside multiplayer the socket is closed and the ref cleared; colour, game list, status and history are emptied; the position is kept and the board shows the engine's FEN of it |
| `Multiplayer.JoinGame` | src/components/useMultiplayer.jsx:47-74 | with a game selected, the snapshot of that game is requested and a new socket is opened to its address with the settled client id; the socket is fresh and becomes the current one |
| `Multiplayer.Cleanup` | src/components/useMultiplayer.jsx:137-140 | teardown clears the interval if one was set and closes the current socket, keeping the ref and its id; nothing else changes and no socket stays live |
| `Multiplayer.Effect` | src/components/useMultiplayer.jsx:17-74 | outside multiplayer the session is dropped and only the live socket is closed; with no game selected the list is fetched at once and the interval started; with a game selected the client id is settled and stored, the snapshot is requested and a socket opened to that game with the settled client id; a socket is opened exactly in the last case; mode, game id, typed id, position and orientation never change; joining changes nothing else, so colour, status, history, board and game list stay until later events |
| `Multiplayer.Rerun` | src/components/useMultiplayer.jsx:137-140 | cleanup then effect: the interval is stopped exactly when it was set and a live socket is closed, and every release precedes every new request; the list is fetched and polled exactly in multiplayer mode with no game selected; a socket is opened, with the snapshot requested, exactly in multiplayer mode with a game selected; socket ownership is preserved and at most one socket is left not asked to close; in multiplayer mode colour, status, history, board and game list are kept, and a join stores the settled client id |
| `Multiplayer.Commit` | src/components/useMultiplayer.jsx:141-152 | the effect reruns exactly when the play mode or the selected game changed |
| `Multiplayer.PollTick` | src/components/useMultiplayer.jsx:43-44 | a poll tick requests the list exactly while the interval is set, and changes no state |
| `Multiplayer.GamesArrived` | src/components/useMultiplayer.jsx:33-42 | a successful listing replaces the game list with `games`, or with [] when that field is absent; a failed one leaves the state unchanged |
| `Multiplayer.SnapshotArrived` | src/components/useMultiplayer.jsx:48-62 | a snapshot with a parseable FEN sets position, board, history (default []) and status (default "ongoing"); any failure, including an unparseable FEN, changes only the status, to the error's message; the colour is never touched; nothing else changes |
| `Multiplayer.OnMessage` | src/components/useMultiplayer.jsx:80-123 | `error` sets status to "Failed to join game: " plus the message and closes the socket, changing nothing else; `init` with a parseable FEN overwrites position, board, history, status and colour together, and otherwise changes nothing and re-requests the snapshot; a legal `move` (promotion default 'q') replaces the position, appends exactly one SAN and sets status (default "ongoing"); a null result changes nothing; a throwing move re-requests the snapshot; other types are ignored |
| `Multiplayer.OnClose` | src/components/useMultiplayer.jsx:125-129 | any close event clears the colour and sets status "Disconnected"; the closed socket is no longer live or owned; nothing else changes |
| `Multiplayer.OnSocketError` | src/components/useMultiplayer.jsx:131-134 | a socket error only sets status "Failed to connect to game server" |
| `Multiplayer.OnOpen` | src/components/useMultiplayer.jsx:76-78 | the open event only marks the current connecting socket as open |
| `Board.OnDrop` | src/App.jsx:73-106 | a drop is accepted exactly when the mover is entitled and the engine finds the move legal with promotion "q"; being entitled means being outside multiplayer, or having status "ongoing" and a colour that is the side to move; a rejected drop returns false and changes nothing; an accepted one replaces the position once and appends exactly one SAN; `{type:"move",from,to}` is sent only in multiplayer mode on an open socket, and the local apply is not rolled back otherwise |
| `Board.ResetGame` | src/App.jsx:108-116 | reset gives the start position, an empty history and status ""; a reset message is sent only in multiplayer mode on an open socket; colour, socket and game id stay |
| `Board.DropLast` | src/App.jsx:121 | `slice(0, -1)` leaves empty as empty, and otherwise gives the prefix that, extended by the last element, is the input |
| `Board.UndoMove` | src/App.jsx:118-122 | undo sets the position to the engine's undo of it, shows its FEN, and removes the last history entry (empty stays empty) |
| `Board.UndoButton` | src/App.jsx:304 | the disabled Undo button does nothing on an empty history; otherwise it is exactly `undoMove`: the history shrinks by one and the position is the engine's undo |
| `Board.Flip` | src/App.jsx:125 | the orientation becomes "white" exactly when it was not "white", and "black" otherwise |
| `Board.FlipBoard` | src/App.jsx:124-126 | flipping changes only the orientation, from "white" to "black" and from anything else to "white" |
| `Board.EngineMoveArrived` | src/App.jsx:135-141 | the engine's reply, when legal, replaces the position and appends its SAN; otherwise nothing changes |
| `Board.JoinTyped` | src/App.jsx:190-195 | Join with input that is not all white space selects the trimmed id, which is non-empty and has no white space at either end, and clears the input; all-white-space input changes nothing |
| `Board.JoinButton` | src/App.jsx:189-199 | a Join click with all-white-space input neither changes state nor requests anything; otherwise the trimmed id is selected and the box cleared; the same id as before causes no rejoin; a different id in multiplayer mode requests its snapshot and opens a socket to it with the settled client id, after the old session is released: a live old socket is closed and the poll is stopped exactly when it was running, both before any new request |
| `Board.ChooseMode` | src/App.jsx:152 | re-selecting the current mode does nothing; switching to a non-multiplayer mode ends with no socket, no colour, no games, status "", empty history, no poll, no socket opened, and the same position; switching into multiplayer polls the game list exactly when no game is selected and otherwise opens a socket to the selected game |
| `Board.PairRows` | src/App.jsx:289-293 | the history `reduce` yields ceil(n/2) rows, and row i is [h[2i]] followed by h[2i+1] when that exists |
| `Board.PairStepExtends` | src/App.jsx:290-291 | one `reduce` step turns the table of a history into the table of that history extended by one move |
| `Client.Handle` | src/App.jsx:152-206 | every socket an event opens takes an id no earlier socket had, below the counter afterwards, and the counter never decreases; only Flip Board changes the orientation; "Create New Game" selects its own UUID as the game id and opens a socket to that game whose client id is settled from the store and the effect's UUID |
| `Client.Run` | src/App.jsx:152-206 | over any sequence of events the counter never decreases and every socket opened takes an id at or above the starting counter and below the final one; without a Flip Board event the orientation is unchanged |
| `Client.HandleKeepsInv` | src/components/useMultiplayer.jsx:137-140 | every event keeps the socket-ownership invariant: only the current socket can be live and unclosed, and its id is below the counter the next socket takes |
| `Properties.RunKeepsOneSocket` | src/components/useMultiplayer.jsx:137-140 | across any sequence of events, at most one socket is ever created and not asked to close |
| `Properties.MountedClientOwnsNoSocket` | src/App.jsx:15 | the mounted client satisfies the ownership invariant and owns no socket |
| `Properties.CleanupIdempotent` | src/components/useMultiplayer.jsx:137-140 | a second cleanup stops no timer, closes no socket and changes nothing |
| `Properties.ErrorThenClose` | src/components/useMultiplayer.jsx:84-129 | an `error` message closes the live socket and shows the error; the close event that follows overwrites the status with "Disconnected" and clears the colour, with position and history as before the error |
| `Properties.LateCloseAfterLeaving` | src/components/useMultiplayer.jsx:18-28 | leaving multiplayer clears the status and closes the socket, but that socket's later close event still sets "Disconnected" |
| `Properties.StaleCloseAfterSwitchingGames` | src/components/useMultiplayer.jsx:125-140 | after switching games, joining the new game as white over an open socket, the first game's late close event clears the colour and sets "Disconnected" while the new socket stays open and current |
| `Properties.StaleSnapshotAfterSwitchingGames` | src/components/useMultiplayer.jsx:47-63 | after switching games and the new game's handshake, a late snapshot of the first game overwrites position, board, history and status while the second game stays selected and the colour is kept |
| `Properties.LocalDropsReplay` | src/App.jsx:93-101 | outside multiplayer, a run of drops ends at the engine's replay of them; the history grows by exactly the SANs of the accepted drops, one per accepted drop; nothing is sent; nothing else changes |
| `Properties.EchoedMovesReplay` | src/components/useMultiplayer.jsx:105-117 | server moves are applied in arrival order: the position is the engine's replay, the history grows by their SANs, the status is "ongoing" once one was legal, and colour and socket are untouched |
| `Properties.LocalAndEchoAgree` | src/App.jsx:94-97 | from one state outside multiplayer mode, the drop handler and the `move` message handler, given the same moves, reach the same position and history |
| `Properties.DropThenUndo` | src/App.jsx:118-122 | with an engine whose undo takes back the last move, Undo right after an accepted drop restores position, board and history |
| `Properties.ClientIdReused` | src/components/useMultiplayer.jsx:65-69 | once an id is stored, the next join returns the same id and leaves the store unchanged |
| `Properties.SuccessiveJoinsShareClientId` | src/components/useMultiplayer.jsx:65-74 | two successive joins to different games open sockets whose addresses carry the same client id |
| `Properties.AppUsesLocalSocketServer` | src/App.jsx:13 | the configured backend URL contains "localhost", so the socket server is `ws://localhost:8000` |
| `Properties.SocketUrlsTellGamesApart` | src/components/useMultiplayer.jsx:74 | for one client, different game ids give different socket addresses |
| `Properties.FlattenRows` | src/App.jsx:289-293 | concatenating the rows of a history's table gives back the history |
| `Properties.PairRowsKeepHistory` | src/App.jsx:289-293 | the move-history table lists every move once, in order |
| `Properties.TrimIdempotent` | src/App.jsx:191-192 | a trimmed id is a fixed point of `trim` |
| `Properties.FlipTwice` | src/App.jsx:124-126 | flipping twice restores a "white" or "black" orientation |
| `Properties.OpeningExchange` | src/App.jsx:93-100 | after `init` as white, drop e2-e4 is accepted, applied and sent as `{from:"e2",to:"e4"}`; a server e7-e5 then makes the history [e4, e5] with white to move |

## Left out

- Real I/O is abstract. Each `fetch`, WebSocket construction and transport, `localStorage` access, `setInterval` timing (the 10-second period) and `crypto.randomUUID` appears only as an emitted command or an event parameter.
- React scheduling is not modelled. State updates inside one handler are applied atomically, and the dependency-change rerun is `Multiplayer.Commit`. The mount-time run of the effect is not applied by `Session.Initial`.
- JSX rendering, status capitalisation and the move-row label text are presentation and are left out.
- JSON encoding and decoding are left out. Inbound messages are already-parsed values. A payload that `JSON.parse` rejects throws before any state change, which the model treats like an unknown message type.
- Inbound messages are taken to come from the current socket. The WebSocket API does not deliver messages on a socket that is closing.
- A missing `fen` field in `init` or in a snapshot is not modelled. The field is always a string.
- The chess rules are out of scope. chess.js and python-chess are represented only by `Rules.Engine`.
- The evaluation fetch (`src/App.jsx:52-71`) is network I/O whose result is only displayed.
- The request half of `makeEngineMove` is network I/O. Only the apply of its reply is modelled.
- The selector handlers for a listed game, the typed-id box and "Create New Game" are plain `setGameId` or `setGameIdInput` calls. They are modelled only as events of `Client.Handle`.
- The theme, piece-artwork and build-configuration files are static data and presentation.
- `backend/AIEngine.py` and `backend/app.py` are the server side: engine subprocesses, an opening book, and float minimax evaluation.
- Handshake timeouts and bounded retries are absent from the code, so they are not modelled.
