# Two-player paddle game client: session state machine and input sampling

This project models the client side of a two-player paddle game, the
component in `src/App.js`. The component holds one WebSocket handle and a few
flags: `connected`, `waiting`, the assigned `playerRole`, the latest
`gameState` snapshot, an `error` banner text, `serverUrl` and the address
field `inputUrl`. Its event handlers update these flags:

- the connect button;
- the socket's open, message, error and close callbacks;
- the disconnect button.

Two key listeners keep a map of held arrow keys. A 16 ms timer turns that map
into `move` messages while a handle is held and the session is connected.
Which screen is shown depends only on `connected` and `waiting`.

The model has five modules:

- `Session` is the state as a `State` record. It has one pure transition per
  handler (`Connect`, `OnOpen`, `OnMessage`, `OnError`, `OnClose`,
  `Disconnect`, `EditUrl`). Each contract says which fields change and that
  nothing else does. `WellFormed` is the invariant every handler keeps: the
  error banner only shows one of the handlers' texts, every socket handle was
  made by a connect request, no handle is closed twice, and the held handle
  has not been closed.
- `Input` is the held-keys map (`Pressed`, `Released`), the per-tick intent
  decision (`Intents`) and the timer gate (`TickSends`). It also folds a
  sequence of key events to show that holding depends only on the last event.
- `Events` is an explicit event type with one transition function `Apply` and
  its fold `Run`. Proofs by induction characterise, after any event sequence:
  which handle is held, which snapshot is stored, which role is held, and that
  `WellFormed` still holds.
- `Screen` picks the screen: the connection form, the waiting room or the game
  view with its player label. It also has the board-drawing guard and a whole
  session scenario.
- `Game.PongGame` is the component as a class with the same fields, plus the
  keys map and the log of sent moves. Each handler is one atomic method that
  updates the fields step by step. Its `ensures` equates the new state with
  the `Session` transition of the old state.

Effects are modelled as data:

- Creating the socket succeeds or fails by a boolean parameter.
- Each handle is a `Socket(id, url)`, numbered by `nextId`.
- `ws.close()` is recorded in the `closed` log.
- `ws.send` of a move is recorded in `outbox`.

These places differ from an idealised design. The model follows the code:

- A `playerLeft` message keeps the role (`src/App.js:111-113`).
- The close callback keeps `gameState` and `ws` (`src/App.js:123-129`).
- `gameState` messages are accepted whatever the flags are (`src/App.js:109-110`).
- A second connect drops the previous handle without closing it
  (`src/App.js:92`, `src/App.js:131`).
- The code has no single mode variable: the screen is derived from the two
  flags, so a state with `connected` false and a role still set is
  representable. `Session.OnError` produces such a state.

## Model

| member | source | states |
|---|---|---|
| Session.Initial | src/App.js:5-15 | the mounted state: no handle, no role, no snapshot, not connected, not waiting, empty error, the given address; it is well-formed |
| Session.EditUrl | src/App.js:158 | typing into the address field changes `inputUrl` and nothing else |
| Session.Connect | src/App.js:89-135 | the error is cleared. On success the new handle `Socket(nextId, inputUrl)` replaces `ws`. On failure `ws` is kept and the error is the invalid-address text. Nothing else changes |
| Session.OnOpen | src/App.js:94-99 | sets `connected` and `waiting`, records the URL the socket was created with as `serverUrl`, changes nothing else (role, snapshot and error kept) |
| Session.OnMessage | src/App.js:101-115 | role: stores the role and clears `waiting`. waiting: sets `waiting`. gameState: replaces the snapshot wholesale, whatever the flags. playerLeft: sets `waiting` and the opponent-left text. Other types: whole state unchanged. Each leaves every other field as it was |
| Session.OnError | src/App.js:117-121 | clears `connected`, sets the connection-error text, keeps `waiting`, role, snapshot and handle |
| Session.OnClose | src/App.js:123-129 | clears `connected`, `waiting` and the role, sets the connection-closed text, keeps the snapshot and the handle |
| Session.Disconnect | src/App.js:137-146 | without a handle: no change. With one: it is appended to the close log once, and the handle, flags, role and snapshot are reset. The error text is kept |
| Session.WaitingIdempotent | src/App.js:107-108 | a second waiting notice gives the same state as one |
| Session.GameStateIdempotent | src/App.js:109-110 | the same snapshot received twice gives the same state as once |
| Session.LatestSnapshotWins | src/App.js:109-110 | a later snapshot overwrites an earlier one entirely |
| Session.DisconnectIdempotent | src/App.js:137-146 | a second disconnect changes nothing |
| Session.PlayerLeftKeepsRoleAndSnapshot | src/App.js:111-113 | an opponent leaving keeps the role and the snapshot |
| Session.ConnectLeaksPreviousHandle | src/App.js:92-131 | a successful reconnect replaces a held handle by a different one and does not close it |
| Session.DisconnectThenClose | src/App.js:123-146 | the close callback after a disconnect leaves no handle, role or snapshot and shows the connection-closed text |
| Session.ConnectKeepsWellFormed | src/App.js:89-135 | a connect request keeps the invariant, since the new handle has an unused number |
| Session.EditKeepsWellFormed | src/App.js:158 | editing the address keeps the invariant |
| Session.OpenKeepsWellFormed | src/App.js:94-99 | the open callback keeps the invariant |
| Session.MessageKeepsWellFormed | src/App.js:101-115 | every message keeps the invariant |
| Session.ErrorKeepsWellFormed | src/App.js:117-121 | the error callback keeps the invariant |
| Session.CloseKeepsWellFormed | src/App.js:123-129 | the close callback keeps the invariant |
| Session.DisconnectKeepsWellFormed | src/App.js:137-146 | disconnect keeps the invariant: the handle it closes was never closed before |
| Session.DisconnectClosesOnce | src/App.js:138-140 | after one or two disconnects the handle occurs exactly once in the close log |
| Input.Pressed | src/App.js:52-57 | key-down marks an arrow key held. Any other key leaves the map unchanged. No other entry changes |
| Input.Released | src/App.js:59-63 | key-up marks an arrow key as not held (present, false). Any other key leaves the map unchanged. No other entry changes |
| Input.Intents | src/App.js:78-83 | `Up` is sent exactly when ArrowUp is held and `Down` exactly when ArrowDown is held, `Up` before `Down`, at most two intents |
| Input.TickSends | src/App.js:74-87 | nothing is sent without a handle or while not connected; otherwise one tick sends `Intents` of the map |
| Input.NothingHeldSendsNothing | src/App.js:78-83 | no arrow held, no intent sent |
| Input.BothHeldSendsBoth | src/App.js:78-83 | both arrows held sends `[Up, Down]` in one tick |
| Input.PressedIdempotent | src/App.js:52-57 | a repeated key-down (auto-repeat) equals a single one |
| Input.ReleaseStopsIntent | src/App.js:59-63 | after releasing an arrow, its earlier press has no effect on the intents |
| Input.HeldIsLastEvent | src/App.js:52-63 | after any key-event sequence, a key is held exactly when its last event was a key-down. A key with no events keeps its initial state. Non-arrow keys never change |
| Input.OnlyArrowsTracked | src/App.js:52-63 | key events only ever add the two arrow keys to the map |
| Events.ApplyKeepsWellFormed | src/App.js:89-146 | every event keeps the invariant |
| Events.RunKeepsWellFormed | src/App.js:89-146 | after any event sequence the invariant still holds: the banner shows a known text, no handle is closed twice |
| Events.RunHandle | src/App.js:131-140 | a handle is held exactly when a successful connect came after the last disconnect; no socket callback drops it |
| Events.RunSnapshot | src/App.js:101-146 | after any event sequence the stored snapshot is the last one received, or None if a disconnect with a handle came after it. Socket errors and closes never clear it |
| Events.RunRole | src/App.js:101-146 | after any event sequence the role is the one from the last role message, or None if a close, or a disconnect with a handle, came after it. playerLeft never clears it |
| Events.NoRoleWithoutRoleMessage | src/App.js:104-106 | without a role message, a client with no role never gets one |
| Events.SnapshotSurvivesClose | src/App.js:109-129 | without a disconnect or a new gameState message, the stored snapshot survives every other event, errors and closes included |
| Screen.Render | src/App.js:152-200 | the form exactly when not connected, with a banner exactly when the error is non-empty. The waiting room exactly when connected and waiting. Otherwise the game view, labelled player 1 on the left for `Player1`, and player 2 on the right for anything else, a missing role included |
| Screen.DrawsBoard | src/App.js:17-19 | the board is drawn only when the canvas is mounted (game view) and a snapshot is stored |
| Screen.OpenShowsWaitingRoom | src/App.js:94-99 | an opened socket always shows the waiting room |
| Screen.RoleShowsGame | src/App.js:104-106 | a role message while connected shows the game view for that role |
| Screen.PlayerLeftShowsWaitingRoom | src/App.js:111-113 | an opponent leaving while connected shows the waiting room |
| Screen.GameStateKeepsScreen | src/App.js:109-110 | a snapshot never changes the screen |
| Screen.ErrorShowsForm | src/App.js:117-121 | a socket error shows the form with the connection-error banner |
| Screen.CloseShowsForm | src/App.js:123-129 | a close shows the form with the connection-closed banner |
| Screen.DisconnectShowsForm | src/App.js:137-146 | a disconnect with a handle shows the form with the banner that was there before |
| Screen.SessionScenario | src/App.js:89-146 | connect, open, wait: waiting room, no role. Then role player2 and a snapshot: the game view for player 2, snapshot stored and drawn. Then playerLeft: waiting room, role and snapshot kept. Then disconnect: the handle closed once, the form with the opponent-left banner |
| Game.PongGame.constructor | src/App.js:5-15 | the component starts in `Session.Initial` with an empty held-keys map and no moves sent |
| Game.PongGame.EditUrl | src/App.js:158 | the new state is `Session.EditUrl` of the old one; keys and sent moves unchanged |
| Game.PongGame.ConnectToServer | src/App.js:89-135 | the new state is `Session.Connect` of the old one and stays valid; keys and sent moves unchanged |
| Game.PongGame.OnOpen | src/App.js:94-99 | the new state is `Session.OnOpen` of the old one and stays valid |
| Game.PongGame.OnMessage | src/App.js:101-115 | the new state is `Session.OnMessage` of the old one and stays valid |
| Game.PongGame.OnError | src/App.js:117-121 | the new state is `Session.OnError` of the old one and stays valid |
| Game.PongGame.OnClose | src/App.js:123-129 | the new state is `Session.OnClose` of the old one and stays valid |
| Game.PongGame.Disconnect | src/App.js:137-146 | the new state is `Session.Disconnect` of the old one and stays valid; keys unchanged |
| Game.PongGame.HandleKeyDown | src/App.js:52-57 | the map becomes `Input.Pressed` of the old one; the browser default is suppressed exactly for the arrow keys |
| Game.PongGame.HandleKeyUp | src/App.js:59-63 | the map becomes `Input.Released` of the old one |
| Game.PongGame.Tick | src/App.js:74-87 | the sent moves grow by exactly `Input.TickSends` of the current state and map |

## Left out

- Socket construction, transport and URL parsing: whether `new WebSocket(inputUrl)` throws is the `constructed` parameter of `ConnectToServer`. A socket in the model is only a numbered handle with its URL.
- Which socket fires a callback is not modelled. The code's callbacks do not check it either: callbacks of a replaced handle update the same state.
- Message decoding (`JSON.parse`) and encoding (`JSON.stringify`): messages arrive already decoded as `Message`. The exception an undecodable payload raises is not modelled. A role message carries one of the two roles. A role value other than `player1` and `player2` is not modelled; the view would show it as player 2.
- Game.PongGame.Tick: records only the direction of each move sent, not the handle it goes to. The behaviour of `send` on a socket that is not open is not modelled.
- Timer set-up and tear-down (`setInterval`/`clearInterval`, the 16 ms period): one call of `Tick` is one timer tick. The gap between a state change and the effect that restarts the timer is not modelled.
- React hook lifecycles, effect clean-up, listener registration and state batching: each handler is atomic.
- Canvas drawing (lines 20-48) uses floating point and only produces graphics. Only its guard is modelled (`Screen.DrawsBoard`). Snapshot coordinates are integers in the model.
- Console logging, markup and styling, and the hard-coded default address: the constructor takes the initial address as a parameter.
- The connect button is on the form only, so a user can press it only while not connected. `Connect` is defined, and proved well-behaved, in every state.
