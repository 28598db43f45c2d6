/**
  The game client component: its state fields, the held-keys map and the
  moves sent so far. Each handler is one atomic method that updates the
  fields the way the component's setters do; its contract ties the new
  state to the corresponding transition of `Session`.
 */
module Game {
  import S = Session
  import I = Input

  class PongGame {
    var ws: S.Option<S.Socket>
    var connected: bool
    var waiting: bool
    var playerRole: S.Option<S.Role>
    var gameState: S.Option<S.Snapshot>
    var error: string
    var serverUrl: string
    var inputUrl: string
    var nextId: nat
    var closed: seq<S.Socket>
    /** The held-keys object the key listeners update in place. */
    var keys: I.Keys
    /** Every move intent sent so far, in order. */
    var outbox: seq<I.Direction>

    /** The session fields as one value. */
    function Current(): S.State
      reads this
    {
      S.State(ws, connected, waiting, playerRole, gameState, error, serverUrl, inputUrl,
              nextId, closed)
    }

    ghost predicate Valid()
      reads this
    {
      S.WellFormed(Current())
    }

    /** Mounting the component; `url` is the address field's initial content. */
    constructor (url: string)
      ensures Valid() && Current() == S.Initial(url)
      ensures keys == map[] && outbox == []
    {
      ws, gameState, playerRole := S.None, S.None, S.None;
      connected, waiting := false, false;
      serverUrl, inputUrl, error := "", url, "";
      nextId, closed := 0, [];
      keys, outbox := map[], [];
    }

    method EditUrl(url: string)
      requires Valid()
      modifies this
      ensures Valid() && Current() == S.EditUrl(old(Current()), url)
      ensures keys == old(keys) && outbox == old(outbox)
    {
      inputUrl := url;
      S.EditKeepsWellFormed(old(Current()), url);
    }

    /** `constructed` says whether creating the socket for `inputUrl` succeeded. */
    method ConnectToServer(constructed: bool)
      requires Valid()
      modifies this
      ensures Valid() && Current() == S.Connect(old(Current()), constructed)
      ensures keys == old(keys) && outbox == old(outbox)
    {
      error := "";
      if constructed {
        var socket := S.Socket(nextId, inputUrl);
        nextId := nextId + 1;
        ws := S.Some(socket);
      } else {
        error := S.InvalidUrlError;
      }
      S.ConnectKeepsWellFormed(old(Current()), constructed);
    }

    method OnOpen(socket: S.Socket)
      requires Valid()
      modifies this
      ensures Valid() && Current() == S.OnOpen(old(Current()), socket)
      ensures keys == old(keys) && outbox == old(outbox)
    {
      connected := true;
      serverUrl := socket.url;
      waiting := true;
      S.OpenKeepsWellFormed(old(Current()), socket);
    }

    method OnMessage(m: S.Message)
      requires Valid()
      modifies this
      ensures Valid() && Current() == S.OnMessage(old(Current()), m)
      ensures keys == old(keys) && outbox == old(outbox)
    {
      match m {
        case RoleMessage(role) =>
          playerRole := S.Some(role);
          waiting := false;
        case WaitingMessage =>
          waiting := true;
        case GameStateMessage(state) =>
          gameState := S.Some(state);
        case PlayerLeftMessage =>
          waiting := true;
          error := S.OpponentLeft;
        case OtherMessage =>
      }
      S.MessageKeepsWellFormed(old(Current()), m);
    }

    method OnError()
      requires Valid()
      modifies this
      ensures Valid() && Current() == S.OnError(old(Current()))
      ensures keys == old(keys) && outbox == old(outbox)
    {
      error := S.ConnectionError;
      connected := false;
      S.ErrorKeepsWellFormed(old(Current()));
    }

    method OnClose()
      requires Valid()
      modifies this
      ensures Valid() && Current() == S.OnClose(old(Current()))
      ensures keys == old(keys) && outbox == old(outbox)
    {
      connected := false;
      waiting := false;
      playerRole := S.None;
      error := S.ConnectionClosed;
      S.CloseKeepsWellFormed(old(Current()));
    }

    method Disconnect()
      requires Valid()
      modifies this
      ensures Valid() && Current() == S.Disconnect(old(Current()))
      ensures keys == old(keys) && outbox == old(outbox)
    {
      if ws.Some? {
        closed := closed + [ws.value];
        ws := S.None;
        connected := false;
        waiting := false;
        playerRole := S.None;
        gameState := S.None;
      }
      S.DisconnectKeepsWellFormed(old(Current()));
    }

    /** The key-down listener; the result says whether the browser default is suppressed. */
    method HandleKeyDown(key: string) returns (preventDefault: bool)
      modifies this`keys
      ensures keys == I.Pressed(old(keys), key)
      ensures preventDefault <==> I.IsArrow(key)
    {
      preventDefault := false;
      if key == I.ArrowUp || key == I.ArrowDown {
        preventDefault := true;
        keys := keys[key := true];
      }
    }

    /** The key-up listener. */
    method HandleKeyUp(key: string)
      modifies this`keys
      ensures keys == I.Released(old(keys), key)
    {
      if key == I.ArrowUp || key == I.ArrowDown {
        keys := keys[key := false];
      }
    }

    /** One tick of the input timer, which only runs while a handle is held and connected. */
    method Tick()
      modifies this`outbox
      ensures outbox == old(outbox) + I.TickSends(Current(), keys)
    {
      if ws.Some? && connected {
        if I.ArrowUp in keys && keys[I.ArrowUp] {
          outbox := outbox + [I.Up];
        }
        if I.ArrowDown in keys && keys[I.ArrowDown] {
          outbox := outbox + [I.Down];
        }
      }
    }
  }
}
