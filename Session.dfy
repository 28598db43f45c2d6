/**
  The session state of the paddle-game client component and one pure
  transition per event handler: the connect button, the four socket
  callbacks (open, message, error, close) and the disconnect button.
  Each handler is atomic; the component's state setters become record updates.
 */
module Session {

  datatype Option<T> = None | Some(value: T)

  /** The paddle this client controls, as the server assigns it. */
  datatype Role = Player1 | Player2

  datatype Paddle = Paddle(x: int, y: int, width: int, height: int)
  datatype Ball = Ball(x: int, y: int, radius: int)
  datatype Score = Score(player1: int, player2: int)

  /** A world snapshot pushed by the server; the client only stores and draws it. */
  datatype Snapshot = Snapshot(paddle1: Paddle, paddle2: Paddle, ball: Ball, score: Score)

  /**
    A socket handle. `id` distinguishes handles created by successive connect
    requests; `url` is the address the connect request used, which the
    socket's open callback captured.
   */
  datatype Socket = Socket(id: nat, url: string)

  /** A server message after decoding, by the value of its `type` field. */
  datatype Message =
    | RoleMessage(role: Role)
    | WaitingMessage
    | GameStateMessage(state: Snapshot)
    | PlayerLeftMessage
    | OtherMessage

  const InvalidUrlError: string := "URL invalide ou serveur inaccessible"
  const ConnectionError: string := "Erreur de connexion au serveur"
  const ConnectionClosed: string := "Connexion fermée"
  const OpponentLeft: string := "L'autre joueur s'est déconnecté. En attente..."

  /**
    The component's state. `nextId` numbers the sockets the client creates and
    `closed` records every socket the client has asked to close, in order.
   */
  datatype State = State(
    ws: Option<Socket>,
    connected: bool,
    waiting: bool,
    playerRole: Option<Role>,
    gameState: Option<Snapshot>,
    error: string,
    serverUrl: string,
    inputUrl: string,
    nextId: nat,
    closed: seq<Socket>)

  /** The texts the error banner can hold ("" is no banner). */
  predicate KnownError(e: string) {
    e == "" || e == InvalidUrlError || e == ConnectionError
    || e == ConnectionClosed || e == OpponentLeft
  }

  /**
    The invariant every reachable state keeps: the error is one of the
    handlers' texts, every handle was created by a connect request, no handle
    was asked to close twice, and the current handle has not been closed.
   */
  predicate WellFormed(s: State) {
    && KnownError(s.error)
    && (forall i :: 0 <= i < |s.closed| ==> s.closed[i].id < s.nextId)
    && (forall i, j :: 0 <= i < j < |s.closed| ==> s.closed[i].id != s.closed[j].id)
    && (s.ws.Some? ==> s.ws.value.id < s.nextId)
    && (s.ws.Some? ==> forall i :: 0 <= i < |s.closed| ==> s.closed[i].id != s.ws.value.id)
  }

  /** The state at mount time; `url` is the initial content of the address field. */
  function Initial(url: string): (r: State)
    ensures WellFormed(r)
    ensures r.ws.None? && r.playerRole.None? && r.gameState.None?
    ensures !r.connected && !r.waiting && r.error == "" && r.inputUrl == url
  {
    State(None, false, false, None, None, "", "", url, 0, [])
  }

  /** Typing into the address field. */
  function EditUrl(s: State, url: string): (r: State)
    ensures r.inputUrl == url
    ensures r.(inputUrl := s.inputUrl) == s
  {
    s.(inputUrl := url)
  }

  /**
    The connect button. The error is cleared first; `constructed` says whether
    creating the socket for `inputUrl` succeeded. On success the new handle
    replaces `ws` (the previous one is not closed); on failure the handle is
    left as it was and the invalid-address text is shown.
   */
  function Connect(s: State, constructed: bool): (r: State)
    ensures constructed ==> r.ws == Some(Socket(s.nextId, s.inputUrl)) && r.error == ""
                            && r.nextId == s.nextId + 1
    ensures !constructed ==> r.ws == s.ws && r.error == InvalidUrlError && r.nextId == s.nextId
    ensures r.(ws := s.ws, error := s.error, nextId := s.nextId) == s
  {
    var cleared := s.(error := "");
    if constructed then
      cleared.(ws := Some(Socket(s.nextId, s.inputUrl)), nextId := s.nextId + 1)
    else
      cleared.(error := InvalidUrlError)
  }

  /** The socket's open callback: connected, waiting for an opponent, address recorded. */
  function OnOpen(s: State, socket: Socket): (r: State)
    ensures r.connected && r.waiting && r.serverUrl == socket.url
    ensures r.(connected := s.connected, waiting := s.waiting, serverUrl := s.serverUrl) == s
  {
    s.(connected := true, serverUrl := socket.url, waiting := true)
  }

  /**
    The socket's message callback. No message is gated on `connected` or
    `waiting`; an unrecognised type leaves the state alone.
   */
  function OnMessage(s: State, m: Message): (r: State)
    ensures m.RoleMessage? ==>
      r.playerRole == Some(m.role) && !r.waiting
      && r.(playerRole := s.playerRole, waiting := s.waiting) == s
    ensures m.WaitingMessage? ==> r.waiting && r.(waiting := s.waiting) == s
    ensures m.GameStateMessage? ==> r.gameState == Some(m.state) && r.(gameState := s.gameState) == s
    ensures m.PlayerLeftMessage? ==>
      r.waiting && r.error == OpponentLeft
      && r.(waiting := s.waiting, error := s.error) == s
    ensures m.OtherMessage? ==> r == s
  {
    match m
    case RoleMessage(role) => s.(playerRole := Some(role), waiting := false)
    case WaitingMessage => s.(waiting := true)
    case GameStateMessage(state) => s.(gameState := Some(state))
    case PlayerLeftMessage => s.(waiting := true, error := OpponentLeft)
    case OtherMessage => s
  }

  /** The socket's error callback: only the error text and `connected` change. */
  function OnError(s: State): (r: State)
    ensures !r.connected && r.error == ConnectionError
    ensures r.(connected := s.connected, error := s.error) == s
  {
    s.(error := ConnectionError, connected := false)
  }

  /** The socket's close callback: the handle and the last snapshot are kept. */
  function OnClose(s: State): (r: State)
    ensures !r.connected && !r.waiting && r.playerRole.None? && r.error == ConnectionClosed
    ensures r.ws == s.ws && r.gameState == s.gameState
    ensures r.(connected := s.connected, waiting := s.waiting, playerRole := s.playerRole,
               error := s.error) == s
  {
    s.(connected := false, waiting := false, playerRole := None, error := ConnectionClosed)
  }

  /**
    The disconnect button: without a handle nothing happens; otherwise the
    handle is closed once and the session fields are reset. The error text
    is not touched.
   */
  function Disconnect(s: State): (r: State)
    ensures s.ws.None? ==> r == s
    ensures s.ws.Some? ==>
      && r.closed == s.closed + [s.ws.value]
      && r.ws.None? && !r.connected && !r.waiting && r.playerRole.None? && r.gameState.None?
      && r.error == s.error && r.serverUrl == s.serverUrl && r.inputUrl == s.inputUrl
      && r.nextId == s.nextId
  {
    match s.ws
    case None => s
    case Some(socket) =>
      s.(closed := s.closed + [socket], ws := None, connected := false, waiting := false,
         playerRole := None, gameState := None)
  }

  // Properties relating several handlers

  /** A second waiting notice changes nothing. */
  lemma WaitingIdempotent(s: State)
    ensures OnMessage(OnMessage(s, WaitingMessage), WaitingMessage) == OnMessage(s, WaitingMessage)
  {
  }

  /** A second gameState message with the same snapshot changes nothing. */
  lemma GameStateIdempotent(s: State, g: Snapshot)
    ensures OnMessage(OnMessage(s, GameStateMessage(g)), GameStateMessage(g))
            == OnMessage(s, GameStateMessage(g))
  {
  }

  /** Only the latest snapshot is kept: a second one overwrites the first wholesale. */
  lemma LatestSnapshotWins(s: State, g1: Snapshot, g2: Snapshot)
    ensures OnMessage(OnMessage(s, GameStateMessage(g1)), GameStateMessage(g2))
            == OnMessage(s, GameStateMessage(g2))
  {
  }

  /** A second disconnect changes nothing, so a handle is closed at most once. */
  lemma DisconnectIdempotent(s: State)
    ensures Disconnect(Disconnect(s)) == Disconnect(s)
  {
  }

  /** An opponent leaving keeps the client's role and the last snapshot. */
  lemma PlayerLeftKeepsRoleAndSnapshot(s: State)
    ensures OnMessage(s, PlayerLeftMessage).playerRole == s.playerRole
    ensures OnMessage(s, PlayerLeftMessage).gameState == s.gameState
  {
  }

  /**
    A connect request that creates a socket while another handle is held
    drops that handle without closing it.
   */
  lemma ConnectLeaksPreviousHandle(s: State)
    requires WellFormed(s) && s.ws.Some?
    ensures Connect(s, true).ws != s.ws
    ensures Connect(s, true).closed == s.closed
    ensures s.ws.value !in Connect(s, true).closed
  {
  }

  /** Closing the socket after a disconnect reports the closed connection but keeps nothing else. */
  lemma DisconnectThenClose(s: State)
    requires s.ws.Some?
    ensures var r := OnClose(Disconnect(s));
      r.ws.None? && r.gameState.None? && r.playerRole.None? && !r.connected
      && r.error == ConnectionClosed
  {
  }

  /** A connect request keeps the invariant: a new handle gets an unused number. */
  lemma ConnectKeepsWellFormed(s: State, constructed: bool)
    requires WellFormed(s)
    ensures WellFormed(Connect(s, constructed))
  {
  }

  lemma EditKeepsWellFormed(s: State, url: string)
    requires WellFormed(s)
    ensures WellFormed(EditUrl(s, url))
  {
  }
  lemma OpenKeepsWellFormed(s: State, socket: Socket)
    requires WellFormed(s)
    ensures WellFormed(OnOpen(s, socket))
  {
  }
  lemma MessageKeepsWellFormed(s: State, m: Message)
    requires WellFormed(s)
    ensures WellFormed(OnMessage(s, m))
  {
  }
  lemma ErrorKeepsWellFormed(s: State)
    requires WellFormed(s)
    ensures WellFormed(OnError(s))
  {
  }
  lemma CloseKeepsWellFormed(s: State)
    requires WellFormed(s)
    ensures WellFormed(OnClose(s))
  {
  }

  /** Disconnect keeps the invariant: the closed handle had not been closed before. */
  lemma DisconnectKeepsWellFormed(s: State)
    requires WellFormed(s)
    ensures WellFormed(Disconnect(s))
  {
    if s.ws.Some? {
      var r := Disconnect(s);
      forall i, j | 0 <= i < j < |r.closed| ensures r.closed[i].id != r.closed[j].id {
        if j == |s.closed| {
          assert r.closed[j] == s.ws.value;
        } else {
          assert r.closed[i] == s.closed[i] && r.closed[j] == s.closed[j];
        }
      }
    }
  }

  /** In a well-formed state, disconnecting leaves the handle in the close log exactly once. */
  lemma DisconnectClosesOnce(s: State)
    requires WellFormed(s) && s.ws.Some?
    ensures multiset(Disconnect(s).closed)[s.ws.value] == 1
    ensures multiset(Disconnect(Disconnect(s)).closed)[s.ws.value] == 1
  {
    var h := s.ws.value;
    assert h !in s.closed;
    assert multiset(s.closed)[h] == 0;
    assert multiset(s.closed + [h]) == multiset(s.closed) + multiset{h};
  }
}
