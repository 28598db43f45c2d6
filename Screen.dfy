/**
  Which screen the component shows for a session state: the connection form
  while not connected, the waiting room while connected and waiting, the
  game view otherwise.
 */
module Screen {
  import opened Session
  import Events

  datatype View =
    | ConnectForm(banner: Option<string>)
    | WaitingRoom
    | GameView(playerNumber: string, side: string)

  /**
    The screen for `s`. The form shows a banner only for a non-empty error;
    the game view names player 1 on the left for `Player1` and otherwise
    player 2 on the right, a missing role included.
   */
  function Render(s: State): (r: View)
    ensures r.ConnectForm? <==> !s.connected
    ensures r.WaitingRoom? <==> s.connected && s.waiting
    ensures r.GameView? <==> s.connected && !s.waiting
    ensures r.ConnectForm? ==> (r.banner.Some? <==> s.error != "")
    ensures r.ConnectForm? && r.banner.Some? ==> r.banner.value == s.error
    ensures r.GameView? ==> (r.playerNumber == "1" <==> s.playerRole == Some(Player1))
    ensures r.GameView? ==> (r.playerNumber == "1" || r.playerNumber == "2")
    ensures r.GameView? ==> (r.side == "gauche" <==> r.playerNumber == "1")
    ensures r.GameView? ==> (r.side == "gauche" || r.side == "droit")
  {
    if !s.connected then
      ConnectForm(if s.error != "" then Some(s.error) else None)
    else if s.waiting then
      WaitingRoom
    else
      var first := s.playerRole == Some(Player1);
      GameView(if first then "1" else "2", if first then "gauche" else "droit")
  }

  /**
    The board is drawn only when the canvas is on screen (the game view)
    and a snapshot is stored; no snapshot, no drawing.
   */
  function DrawsBoard(s: State): (r: bool)
    ensures r <==> Render(s).GameView? && s.gameState.Some?
  {
    s.connected && !s.waiting && s.gameState != None
  }

  /** An opened socket always leads to the waiting room. */
  lemma OpenShowsWaitingRoom(s: State, socket: Socket)
    ensures Render(OnOpen(s, socket)) == WaitingRoom
  {
  }

  /** A role message while connected shows the game for that role. */
  lemma RoleShowsGame(s: State, role: Role)
    requires s.connected
    ensures Render(OnMessage(s, RoleMessage(role)))
            == if role == Player1 then GameView("1", "gauche") else GameView("2", "droit")
  {
  }

  /** An opponent leaving while connected sends the client back to the waiting room. */
  lemma PlayerLeftShowsWaitingRoom(s: State)
    requires s.connected
    ensures Render(OnMessage(s, PlayerLeftMessage)) == WaitingRoom
  {
  }

  /** A snapshot never changes the screen, only what the canvas draws. */
  lemma GameStateKeepsScreen(s: State, g: Snapshot)
    ensures Render(OnMessage(s, GameStateMessage(g))) == Render(s)
  {
  }

  /** A socket error shows the form with the connection-error banner. */
  lemma ErrorShowsForm(s: State)
    ensures Render(OnError(s)) == ConnectForm(Some(ConnectionError))
  {
  }

  /** A close shows the form with the connection-closed banner. */
  lemma CloseShowsForm(s: State)
    ensures Render(OnClose(s)) == ConnectForm(Some(ConnectionClosed))
  {
  }

  /** A disconnect with a handle shows the form with whatever banner was there. */
  lemma DisconnectShowsForm(s: State)
    requires s.ws.Some?
    ensures Render(Disconnect(s)) == ConnectForm(if s.error == "" then None else Some(s.error))
  {
  }

  /**
    A whole session: connect, wait, get player 2, receive a snapshot, lose
    the opponent, disconnect. The role and the snapshot survive the
    opponent's departure; the disconnect closes the handle once and clears both.
   */
  lemma SessionScenario(url: string, g: Snapshot)
    ensures
      var s0 := Initial(url);
      var socket := Socket(0, url);
      var evs := [Events.ConnectClicked(true), Events.Opened(socket),
                  Events.Received(WaitingMessage)];
      var waiting := Events.Run(s0, evs);
      var playing := Events.Run(waiting, [Events.Received(RoleMessage(Player2)),
                                          Events.Received(GameStateMessage(g))]);
      var left := Events.Apply(playing, Events.Received(PlayerLeftMessage));
      var done := Events.Apply(left, Events.DisconnectClicked);
      && Render(waiting) == WaitingRoom && waiting.playerRole.None?
      && waiting.ws == Some(socket) && waiting.serverUrl == url
      && Render(playing) == GameView("2", "droit") && playing.gameState == Some(g)
      && DrawsBoard(playing)
      && Render(left) == WaitingRoom && left.playerRole == Some(Player2)
      && left.gameState == Some(g) && left.error == OpponentLeft
      && Render(done) == ConnectForm(Some(OpponentLeft))
      && done.closed == [socket] && done.ws.None? && done.gameState.None?
  {
    var s0 := Initial(url);
    var socket := Socket(0, url);
    var e1, e2, e3 := Events.ConnectClicked(true), Events.Opened(socket),
                      Events.Received(WaitingMessage);
    assert [e1, e2, e3][..2] == [e1, e2];
    assert [e1, e2][..1] == [e1];
    assert [e1][..0] == [];
    assert Events.Run(s0, [e1]) == Connect(s0, true);
    assert Events.Run(s0, [e1, e2]) == OnOpen(Connect(s0, true), socket);
    var waiting := OnMessage(OnOpen(Connect(s0, true), socket), WaitingMessage);
    assert Events.Run(s0, [e1, e2, e3]) == waiting;
    var r1, r2 := Events.Received(RoleMessage(Player2)), Events.Received(GameStateMessage(g));
    assert [r1, r2][..1] == [r1];
    assert [r1][..0] == [];
    assert Events.Run(waiting, [r1]) == OnMessage(waiting, RoleMessage(Player2));
    var playing := OnMessage(OnMessage(waiting, RoleMessage(Player2)), GameStateMessage(g));
    assert Events.Run(waiting, [r1, r2]) == playing;
    assert playing.connected && !playing.waiting && playing.ws == Some(socket);
    var left := OnMessage(playing, PlayerLeftMessage);
    assert left.connected && left.waiting && left.playerRole == Some(Player2);
    var done := Disconnect(left);
    assert done.closed == [socket] && !done.connected;
  }
}
