/**
  The handlers as one transition function over an explicit event type, and
  what holds of the state after any sequence of events.
 */
module Events {
  import opened Session

  /** Everything that can change the session state. */
  datatype Event =
    | ConnectClicked(constructed: bool)
    | UrlEdited(url: string)
    | Opened(socket: Socket)
    | Received(message: Message)
    | SocketError
    | SocketClosed
    | DisconnectClicked

  function Apply(s: State, e: Event): State {
    match e
    case ConnectClicked(constructed) => Connect(s, constructed)
    case UrlEdited(url) => EditUrl(s, url)
    case Opened(socket) => OnOpen(s, socket)
    case Received(m) => OnMessage(s, m)
    case SocketError => OnError(s)
    case SocketClosed => OnClose(s)
    case DisconnectClicked => Disconnect(s)
  }

  /** The state after handling `evs` in order. */
  function Run(s: State, evs: seq<Event>): State
    decreases |evs|
  {
    if evs == [] then s else Apply(Run(s, evs[..|evs| - 1]), evs[|evs| - 1])
  }

  /** Handling a concatenation is handling its parts one after the other. */
  lemma {:induction false} RunAppend(s: State, a: seq<Event>, b: seq<Event>)
    ensures Run(s, a + b) == Run(Run(s, a), b)
    decreases |b|
  {
    if b == [] {
      assert a + b == a;
    } else {
      assert (a + b)[..|a + b| - 1] == a + b[..|b| - 1];
      RunAppend(s, a, b[..|b| - 1]);
    }
  }

  /** One event keeps the invariant. */
  lemma ApplyKeepsWellFormed(s: State, e: Event)
    requires WellFormed(s)
    ensures WellFormed(Apply(s, e))
  {
    match e
    case ConnectClicked(constructed) => ConnectKeepsWellFormed(s, constructed);
    case UrlEdited(url) => EditKeepsWellFormed(s, url);
    case Opened(socket) => OpenKeepsWellFormed(s, socket);
    case Received(m) => MessageKeepsWellFormed(s, m);
    case SocketError => ErrorKeepsWellFormed(s);
    case SocketClosed => CloseKeepsWellFormed(s);
    case DisconnectClicked => DisconnectKeepsWellFormed(s);
  }

  /**
    Every state reachable from a well-formed one is well-formed: the error
    banner only ever shows one of the handlers' texts, and no handle is
    asked to close twice.
   */
  lemma {:induction false} RunKeepsWellFormed(s: State, evs: seq<Event>)
    requires WellFormed(s)
    ensures WellFormed(Run(s, evs))
    decreases |evs|
  {
    if evs != [] {
      RunKeepsWellFormed(s, evs[..|evs| - 1]);
      ApplyKeepsWellFormed(Run(s, evs[..|evs| - 1]), evs[|evs| - 1]);
    }
  }

  /** Whether `ws` holds a handle after `evs`, given whether it held one before them. */
  predicate HandleAfter(handle: bool, evs: seq<Event>)
    decreases |evs|
  {
    if evs == [] then handle
    else
      var e := evs[|evs| - 1];
      if e.ConnectClicked? then e.constructed || HandleAfter(handle, evs[..|evs| - 1])
      else if e.DisconnectClicked? then false
      else HandleAfter(handle, evs[..|evs| - 1])
  }

  /**
    A handle is held exactly when a successful connect came after the last
    disconnect; no socket event drops it.
   */
  lemma {:induction false} RunHandle(s: State, evs: seq<Event>)
    ensures Run(s, evs).ws.Some? == HandleAfter(s.ws.Some?, evs)
    decreases |evs|
  {
    if evs != [] {
      RunHandle(s, evs[..|evs| - 1]);
    }
  }

  /**
    Reference reading of the stored snapshot: the one carried by the last
    gameState message, unless a disconnect made while a handle was held came
    after it. Socket errors and closes never clear it.
   */
  function LatestSnapshot(initial: Option<Snapshot>, handle: bool, evs: seq<Event>): Option<Snapshot>
    decreases |evs|
  {
    if evs == [] then initial
    else
      var e := evs[|evs| - 1];
      var prior := evs[..|evs| - 1];
      if e.Received? && e.message.GameStateMessage? then Some(e.message.state)
      else if e.DisconnectClicked? && HandleAfter(handle, prior) then None
      else LatestSnapshot(initial, handle, prior)
  }

  lemma {:induction false} RunSnapshot(s: State, evs: seq<Event>)
    ensures Run(s, evs).gameState == LatestSnapshot(s.gameState, s.ws.Some?, evs)
    decreases |evs|
  {
    if evs != [] {
      RunSnapshot(s, evs[..|evs| - 1]);
      RunHandle(s, evs[..|evs| - 1]);
    }
  }

  /**
    Reference reading of the role: the one carried by the last role message,
    unless a close callback, or a disconnect made while a handle was held,
    came after it. An opponent leaving never clears it.
   */
  function LatestRole(initial: Option<Role>, handle: bool, evs: seq<Event>): Option<Role>
    decreases |evs|
  {
    if evs == [] then initial
    else
      var e := evs[|evs| - 1];
      var prior := evs[..|evs| - 1];
      if e.Received? && e.message.RoleMessage? then Some(e.message.role)
      else if e.SocketClosed? then None
      else if e.DisconnectClicked? && HandleAfter(handle, prior) then None
      else LatestRole(initial, handle, prior)
  }

  lemma {:induction false} RunRole(s: State, evs: seq<Event>)
    ensures Run(s, evs).playerRole == LatestRole(s.playerRole, s.ws.Some?, evs)
    decreases |evs|
  {
    if evs != [] {
      RunRole(s, evs[..|evs| - 1]);
      RunHandle(s, evs[..|evs| - 1]);
    }
  }

  predicate IsRoleEvent(e: Event) {
    e.Received? && e.message.RoleMessage?
  }

  /** Only a role message sets the role: without one, a client that has none never gets one. */
  lemma {:induction false} NoRoleWithoutRoleMessage(s: State, evs: seq<Event>)
    requires s.playerRole.None?
    requires forall i :: 0 <= i < |evs| ==> !IsRoleEvent(evs[i])
    ensures Run(s, evs).playerRole.None?
    decreases |evs|
  {
    if evs != [] {
      NoRoleWithoutRoleMessage(s, evs[..|evs| - 1]);
      assert !IsRoleEvent(evs[|evs| - 1]);
    }
  }

  /**
    Without a disconnect, the snapshot received last is still stored after
    any further socket events and messages other than gameState.
   */
  lemma {:induction false} SnapshotSurvivesClose(s: State, evs: seq<Event>)
    requires forall i :: 0 <= i < |evs| ==>
      !evs[i].DisconnectClicked? && !(evs[i].Received? && evs[i].message.GameStateMessage?)
    ensures Run(s, evs).gameState == s.gameState
    decreases |evs|
  {
    if evs != [] {
      SnapshotSurvivesClose(s, evs[..|evs| - 1]);
      assert !evs[|evs| - 1].DisconnectClicked?;
    }
  }
}
