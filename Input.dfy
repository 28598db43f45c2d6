/**
  Keyboard sampling: the held-keys map the key listeners update, and the
  decision each tick of the input timer makes about which move intents to send.
 */
module Input {
  import S = Session

  /** The held-keys object: a key name maps to true while held, false once released. */
  type Keys = map<string, bool>

  const ArrowUp: string := "ArrowUp"
  const ArrowDown: string := "ArrowDown"

  /** The only keys the listeners react to. */
  predicate IsArrow(key: string) {
    key == ArrowUp || key == ArrowDown
  }

  /** A key absent from the map reads as not held, like an undefined property. */
  predicate Held(keys: Keys, key: string) {
    key in keys && keys[key]
  }

  datatype Direction = Up | Down

  /** The key-down listener's effect on the map. */
  function Pressed(keys: Keys, key: string): (r: Keys)
    ensures IsArrow(key) ==> Held(r, key)
    ensures !IsArrow(key) ==> r == keys
    ensures forall k :: k != key ==> (k in r <==> k in keys)
    ensures forall k :: k != key && k in keys ==> r[k] == keys[k]
  {
    if IsArrow(key) then keys[key := true] else keys
  }

  /** The key-up listener's effect on the map. */
  function Released(keys: Keys, key: string): (r: Keys)
    ensures IsArrow(key) ==> key in r && !Held(r, key)
    ensures !IsArrow(key) ==> r == keys
    ensures forall k :: k != key ==> (k in r <==> k in keys)
    ensures forall k :: k != key && k in keys ==> r[k] == keys[k]
  {
    if IsArrow(key) then keys[key := false] else keys
  }

  /**
    The intents one tick sends: `Up` exactly when ArrowUp is held, `Down`
    exactly when ArrowDown is held, `Up` before `Down`, each at most once.
   */
  function Intents(keys: Keys): (r: seq<Direction>)
    ensures Up in r <==> Held(keys, ArrowUp)
    ensures Down in r <==> Held(keys, ArrowDown)
    ensures forall i, j :: 0 <= i < j < |r| ==> r[i] == Up && r[j] == Down
    ensures |r| <= 2
  {
    (if Held(keys, ArrowUp) then [Up] else []) + (if Held(keys, ArrowDown) then [Down] else [])
  }

  /**
    What a tick sends in state `s`: the timer only runs while a handle is
    held and the session is connected.
   */
  function TickSends(s: S.State, keys: Keys): (r: seq<Direction>)
    ensures s.ws.None? || !s.connected ==> r == []
    ensures s.ws.Some? && s.connected ==> r == Intents(keys)
  {
    if s.ws.Some? && s.connected then Intents(keys) else []
  }

  /** No key held, no message: silence, not a stop message, means no movement. */
  lemma NothingHeldSendsNothing(keys: Keys)
    requires !Held(keys, ArrowUp) && !Held(keys, ArrowDown)
    ensures Intents(keys) == []
  {
  }

  /** Both arrows held: both intents go out in the same tick, `Up` first. */
  lemma BothHeldSendsBoth(keys: Keys)
    requires Held(keys, ArrowUp) && Held(keys, ArrowDown)
    ensures Intents(keys) == [Up, Down]
  {
  }

  /** Key auto-repeat: a repeated key-down is the same as one. */
  lemma PressedIdempotent(keys: Keys, key: string)
    ensures Pressed(Pressed(keys, key), key) == Pressed(keys, key)
  {
  }

  /** Releasing a pressed arrow stops its intent; the other arrow is unaffected. */
  lemma ReleaseStopsIntent(keys: Keys, key: string)
    requires IsArrow(key)
    ensures Intents(Released(Pressed(keys, key), key))
            == Intents(Released(keys, key))
  {
  }

  /** A key listener event, as the window delivers it. */
  datatype KeyEvent = KeyDown(key: string) | KeyUp(key: string)

  /** The map after the listeners have handled `evs` in order. */
  function AfterKeys(keys: Keys, evs: seq<KeyEvent>): Keys
    decreases |evs|
  {
    if evs == [] then keys
    else
      var prior := AfterKeys(keys, evs[..|evs| - 1]);
      match evs[|evs| - 1]
      case KeyDown(k) => Pressed(prior, k)
      case KeyUp(k) => Released(prior, k)
  }

  /**
    Reference reading of the held state of `key` after `evs`: the kind of the
    last event on `key` if `key` is an arrow and has one, otherwise `initial`.
   */
  function LastHeld(initial: bool, key: string, evs: seq<KeyEvent>): bool
    decreases |evs|
  {
    if evs == [] || !IsArrow(key) then initial
    else if evs[|evs| - 1].key == key then evs[|evs| - 1].KeyDown?
    else LastHeld(initial, key, evs[..|evs| - 1])
  }

  /** Whether a key is held depends only on the last event on that key. */
  lemma {:induction false} HeldIsLastEvent(keys: Keys, evs: seq<KeyEvent>, key: string)
    ensures Held(AfterKeys(keys, evs), key) == LastHeld(Held(keys, key), key, evs)
    decreases |evs|
  {
    if evs != [] {
      HeldIsLastEvent(keys, evs[..|evs| - 1], key);
    }
  }

  /** Only the two arrows are ever added to the map. */
  lemma {:induction false} OnlyArrowsTracked(keys: Keys, evs: seq<KeyEvent>, key: string)
    requires key in AfterKeys(keys, evs)
    ensures key in keys || IsArrow(key)
    decreases |evs|
  {
    if evs != [] {
      var prior := AfterKeys(keys, evs[..|evs| - 1]);
      if key != evs[|evs| - 1].key || !IsArrow(key) {
        assert key in prior;
        OnlyArrowsTracked(keys, evs[..|evs| - 1], key);
      }
    }
  }
}
