/**
  The game state and its event handlers: a key press writes `true` and a key
  release writes `false` into the player's direction flags, and every tick
  moves the player. Sequences of key events are modelled by `ApplyEvents`.
 */
module Game {
  import opened DirectionState
  import opened PlayerMotion

  /** The modifier keys held with a key event; the handlers ignore them. */
  datatype KeyMods = KeyMods(shift: bool, ctrl: bool, alt: bool, logo: bool)

  /** A key event as the windowing layer delivers it. The repeat flag of a
      press and the modifiers are carried but ignored. */
  datatype KeyEvent =
    | KeyDown(key: KeyCode, keymod: KeyMods, repeat: bool)
    | KeyUp(key: KeyCode, keymod: KeyMods)

  /** The flags after one event: a press writes `true`, a release `false`. */
  function Handle(f: DirectionFlags, e: KeyEvent): DirectionFlags {
    Updated(f, e.key, e.KeyDown?)
  }

  /** The flags after the events in order, starting from `f`. */
  function ApplyEvents(f: DirectionFlags, events: seq<KeyEvent>): DirectionFlags
    decreases |events|
  {
    if events == [] then f else ApplyEvents(Handle(f, events[0]), events[1..])
  }

  /** The value the last event for arrow `a` wrote, or `initial` when no
      event in `events` concerns `a`. */
  function LastWritten(events: seq<KeyEvent>, a: Arrow, initial: bool): bool
    decreases |events|
  {
    if events == [] then initial
    else
      var e := events[|events| - 1];
      if e.key == ArrowKey(a) then e.KeyDown?
      else LastWritten(events[..|events| - 1], a, initial)
  }

  /** Applying one more event is handling it in the state reached so far. */
  lemma {:induction false} ApplyEventsAppend(f: DirectionFlags, events: seq<KeyEvent>, e: KeyEvent)
    ensures ApplyEvents(f, events + [e]) == Handle(ApplyEvents(f, events), e)
    decreases |events|
  {
    if events != [] {
      assert (events + [e])[1..] == events[1..] + [e];
      ApplyEventsAppend(Handle(f, events[0]), events[1..], e);
    }
  }

  /** After any sequence of events, each flag holds the value last written for
      its key, or its initial value when no event touched it. */
  lemma {:induction false} ApplyEventsLastWritten(f: DirectionFlags, events: seq<KeyEvent>, a: Arrow)
    ensures Flag(ApplyEvents(f, events), a) == LastWritten(events, a, Flag(f, a))
    decreases |events|
  {
    if events != [] {
      var init, e := events[..|events| - 1], events[|events| - 1];
      assert events == init + [e];
      ApplyEventsAppend(f, init, e);
      ApplyEventsLastWritten(f, init, a);
    }
  }

  /** Delivering the same event twice in a row has the effect of delivering it once. */
  lemma RepeatedEventIdempotent(f: DirectionFlags, events: seq<KeyEvent>, e: KeyEvent)
    ensures ApplyEvents(f, events + [e, e]) == ApplyEvents(f, events + [e])
  {
    assert events + [e, e] == (events + [e]) + [e];
    ApplyEventsAppend(f, events + [e], e);
    ApplyEventsAppend(f, events, e);
    UpdatedIdempotent(ApplyEvents(f, events), e.key, e.KeyDown?);
  }

  /** A press followed by a release of the same arrow key leaves its flag
      cleared and every other flag as it was before the press. */
  lemma PressThenRelease(f: DirectionFlags, events: seq<KeyEvent>, a: Arrow,
                         downMods: KeyMods, repeat: bool, upMods: KeyMods)
    ensures var before := ApplyEvents(f, events);
            var after := ApplyEvents(f, events + [KeyDown(ArrowKey(a), downMods, repeat), KeyUp(ArrowKey(a), upMods)]);
            !Flag(after, a) && forall b :: b != a ==> Flag(after, b) == Flag(before, b)
  {
    var down, up := KeyDown(ArrowKey(a), downMods, repeat), KeyUp(ArrowKey(a), upMods);
    assert events + [down, up] == (events + [down]) + [up];
    ApplyEventsAppend(f, events + [down], up);
    ApplyEventsAppend(f, events, down);
  }

  /** Events for keys other than the arrows leave the flags unchanged. */
  lemma {:induction false} OtherKeysIgnored(f: DirectionFlags, events: seq<KeyEvent>)
    requires forall i :: 0 <= i < |events| ==> events[i].key.OtherKey?
    ensures ApplyEvents(f, events) == f
    decreases |events|
  {
    if events != [] {
      OtherKeysIgnored(f, events[1..]);
    }
  }

  /** The game: one player and the window resolution. */
  class GameState {
    const player: Player
    const resolution: (real, real)

    /** A new game holds a new player at the origin with no direction held. */
    constructor (resolution: (real, real))
      ensures this.resolution == resolution && player.resolution == resolution
      ensures fresh(player) && fresh(player.direction)
      ensures player.position == Origin && player.direction.Flags() == NoneHeld
    {
      this.resolution := resolution;
      player := new Player(resolution);
    }

    /** The per-frame update: one movement tick of the player. */
    method Update()
      modifies player
      ensures player.position == Moved(old(player.position), player.direction.Flags())
      ensures unchanged(player.direction)
    {
      player.Update();
    }

    /** A key press writes `true` for its key; modifiers and repeat are ignored. */
    method KeyDownEvent(keycode: KeyCode, keymod: KeyMods, repeat: bool)
      modifies player.direction
      ensures player.direction.Flags() == Handle(old(player.direction.Flags()), KeyDown(keycode, keymod, repeat))
      ensures unchanged(player)
    {
      player.direction.UpdateFromKeycode(keycode, true);
    }

    /** A key release writes `false` for its key; modifiers are ignored. */
    method KeyUpEvent(keycode: KeyCode, keymod: KeyMods)
      modifies player.direction
      ensures player.direction.Flags() == Handle(old(player.direction.Flags()), KeyUp(keycode, keymod))
      ensures unchanged(player)
    {
      player.direction.UpdateFromKeycode(keycode, false);
    }
  }
}
