/**
  The player's direction state: four independent flags, one per arrow key,
  each set by a key press and cleared by the matching key release.
  Opposite directions are not exclusive: up and down may both be held.
 */
module DirectionState {

  /** The four arrow keys, which are the only keys the game reacts to. */
  datatype Arrow = Up | Down | Left | Right

  /** A key code delivered by the windowing layer: an arrow key, or any
      other key, identified only by an opaque code. */
  datatype KeyCode = ArrowKey(arrow: Arrow) | OtherKey(code: nat)

  /** The value of a `Direction`: which arrow keys are currently held. */
  datatype DirectionFlags = DirectionFlags(up: bool, down: bool, left: bool, right: bool)

  /** The derived default of the flags: nothing held. */
  const NoneHeld := DirectionFlags(false, false, false, false)

  /** The flag that belongs to arrow key `a`. */
  function Flag(f: DirectionFlags, a: Arrow): bool {
    match a
    case Up => f.up
    case Down => f.down
    case Left => f.left
    case Right => f.right
  }

  /** The flags after a press (`pressed`) or release (`!pressed`) of `key`:
      an arrow key sets its own flag to `pressed` and leaves the other three
      alone; any other key changes nothing. */
  function Updated(f: DirectionFlags, key: KeyCode, pressed: bool): (r: DirectionFlags)
    ensures key.ArrowKey? ==> Flag(r, key.arrow) == pressed
    ensures key.ArrowKey? ==> forall a :: a != key.arrow ==> Flag(r, a) == Flag(f, a)
    ensures key.OtherKey? ==> r == f
  {
    match key
    case ArrowKey(Up) => f.(up := pressed)
    case ArrowKey(Down) => f.(down := pressed)
    case ArrowKey(Left) => f.(left := pressed)
    case ArrowKey(Right) => f.(right := pressed)
    case OtherKey(_) => f
  }

  /** Writing the same value for the same key twice is the same as writing it once. */
  lemma UpdatedIdempotent(f: DirectionFlags, key: KeyCode, pressed: bool)
    ensures Updated(Updated(f, key, pressed), key, pressed) == Updated(f, key, pressed)
  {
  }

  /** The flags are independent: writes for two different arrow keys commute. */
  lemma UpdatedCommutes(f: DirectionFlags, a: Arrow, p: bool, b: Arrow, q: bool)
    requires a != b
    ensures Updated(Updated(f, ArrowKey(a), p), ArrowKey(b), q)
         == Updated(Updated(f, ArrowKey(b), q), ArrowKey(a), p)
  {
  }

  /** Opposite directions are not exclusive: pressing one arrow key keeps the
      opposite one held. */
  lemma OppositesNotExclusive(f: DirectionFlags)
    ensures var v := Updated(Updated(f, ArrowKey(Up), true), ArrowKey(Down), true);
            Flag(v, Up) && Flag(v, Down)
    ensures var h := Updated(Updated(f, ArrowKey(Left), true), ArrowKey(Right), true);
            Flag(h, Left) && Flag(h, Right)
  {
  }

  /** The direction state of the player, updated in place by key events. */
  class Direction {
    var up: bool
    var down: bool
    var left: bool
    var right: bool

    /** The current value of the four flags. */
    function Flags(): DirectionFlags
      reads this
    {
      DirectionFlags(up, down, left, right)
    }

    /** The derived default: no direction held. */
    constructor ()
      ensures Flags() == NoneHeld
    {
      up, down, left, right := false, false, false, false;
    }

    /** Records a press (`isDown`) or release (`!isDown`) of `key`. */
    method UpdateFromKeycode(key: KeyCode, isDown: bool)
      modifies this
      ensures Flags() == Updated(old(Flags()), key, isDown)
    {
      match key
      case ArrowKey(Up) => up := isDown;
      case ArrowKey(Down) => down := isDown;
      case ArrowKey(Left) => left := isDown;
      case ArrowKey(Right) => right := isDown;
      case OtherKey(_) =>
    }
  }
}
