/**
  The player's position and its per-tick update: every held arrow key moves
  the player by a fixed step along its axis, each flag applied on its own.
 */
module PlayerMotion {
  import opened DirectionState

  /** The step per tick along (x, y), in world units. */
  const PlayerMovement: (int, int) := (5, 5)

  /** A point in world coordinates; y grows downwards. */
  datatype Position = Position(x: int, y: int)

  /** The derived default position. */
  const Origin := Position(0, 0)

  /** The offset that holding arrow `a` alone adds in one tick. */
  function ArrowOffset(a: Arrow): (int, int) {
    match a
    case Up => (0, -PlayerMovement.1)
    case Down => (0, PlayerMovement.1)
    case Left => (-PlayerMovement.0, 0)
    case Right => (PlayerMovement.0, 0)
  }

  /** The four arrow keys, in the order the update tests them. */
  const AllArrows: seq<Arrow> := [Up, Down, Left, Right]

  /** The sum of the offsets of those `arrows` that are held in `f`. */
  function HeldOffsetSum(f: DirectionFlags, arrows: seq<Arrow>): (int, int) {
    if arrows == [] then (0, 0)
    else
      var rest := HeldOffsetSum(f, arrows[1..]);
      var own := if Flag(f, arrows[0]) then ArrowOffset(arrows[0]) else (0, 0);
      (own.0 + rest.0, own.1 + rest.1)
  }

  /** The displacement of one tick under flags `f`: the sum of the offsets of
      every held arrow. */
  function Velocity(f: DirectionFlags): (int, int) {
    HeldOffsetSum(f, AllArrows)
  }

  /** The position after one tick under flags `f`. Up moves towards smaller y,
      down towards larger y, left towards smaller x, right towards larger x;
      an axis moves by one step exactly when one of its two arrows is held,
      so opposite arrows held together cancel. */
  function Moved(p: Position, f: DirectionFlags): (r: Position)
    ensures r.y < p.y <==> f.up && !f.down
    ensures r.y > p.y <==> f.down && !f.up
    ensures r.x < p.x <==> f.left && !f.right
    ensures r.x > p.x <==> f.right && !f.left
    ensures r.y == p.y || r.y == p.y - PlayerMovement.1 || r.y == p.y + PlayerMovement.1
    ensures r.x == p.x || r.x == p.x - PlayerMovement.0 || r.x == p.x + PlayerMovement.0
  {
    var y1 := if f.up then p.y - PlayerMovement.1 else p.y;
    var y2 := if f.down then y1 + PlayerMovement.1 else y1;
    var x1 := if f.left then p.x - PlayerMovement.0 else p.x;
    var x2 := if f.right then x1 + PlayerMovement.0 else x1;
    Position(x2, y2)
  }

  /** Each held flag contributes its own offset, independently of the others. */
  lemma MovedAddsHeldOffsets(p: Position, f: DirectionFlags)
    ensures Moved(p, f) == Position(p.x + Velocity(f).0, p.y + Velocity(f).1)
  {
    assert [Right][1..] == [];
    assert [Left, Right][1..] == [Right];
    assert [Down, Left, Right][1..] == [Left, Right];
    assert AllArrows[1..] == [Down, Left, Right];
    assert HeldOffsetSum(f, []) == (0, 0);
    var r := HeldOffsetSum(f, [Right]);
    var lr := HeldOffsetSum(f, [Left, Right]);
    var dlr := HeldOffsetSum(f, [Down, Left, Right]);
    assert r == (if f.right then PlayerMovement.0 else 0, 0);
    assert lr == ((if f.left then -PlayerMovement.0 else 0) + r.0, 0);
    assert dlr == (lr.0, if f.down then PlayerMovement.1 else 0);
  }

  /** The vertical move depends only on up and down, the horizontal move only
      on left and right. */
  lemma AxesIndependent(p: Position, f: DirectionFlags, g: DirectionFlags)
    ensures f.up == g.up && f.down == g.down ==> Moved(p, f).y == Moved(p, g).y
    ensures f.left == g.left && f.right == g.right ==> Moved(p, f).x == Moved(p, g).x
  {
  }

  /** Holding a single arrow key moves exactly one step in its direction. */
  lemma SingleArrowStep(p: Position, a: Arrow)
    ensures Moved(p, Updated(NoneHeld, ArrowKey(a), true))
         == Position(p.x + ArrowOffset(a).0, p.y + ArrowOffset(a).1)
  {
  }

  /** The position after `n` ticks with the flags held at `f` throughout. */
  function MovedTicks(p: Position, f: DirectionFlags, n: nat): Position
    decreases n
  {
    if n == 0 then p else MovedTicks(Moved(p, f), f, n - 1)
  }

  /** Holding the same flags for `n` ticks moves `n` times the one-tick
      displacement. */
  lemma {:induction false} MovedTicksLinear(p: Position, f: DirectionFlags, n: nat)
    ensures MovedTicks(p, f, n) == Position(p.x + n * Velocity(f).0, p.y + n * Velocity(f).1)
    decreases n
  {
    if n > 0 {
      var v := Velocity(f);
      MovedAddsHeldOffsets(p, f);
      MovedTicksLinear(Moved(p, f), f, n - 1);
      assert (n - 1) * v.0 + v.0 == n * v.0 && (n - 1) * v.1 + v.1 == n * v.1;
    }
  }

  /** The player: a fixed resolution, a position updated every tick and the
      direction flags the key handlers write. The texture is not modelled. */
  class Player {
    const resolution: (real, real)
    var position: Position
    const direction: Direction

    /** A new player stands at the origin with no direction held. */
    constructor (resolution: (real, real))
      ensures this.resolution == resolution
      ensures position == Origin
      ensures fresh(direction) && direction.Flags() == NoneHeld
    {
      this.resolution := resolution;
      position := Origin;
      direction := new Direction();
    }

    /** One tick: moves the position by one step for each held flag and
        changes nothing else. */
    method Update()
      modifies this
      ensures position == Moved(old(position), direction.Flags())
      ensures unchanged(direction)
    {
      if direction.up {
        position := position.(y := position.y - PlayerMovement.1);
      }
      if direction.down {
        position := position.(y := position.y + PlayerMovement.1);
      }
      if direction.left {
        position := position.(x := position.x - PlayerMovement.0);
      }
      if direction.right {
        position := position.(x := position.x + PlayerMovement.0);
      }
    }
  }
}
