# Riablo player movement, modelled in Dafny

Riablo is a small ggez game in which one player sprite walks over a green
field. Its logic is two pieces of state in `src/main.rs`:

- **Direction flags.** `Direction` keeps four independent booleans, `up`,
  `down`, `left` and `right`. `update_from_keycode` sets the flag of an arrow
  key to the given value and ignores every other key. The key-down handler
  passes `true` and the key-up handler passes `false`. Opposite directions
  may both be held.
- **Per-tick movement.** `Player::update` runs once per frame. For each held
  flag it moves the position by the constant `PLAYER_MOVEMENT` = (5, 5): up
  decreases y, down increases y, left decreases x and right increases x.
  Opposite flags cancel on their axis.

The model has three modules, one per component:

- `DirectionState` (`direction.dfy`): the `KeyCode` and `DirectionFlags`
  values, the specification function `Updated`, and the class `Direction`,
  whose `UpdateFromKeycode` is proved against `Updated`.
- `PlayerMotion` (`player.dfy`): the `Position` value, the one-tick
  specification `Moved` and its independent reference, the sum of the
  offsets of the held arrows (`Velocity`). It also holds the class `Player`,
  whose `Update` is proved against `Moved`.
- `Game` (`game_state.dfy`): the key events, `ApplyEvents` over a sequence of
  events with its lemmas, and the class `GameState` with the update and
  key handlers.

Coordinates are mathematical integers. The source uses `f32`, but its only
arithmetic is adding or subtracting 5.0, which is exact in `f32` while the
coordinates stay below 2^24 in magnitude.

## Model

| member | source | states |
|---|---|---|
| DirectionState.Updated | src/main.rs:41-49 | an arrow key sets exactly its own flag to the pressed value and leaves the other three unchanged; any other key leaves the flags unchanged |
| DirectionState.UpdatedIdempotent | src/main.rs:41-49 | writing the same (key, value) twice gives the same flags as writing it once |
| DirectionState.UpdatedCommutes | src/main.rs:41-49 | writes to two different arrow keys commute, so the flags are independent |
| DirectionState.OppositesNotExclusive | src/main.rs:41-49 | pressing an arrow key does not clear the opposite one: after pressing up and then down (or left and then right), both flags are held |
| DirectionState.Direction.constructor | src/main.rs:25-31 | the derived default `Direction` has all four flags false |
| DirectionState.Direction.UpdateFromKeycode | src/main.rs:41-49 | the flags after the call are `Updated` of the flags before it |
| PlayerMotion.Moved | src/main.rs:71-87 | one tick decreases y exactly when up is held without down and increases it exactly when down is held without up (likewise left/right on x), and each coordinate moves by 0 or by one step of 5 |
| PlayerMotion.MovedAddsHeldOffsets | src/main.rs:71-87 | one tick adds to the position the sum of the offsets of the held arrows: up (0,-5), down (0,5), left (-5,0), right (5,0), each flag applied independently |
| PlayerMotion.AxesIndependent | src/main.rs:71-87 | the new y depends only on up/down and the new x only on left/right |
| PlayerMotion.SingleArrowStep | src/main.rs:72-86 | with only one arrow held, one tick moves exactly one step of 5 in that arrow's direction and leaves the other axis unchanged |
| PlayerMotion.MovedTicksLinear | src/main.rs:120-123 | holding the same flags for n frames moves the player by n times the one-tick displacement |
| PlayerMotion.Player.constructor | src/main.rs:61-69 | a new player stands at (0, 0), keeps the given resolution and has a fresh direction with no flag held |
| PlayerMotion.Player.Update | src/main.rs:71-87 | the new position is `Moved` of the old position under the current flags; the direction is unchanged and the resolution is constant |
| Game.ApplyEventsAppend | src/main.rs:156-173 | handling one more event acts on the state the earlier events reached |
| Game.ApplyEventsLastWritten | src/main.rs:156-173 | after any sequence of key events, each flag equals the value last written for its arrow key (true for a press, false for a release), or its initial value if no event touched it |
| Game.RepeatedEventIdempotent | src/main.rs:156-173 | the same event delivered twice in a row has the effect of delivering it once |
| Game.PressThenRelease | src/main.rs:156-173 | a press followed by a release of one arrow key leaves its flag false and the other three flags as they were before the press |
| Game.OtherKeysIgnored | src/main.rs:41-49 | a sequence of events for non-arrow keys leaves the flags unchanged |
| Game.GameState.constructor | src/main.rs:110-116 | a new game holds a fresh player at (0, 0) with no flag held and the given resolution |
| Game.GameState.Update | src/main.rs:120-123 | one frame moves the player by `Moved` and changes no flag |
| Game.GameState.KeyDownEvent | src/main.rs:156-164 | a key press writes `true` for its key, whatever the modifiers and the repeat flag; the position is unchanged |
| Game.GameState.KeyUpEvent | src/main.rs:166-173 | a key release writes `false` for its key, whatever the modifiers; the position is unchanged |

## Left out

- Drawing: `Player::draw`, `GameState::draw`, `clear`, `present`, the green
  mesh rectangle and `yield_now`. These are graphics calls with no state of
  the model.
- `get_scaled_resolution`: floating-point division and rounding that feed
  only the renderer. The resolution is carried as a pair of reals and never
  computed on.
- The texture loaded in `Player::new`. It is a foreign call that can panic,
  and no logic depends on it.
- `main`: environment variables, resource paths, window and context set-up,
  and the ggez event loop. Events reach the model as calls to the handlers,
  and a sequence of them is modelled by `ApplyEvents`.
- `f32` rounding of the coordinates: they are unbounded integers, exact for
  the ±5 steps the source takes until the magnitude reaches 2^24.
- ggez's `KeyCode` enumeration is reduced to the four arrow keys and
  `OtherKey(code)` for the rest. `KeyMods` is a record of the four modifier
  flags. Both are ignored by the handlers, as in the source.
- The sprite's source rectangle is the fixed literal at `src/main.rs:92`;
  the game keeps no animation state.
- The `Direction` struct, which the source embeds by value in `Player`, is
  modelled as a `Direction` object that the player owns: its reference is
  a constant set by the constructor to a fresh object, and no other object
  aliases it.
