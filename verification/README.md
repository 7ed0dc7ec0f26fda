# Walk the Dog: game object and Red Hat Boy state machine

A Dafny model of `src/game.rs` of a small browser runner game written in Rust
and WebAssembly. It covers:

- the `WalkTheDog` game object: its constructor, its asynchronous
  `initialize` (with the two asset loads as parameters), its per-tick
  `update` (arrow keys move the sprite 3 pixels per tick on each axis, the
  animation frame counter counts 0..23 and wraps), and its `draw` step as the
  list of renderer calls it makes, including the sprite key
  `"Run (<frame / 3 + 1>).png"` and the `"Cell not found"` stop;
- the Red Hat Boy player state machine: the `Idle` and `Running` states, each
  carrying a `RedHatBoyContext` (frame, position, velocity), the `Run` event,
  `transition` and `RedHatBoyState<Idle>::run`.

Files: `wrappers.dfy` (Option, Result), `rust_ints.dfy` (`u8`, `u16` as
bounded newtypes), `engine.dfy` (stand-ins for the engine's `Point`, `Rect`,
`KeyState` and the DOM image handle; the `engine` and `browser` modules are
not part of this model), `red_hat_boy_states.dfy` (the Rust module
`red_hat_boy_states`), `game.dfy` (everything else in `src/game.rs`).

`WalkTheDog` is a class whose `Update` changes `frame` and `position` in place;
`Update` is specified against the functions `NextFrame` and `KeyVelocity`, and
the lemmas about those functions (`TicksCycle`, `FramePeriod`, ...) carry the
properties of repeated ticks. The state machine is a datatype with a pure
`Transition` function.

## Model

| member | source | states |
|---|---|---|
| `Game.Axis` | src/game.rs:66-85 | the velocity along one axis is +3 exactly when only the positive key is held, -3 exactly when only the negative key is held, and 0 exactly when both or neither are held |
| `Game.KeyVelocity` | src/game.rs:66-82 | each velocity component is -3, 0 or 3; x is positive iff ArrowRight without ArrowLeft, negative iff ArrowLeft without ArrowRight; y is positive iff ArrowDown without ArrowUp, negative iff ArrowUp without ArrowDown |
| `Game.NextFrame` | src/game.rs:87-91 | the next counter value is at most 23; from a value in 0..23 it is the successor modulo 24; from 23 or above it is 0 |
| `Game.TicksCycle` | src/game.rs:87-91 | from a counter in 0..23, n updates give (frame + n) mod 24 |
| `Game.TicksFromAnyFrame` | src/game.rs:87-91 | from any u8 counter, after one or more updates the counter is in 0..23; from an out-of-range counter, n + 1 updates give n mod 24 |
| `Game.FramePeriod` | src/game.rs:87-91 | the counter returns to its start after 24 updates and not after any smaller positive number |
| `Game.SpriteNumber` | src/game.rs:95 | sprite n is shown exactly for the counter values 3(n-1), 3(n-1)+1, 3(n-1)+2; for a counter in 0..23 the sprite is in 1..8; the u8 arithmetic does not overflow |
| `Game.SpriteCoversThreeFrames` | src/game.rs:95 | for every n, the counter values showing sprite n are exactly 3(n-1), 3(n-1)+1 and 3(n-1)+2 (both directions) |
| `Game.DecimalRoundTrip` | src/game.rs:96 | the decimal notation of a number reads back as that number |
| `Game.FrameName` | src/game.rs:96 | the key "Run (<n>).png" reads back as sprite number n |
| `Game.FrameNamesDistinguishSprites` | src/game.rs:95-96 | two counter values look up the same key iff they show the same sprite |
| `Game.FrameNameIsRunCell` | src/game.rs:95-96 | for a counter in 0..23 the key looked up is one of "Run (1).png" .. "Run (8).png" |
| `Game.WalkTheDog.constructor` | src/game.rs:41-48 | a new game has no image and no sheet, frame 0, position (0, 0) |
| `Game.WalkTheDog.Loaded` | src/game.rs:57-62 | the game built from four field values holds exactly those values |
| `Game.WalkTheDog.Initialize` | src/game.rs:53-63 | an image load error is returned first, then a fetch error, then a decode error; on success a fresh game holds the loaded image and sheet and this game's frame and position |
| `Game.WalkTheDog.Update` | src/game.rs:65-92 | x moves by +3 for ArrowRight and -3 for ArrowLeft, y by +3 for ArrowDown and -3 for ArrowUp (opposite keys cancel); the frame becomes old + 1 below 23 and 0 otherwise, so it ends in 0..23; image and sheet are unchanged |
| `Game.WalkTheDog.Draw` | src/game.rs:94-127 | the draw stops with CellNotFound iff the sheet is missing or lacks the current key; otherwise it clears the 600x600 canvas and, iff an image is loaded, then draws the sheet cell at the current position at the cell's own size |
| `Game.DrawFindsRunCell` | src/game.rs:95-101 | with the eight run cells in the sheet and the counter in 0..23, the draw never stops on a missing cell |
| `Game.Transition` | src/game.rs:146-154 | the result is always Running and carries the same context; from Running the machine is returned unchanged; from Idle with Run it becomes Running with the idle state's context |
| `Game.TransitionsSettle` | src/game.rs:146-154 | after a non-empty run of events the machine equals the result of the first event alone, and the context is never changed |
| `RedHatBoyStates.Run` | src/game.rs:166-173 | the running state carries the idle state's context (frame, position and velocity) unchanged |

## Left out

- `src/lib.rs` (wasm entry point, panic hook, spawning the game loop): host plumbing with no game logic.
- The asset loads of `initialize` (`engine::load_image`, `browser::fetch_json`) are foreign asynchronous calls; their outcomes are parameters of `Initialize`, and the error values are not modelled beyond being passed up.
- The serde deserialisation of `Sheet`, `Cell` and `SheetRect`: the sheet is taken as already decoded.
- The renderer itself: `Draw` yields the calls it would make (`Clear`, `DrawImage`) instead of performing them; the `f64` rectangles are modelled as integer rectangles. This loses nothing because Rust's `.into()` to `f64` exists only from integer types of at most 32 bits, so every converted value (the cell's `u16` x, y, w, h and the position's coordinates) is represented exactly.
- `Game.WalkTheDog.Update`: the position's coordinates are unbounded integers, because the width of the engine's `Point` coordinates is not visible; an overflow of `position.x += velocity.x` after very many ticks is not modelled.
- The `RedHatBoy` struct (src/game.rs:130-134): it has no methods and nothing in `src/game.rs` builds or reads it; its state-machine and sheet fields are modelled on their own as `RedHatBoyStateMachine` and `Sheet`.
- `KeyState` is modelled as the set of held key codes; how the engine fills it from keyboard events is outside this model.
