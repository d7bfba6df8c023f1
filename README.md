# raylib-rs-template game core in Dafny

This project models the deterministic, integer-only core of the game in
`game/src/game.rs`. It covers the following parts:

- the xorshift128 generator, with bounded draws, the slice shuffle, seed
  derivation and seeding;
- the two randomly drawn enums `ArrowKind` and `Dir`;
- the 16 x 16 tile grid and its row-major index conversion;
- generation of the 256-tile board from a seed;
- decoding of the 16-bit input flag word;
- the integer parts of `update`: which commands it emits, in which order,
  and how the animation timer advances.

Modules, one file each:

| file | module | models |
|---|---|---|
| `rng.dfy` | `Rng` | `xorshift`, `xs_u32`, `xs_shuffle`, `new_seed`, `xs_from_seed` |
| `enums.dfy` | `Pick` | `ArrowKind`, `Dir`: `ALL`, `COUNT`, `from_rng` |
| `tile.dfy` | `Tile` | `mod tile`: `xy_to_i`, `xy_to_i_usize`, `i_to_xy`, `to_coord_or_default` |
| `board.dfy` | `Boards` | `TileData::from_rng`, `Tiles::from_rng`, `Board::from_seed` |
| `input.dfy` | `InputDecode` | the input flag constants, `Input::from_flags` |
| `update.dfy` | `Game` | `ClearableStorage`, `State`, `State::from_seed`, `update` |

The generator state `[Wrapping<u32>; 4]` is an `array<bv32>` of length 4 in
the methods, which update it in place as the Rust functions do. Its value
is written as an `XsState`, a `seq<bv32>` of length 4. The methods are
proved against specification functions on that value:

- `Step` is one step of the recurrence and `StepN` is `n` steps;
- `ShuffleUpTo` covers the shuffle passes;
- `TilesOf` is the tile sequence;
- `FrameCommands` is one frame's command list.

The lemmas state what the source promises about those functions.

The game `State` is a class with the fields `sizes`, `board` and
`animationTimer`. `Update` updates `sizes` and `animationTimer` and leaves
`board` as it was. The command sink is a class
holding a `seq<Command>` with `Clear` and `Push`.

`draw::fresh_sizes` lives in the `draw` module (declared at
game/src/game.rs:104), which is not part of this model. It is a parameter of `Update`, and the default layout is a
parameter of `State.FromSeed`.

## Model

| member | source | states |
|---|---|---|
| Rng.Xorshift | game/src/game.rs:23-35 | words 0, 1 and 2 move to places 1, 2 and 3; the new state is `Step` of the old; the result is the new word 0 |
| Rng.StepBijective | game/src/game.rs:29-32 | the step can be undone: `Unstep(Step(s)) == s` and `Step(Unstep(s)) == s` |
| Rng.StepKeepsNonzero | game/src/game.rs:23-35 | a non-zero state never steps to the all-zero state |
| Rng.StepNKeepsNonzero | game/src/game.rs:23-35 | no number of steps from a non-zero state reaches the all-zero state |
| Rng.Reduce | game/src/game.rs:38-40 | when `min < one_past_max`, the reduced draw lies in `[min, one_past_max)` |
| Rng.XsU32 | game/src/game.rs:38-40 | exactly one step; the result is the new word 0 reduced into `[min, one_past_max)` |
| Rng.SwapIndex | game/src/game.rs:45-47 | the index drawn by the pass at `i` never exceeds `i` |
| Rng.SwapPermutes | game/src/game.rs:49 | a swap keeps the multiset of entries |
| Rng.SliceSwap | game/src/game.rs:49 | `slice::swap` exchanges entries `i` and `j` in place |
| Rng.ShuffleUpToPermutes | game/src/game.rs:43-50 | after any number of passes the slice is a permutation of its input |
| Rng.ShuffleUpTo | game/src/game.rs:43-50 | the state and slice after the passes at indices `1, ..., k - 1`; the slice keeps its length |
| Rng.ShuffleUpToDraws | game/src/game.rs:43-50 | the `k - 1` passes at indices `1, ..., k - 1` consume one step each, `k - 1` steps in all |
| Rng.LoopEnd | game/src/game.rs:44 | the exclusive end of `1..len as u32`: `len mod 2^32` when that is non-zero, else 1; it never exceeds the length unless it is 1; below 2^32, a non-empty slice gets `len - 1` passes and an empty one none |
| Rng.ShufflePermutes | game/src/game.rs:43-50 | `xs_shuffle` yields a permutation of the slice and advances the generator `LoopEnd(len) - 1` steps, one per pass |
| Rng.ShuffleFullLength | game/src/game.rs:43-50 | a non-empty slice shorter than 2^32 gets a pass at every index but 0, so the generator advances `len - 1` steps |
| Rng.ShuffleStep | game/src/game.rs:45-49 | one loop iteration: one draw in `[0, i]`, then a swap of `i` with it |
| Rng.XsShuffle | game/src/game.rs:43-50 | the new generator state and slice are those of `Shuffle` on the old ones |
| Rng.LeBytes | game/src/game.rs:54-57 | `u32::to_le_bytes`: four bytes whose weighted sum, least significant first, is the word |
| Rng.FromLeBytes | game/src/game.rs:76-81 | `u32::from_le_bytes`: the word is the weighted sum of the four bytes, least significant first |
| Rng.LeBytesRoundTrip | game/src/game.rs:53-65 | `to_le_bytes` and `from_le_bytes` are inverse, in both directions |
| Rng.FromLeBytesZero | game/src/game.rs:76-84 | a word read from four bytes is zero exactly when all four bytes are zero |
| Rng.FallbackSeedBytes | game/src/game.rs:69-71 | the fallback seed is the 16 little-endian bytes of `0xBAD5EED` |
| Rng.WordsOfNonzero | game/src/game.rs:73-91 | a seed with a non-zero byte gives a non-zero state |
| Rng.XsFromSeed | game/src/game.rs:67-92 | `xs_from_seed`: no seed, the all-zero one included, yields the all-zero state |
| Rng.ZeroSeedRemap | game/src/game.rs:68-71 | the zero seed seeds exactly as the bytes of `0xBAD5EED` do; its state is `[0xBAD5EED, 0, 0, 0]` |
| Rng.NewSeed | game/src/game.rs:53-65 | four steps; the seed is the little-endian bytes of the four outputs, in the order drawn |
| Rng.NewSeedRoundTrip | game/src/game.rs:53-92 | from a non-zero state, seeding with a derived seed gives the four drawn words, which are the drawing state's new words in reverse order |
| Pick.ArrowKindAll | game/src/game.rs:127-143 | `ArrowKind::ALL` has `COUNT == 2` entries and holds each variant once, at its declaration index |
| Pick.DirAll | game/src/game.rs:127-143 | `Dir::ALL` has `COUNT == 8` entries and holds each variant once, at its declaration index |
| Pick.Choose | game/src/game.rs:145-147 | the index is below the table length, so the result is an element of `ALL` |
| Pick.ArrowKindOf | game/src/game.rs:145-147 | the drawn arrow kind is an element of `ALL`, the one at position `w % 2` |
| Pick.OfIsChoose | game/src/game.rs:145-147 | both enums' draws are the shared `from_rng` rule: `ALL` indexed by the draw reduced into `[0, COUNT)` |
| Pick.DirOf | game/src/game.rs:145-147 | the drawn direction is an element of `ALL`, the one at position `w % 8` |
| Pick.ArrowKindReachable | game/src/game.rs:145-157 | every arrow kind is the result of some draw |
| Pick.DirReachable | game/src/game.rs:145-147 | every direction is the result of some draw |
| Pick.ArrowKindFromRng | game/src/game.rs:145-147 | one step; the result is the table entry that the drawn word selects |
| Pick.DirFromRng | game/src/game.rs:145-147 | one step; the result is the table entry that the drawn word selects |
| Tile.XyToIUsize | game/src/game.rs:232-234 | for a column below 16, the index divided by 16 is the row and the index modulo 16 is the column |
| Tile.XyToI | game/src/game.rs:228-230 | coordinates on the grid give an index below 256 |
| Tile.IToXy | game/src/game.rs:236-250 | both coordinates are at most 15; they are `index % 16` and `(index % 256) / 16`; `to_coord_or_default` is called only on values below 256, so its default branch is never taken |
| Tile.IndexRoundTrip | game/src/game.rs:228-246 | `xy_to_i(i_to_xy(i)) == i` for every `i < 256` |
| Tile.CoordRoundTrip | game/src/game.rs:228-246 | `i_to_xy(xy_to_i(xy)) == xy` for every on-grid `xy` |
| Tile.IToXyPeriodic | game/src/game.rs:236-246 | `i_to_xy(i) == i_to_xy(i % 256)` |
| Tile.IToXyInjective | game/src/game.rs:236-246 | distinct tile indices have distinct coordinates |
| Boards.TileDataFromRng | game/src/game.rs:271-276 | two steps; the direction comes from the first draw and the arrow kind from the second |
| Boards.TilesOf | game/src/game.rs:307-317 | tile `k` is drawn from the state after the `2k` draws of the earlier tiles |
| Boards.TilesOfSnoc | game/src/game.rs:310-312 | one more loop iteration appends the tile drawn next |
| Boards.TilesFromRng | game/src/game.rs:307-317 | the 256 entries are filled in index order; there are 512 draws in all; the result is `TilesOf` of the old state |
| Boards.BoardOf | game/src/game.rs:327-337 | the board of a seed has 256 tiles |
| Boards.BoardFromSeed | game/src/game.rs:327-337 | the board is a function of the seed alone: `BoardOf(seed)` |
| Boards.BoardRngNonzero | game/src/game.rs:327-337 | the generator kept in the board is never all zero |
| Boards.ZeroSeedBoard | game/src/game.rs:67-71 | the zero seed builds the same board as the bytes of `0xBAD5EED` |
| InputDecode.FromFlags | game/src/game.rs:391-406 | `Interact` iff bit 8 is set; otherwise the first held bit among up (4), down (5), left (6), right (7), each as an iff; `NoChange` iff bits 4-8 are all clear |
| InputDecode.FromFlagsIsFirstSet | game/src/game.rs:391-406 | `from_flags` is the first match in the priority table interact, up, down, left, right |
| InputDecode.FromFlagsReadsDecodedBits | game/src/game.rs:368-406 | only bits 4-8 decide the result |
| InputDecode.PressedBitsIgnored | game/src/game.rs:368-371 | a word with only the pressed bits 0-3 decodes to `NoChange` |
| Game.CommandSink.Clear | game/src/game.rs:14 | the sink is empty afterwards |
| Game.CommandSink.Push | game/src/game.rs:16 | appends one command at the end |
| Game.NextTimer | game/src/game.rs:475-478 | the new timer is below 64800 and equals `(t + 1) % 64800`; the increment does not overflow `u16` |
| Game.TimerAfter | game/src/game.rs:341-344 | the timer stays below `ANIMATION_TIMER_LENGTH` frame after frame |
| Game.TimerAfterCounts | game/src/game.rs:475-478 | after `n` frames from 0 the timer is `n % 64800` |
| Game.SpriteCommands | game/src/game.rs:425-434 | `n` loop iterations push exactly `n` commands |
| Game.SpriteCommandsAt | game/src/game.rs:425-434 | command `k` is the sprite of `tiles[k]` at `i_to_xy(k)` |
| Game.TileSpriteInjective | game/src/game.rs:278-280 | `TileData::sprite` keeps both the direction and the arrow kind: distinct tiles give distinct sprites |
| Game.FrameShape | game/src/game.rs:421-472 | a frame is 256 sprites, the k-th from `tiles[k]`, then the input text, then the sizes-and-timer text |
| Game.State.FromSeed | game/src/game.rs:353-359 | the board comes from the seed, the layout is the default and the timer is 0 |
| Game.Update | game/src/game.rs:409-478 | the layout is refreshed exactly when the drawing area changed; the board is unchanged; the timer becomes `NextTimer` of the old value; the sink holds exactly `FrameCommands` of the new layout, the decoded input and the timer before the increment |

## Left out

- Floating-point geometry is not modelled. This covers the draw positions of sprites (`draw_xy_from_tile`) and the position, size and kind of text commands (`MARGIN`, `small_section_h`). A sprite command carries the tile coordinates its position is computed from. A text command carries what it displays.
- The text of the `Text` commands is not modelled, because it is `Debug` formatting done by `format!`. The model keeps the `Input` value, and the sizes and timer value, that the text is built from.
- `DrawWH` is a pair of `real`s compared for equality, so `f32` NaN comparison is not captured.
- `draw::fresh_sizes` and the contents of `draw::Sizes`: the `draw` module (declared at game/src/game.rs:104) is not part of this model. `fresh_sizes` is a parameter of `Update`, the default `Sizes` is a parameter of `State.FromSeed`, and the layout fields other than `draw_wh` are never inspected.
- `sizes` (the accessor at game/src/game.rs:362-364) only clones a field, so it has no separate model.
- The `compile_time_assert!` and `from_rng_enum_def!` macros are not modelled. The two enums they generate are written out directly.
- `ClearableStorage` is modelled as a concrete class holding a sequence, not as a trait, because only `clear` and `push` are used.
- Arithmetic overflow panics are modelled as preconditions: `xs_u32` requires `min < one_past_max`, `xy_to_i_usize` requires no `usize` overflow, and `NextTimer` requires `t < 0xFFFF`. `State.Valid` keeps `Update` clear of the last.
- `Board` keeps the generator state left after generation, because the code stores `rng` in the board (game/src/game.rs:322, 332-336).
- The slice given to `XsShuffle` must not be the generator array itself. That aliasing is impossible in Rust.
- How evenly the draws are spread is not stated. `xs_u32` reduces by `%`, and the model keeps that bias exactly as written but proves nothing about the distribution.
