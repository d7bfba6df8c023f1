/**
 * The game state and one frame of `update`: refresh the layout when the
 * window changed size, clear the command sink, push one sprite per tile in
 * index order and two text commands, and advance the animation timer.
 */
module Game {
  import opened Rng
  import opened Pick
  import opened Tile
  import opened Boards
  import opened InputDecode

  /** A Rust `u16`. */
  type u16 = x: int | 0 <= x < 0x1_0000

  /** `draw::DrawWH`: the size of the drawing area. */
  datatype DrawWH = DrawWH(w: real, h: real)

  /** `draw::XYWH`: a rectangle of the layout. */
  datatype XYWH = XYWH(x: real, y: real, w: real, h: real)

  /** `draw::Sizes`: the layout computed for a drawing area. */
  datatype Sizes = Sizes(drawWh: DrawWH, playXywh: XYWH, boardXywh: XYWH)

  /** `draw::SpriteKind`. */
  datatype SpriteKind = Arrow(dir: Dir, arrowKind: ArrowKind)

  /** What a text command displays: the decoded input, or the layout and
      the animation timer. */
  datatype TextShows = InputText(input: Input) | SizesText(sizes: Sizes, animationTimer: u16)

  /** `draw::Command`. A sprite is given by the tile it is drawn at; a text
      by what it displays. */
  datatype Command = Sprite(sprite: SpriteKind, tile: XY) | Text(shows: TextShows)

  /** The command sink `update` writes into (a `ClearableStorage`). */
  class CommandSink {
    var commands: seq<Command>

    constructor()
      ensures commands == []
    {
      commands := [];
    }

    /** `ClearableStorage::clear`. */
    method Clear()
      modifies this
      ensures commands == []
    {
      commands := [];
    }

    /** `ClearableStorage::push`: appends one command. */
    method Push(c: Command)
      modifies this
      ensures commands == old(commands) + [c]
    {
      commands := commands + [c];
    }
  }

  /** `ANIMATION_TIMER_LENGTH`: `60 * 60 * 18`, which fits a `u16`. */
  const ANIMATION_TIMER_LENGTH: u16 := 60 * 60 * 18

  /** The timer step at the end of `update`: increment, then back to 0 once
      the length is reached. The increment itself must not overflow. */
  function NextTimer(t: u16): (r: u16)
    requires t < 0xFFFF
    ensures r < ANIMATION_TIMER_LENGTH
    ensures t < ANIMATION_TIMER_LENGTH ==> r == (t + 1) % ANIMATION_TIMER_LENGTH
  {
    if t + 1 >= ANIMATION_TIMER_LENGTH then 0 else t + 1
  }

  /** The timer after `n` frames of a state that started at 0. */
  function TimerAfter(n: nat): (t: u16)
    ensures t < ANIMATION_TIMER_LENGTH
  {
    if n == 0 then 0 else NextTimer(TimerAfter(n - 1))
  }

  /** The timer counts frames modulo `ANIMATION_TIMER_LENGTH`. */
  lemma {:induction false} TimerAfterCounts(n: nat)
    ensures TimerAfter(n) == n % ANIMATION_TIMER_LENGTH
  {
    if n > 0 {
      TimerAfterCounts(n - 1);
      assert ANIMATION_TIMER_LENGTH == 64800;
    }
  }

  /** `TileData::sprite`. */
  function TileSprite(t: TileData): SpriteKind
  {
    Arrow(t.dir, t.arrowKind)
  }

  /** A tile's sprite keeps both of its fields: tiles that look alike are
      alike. */
  lemma TileSpriteInjective(t: TileData, u: TileData)
    requires TileSprite(t) == TileSprite(u)
    ensures t == u
  {
  }

  /** The sprite command for tile `k` of the board. */
  function TileCommand(t: TileData, k: usize): Command
  {
    Sprite(TileSprite(t), IToXy(k))
  }

  /** The sprite commands the tile loop of `update` pushes in its first `n`
      iterations. */
  function SpriteCommands(tiles: seq<TileData>, n: nat): (cs: seq<Command>)
    requires n <= |tiles| && n <= TILES_LENGTH
    ensures |cs| == n
  {
    if n == 0 then [] else SpriteCommands(tiles, n - 1) + [TileCommand(tiles[n - 1], n - 1)]
  }

  /** Command `k` of the tile loop is the sprite of tile `k`, drawn at the
      coordinates of index `k`. */
  lemma {:induction false} SpriteCommandsAt(tiles: seq<TileData>, n: nat, k: nat)
    requires n <= |tiles| && n <= TILES_LENGTH && k < n
    ensures SpriteCommands(tiles, n)[k] == Sprite(TileSprite(tiles[k]), IToXy(k))
  {
    if k < n - 1 {
      SpriteCommandsAt(tiles, n - 1, k);
    }
  }

  /** Everything `update` pushes in one frame, in order. */
  function FrameCommands(sizes: Sizes, tiles: seq<TileData>, input: Input, timer: u16): seq<Command>
    requires |tiles| == TILES_LENGTH
  {
    SpriteCommands(tiles, TILES_LENGTH) + [Text(InputText(input)), Text(SizesText(sizes, timer))]
  }

  /** A frame is exactly 256 sprites, the k-th from tile `k` at the
      coordinates of index `k`, then the input text, then the text with the
      sizes and the timer. */
  lemma FrameShape(sizes: Sizes, tiles: seq<TileData>, input: Input, timer: u16)
    requires |tiles| == TILES_LENGTH
    ensures var cs := FrameCommands(sizes, tiles, input, timer);
      |cs| == TILES_LENGTH + 2
      && (forall k :: 0 <= k < TILES_LENGTH ==> cs[k] == Sprite(TileSprite(tiles[k]), IToXy(k)))
      && cs[TILES_LENGTH] == Text(InputText(input))
      && cs[TILES_LENGTH + 1] == Text(SizesText(sizes, timer))
  {
    forall k | 0 <= k < TILES_LENGTH
      ensures FrameCommands(sizes, tiles, input, timer)[k] == Sprite(TileSprite(tiles[k]), IToXy(k))
    {
      SpriteCommandsAt(tiles, TILES_LENGTH, k);
    }
  }

  /** The layout `update` uses: recomputed with `fresh_sizes` when the drawing
      area changed, kept otherwise. */
  function NewSizes(sizes: Sizes, drawWh: DrawWH, freshSizes: DrawWH -> Sizes): Sizes
  {
    if drawWh != sizes.drawWh then freshSizes(drawWh) else sizes
  }

  /** `State`: the layout, the board and the animation timer. */
  class State {
    var sizes: Sizes
    var board: Board
    var animationTimer: u16

    /** What every state satisfies: a full board and a timer below its
        length. */
    predicate Valid()
      reads this
    {
      |board.tiles| == TILES_LENGTH && animationTimer < ANIMATION_TIMER_LENGTH
    }

    /** `State::from_seed`: the board from the seed, the default layout and
        the timer at 0. */
    constructor FromSeed(seed: Seed, defaultSizes: Sizes)
      ensures Valid()
      ensures sizes == defaultSizes && board == BoardOf(seed) && animationTimer == 0
    {
      var b := BoardFromSeed(seed);
      sizes := defaultSizes;
      board := b;
      animationTimer := 0;
    }
  }

  /** `update`: one frame. */
  method Update(state: State, commands: CommandSink, inputFlags: InputFlags, drawWh: DrawWH,
                freshSizes: DrawWH -> Sizes)
    requires state.Valid()
    modifies state, commands
    ensures state.Valid()
    ensures state.sizes == NewSizes(old(state.sizes), drawWh, freshSizes)
    ensures state.board == old(state.board)
    ensures state.animationTimer == NextTimer(old(state.animationTimer))
    ensures commands.commands
      == FrameCommands(state.sizes, state.board.tiles, FromFlags(inputFlags), old(state.animationTimer))
  {
    if drawWh != state.sizes.drawWh {
      state.sizes := freshSizes(drawWh);
    }

    commands.Clear();

    var input := FromFlags(inputFlags);

    ghost var before := state.sizes;
    for i := 0 to TILES_LENGTH
      invariant state.sizes == before && state.board == old(state.board)
      invariant state.animationTimer == old(state.animationTimer)
      invariant commands.commands == SpriteCommands(state.board.tiles, i)
    {
      var tileData := state.board.tiles[i];
      var txy := IToXy(i);
      commands.Push(Sprite(TileSprite(tileData), txy));
    }

    commands.Push(Text(InputText(input)));
    commands.Push(Text(SizesText(state.sizes, state.animationTimer)));

    state.animationTimer := state.animationTimer + 1;
    if state.animationTimer >= ANIMATION_TIMER_LENGTH {
      state.animationTimer := 0;
    }
  }
}
