/**
 * Board generation: every tile of the 16 x 16 board draws a direction and
 * then an arrow kind, tile after tile in index order, from a generator
 * seeded once from the board's seed.
 */
module Boards {
  import opened Rng
  import opened Pick

  /** `TILES_LENGTH`: one entry per tile of the grid, `XY::COUNT`. */
  const TILES_LENGTH: nat := 256

  /** `TileData`: what a tile shows. */
  datatype TileData = TileData(dir: Dir, arrowKind: ArrowKind)

  /** `TileData::default()`: both enums at their default variant. */
  const DEFAULT_TILE: TileData := TileData(Up, Red)

  /** `Board`: the generator as generation left it, and the tiles. */
  datatype Board = Board(rng: XsState, tiles: seq<TileData>)

  /** The tile `TileData::from_rng` draws from state `s`: the direction from
      the first draw, the arrow kind from the second. */
  function TileDataOf(s: XsState): TileData
  {
    TileData(DirOf(Output(s)), ArrowKindOf(Output(Step(s))))
  }

  /** `TileData::from_rng`: two draws, the direction first. */
  method TileDataFromRng(rng: array<bv32>) returns (t: TileData)
    requires rng.Length == 4
    modifies rng
    ensures rng[..] == Step(Step(old(rng[..])))
    ensures t == TileDataOf(old(rng[..]))
  {
    var dir := DirFromRng(rng);
    var arrowKind := ArrowKindFromRng(rng);
    t := TileData(dir, arrowKind);
  }

  /** The first `n` tiles the loop of `Tiles::from_rng` produces from state
      `s`: tile `k` is drawn after the `2k` draws of the tiles before it. */
  function TilesOf(s: XsState, n: nat): (t: seq<TileData>)
    ensures |t| == n
  {
    seq(n, k requires 0 <= k < n => TileDataOf(StepN(s, 2 * k)))
  }

  /** One more tile takes two more steps. */
  lemma StepNTwice(s: XsState, i: nat)
    ensures StepN(s, 2 * (i + 1)) == Step(Step(StepN(s, 2 * i)))
  {
    assert 2 * (i + 1) == 2 * i + 2;
  }

  /** One more tile appends the tile drawn after the tiles before it. */
  lemma TilesOfSnoc(s: XsState, n: nat)
    ensures TilesOf(s, n + 1) == TilesOf(s, n) + [TileDataOf(StepN(s, 2 * n))]
  {
    var l, r := TilesOf(s, n + 1), TilesOf(s, n) + [TileDataOf(StepN(s, 2 * n))];
    forall k | 0 <= k < n + 1
      ensures l[k] == r[k]
    {
      if k < n {
        assert r[k] == TilesOf(s, n)[k];
      }
    }
  }

  /** `Tiles::from_rng`: fills the 256 entries of a fresh array in index
      order, one `TileData::from_rng` each. */
  method TilesFromRng(rng: array<bv32>) returns (tiles: seq<TileData>)
    requires rng.Length == 4
    modifies rng
    ensures rng[..] == StepN(old(rng[..]), 2 * TILES_LENGTH)
    ensures tiles == TilesOf(old(rng[..]), TILES_LENGTH)
  {
    ghost var s0 := rng[..];
    var a := new TileData[TILES_LENGTH](_ => DEFAULT_TILE);
    var i := 0;
    while i < TILES_LENGTH
      invariant 0 <= i <= TILES_LENGTH
      invariant rng[..] == StepN(s0, 2 * i)
      invariant a[..i] == TilesOf(s0, i)
    {
      StepNTwice(s0, i);
      TilesOfSnoc(s0, i);
      var t := TileDataFromRng(rng);
      a[i] := t;
      assert a[..i + 1] == a[..i] + [t];
      i := i + 1;
    }
    tiles := a[..];
  }

  /** The board `Board::from_seed` builds from `seed`. */
  function BoardOf(seed: Seed): (b: Board)
    ensures |b.tiles| == TILES_LENGTH
  {
    var s := XsFromSeed(seed);
    Board(StepN(s, 2 * TILES_LENGTH), TilesOf(s, TILES_LENGTH))
  }

  /** `Board::from_seed`: seed a generator, then generate the tiles with it;
      the board keeps the generator. */
  method BoardFromSeed(seed: Seed) returns (b: Board)
    ensures b == BoardOf(seed)
  {
    var init := XsFromSeed(seed);
    var rng := new bv32[4](i requires 0 <= i < 4 => init[i]);
    assert rng[..] == init;
    var tiles := TilesFromRng(rng);
    b := Board(rng[..], tiles);
  }

  /** The board keeps the generator as it stands after all 512 draws, which
      is never all zero. */
  lemma BoardRngNonzero(seed: Seed)
    ensures BoardOf(seed).rng != ZERO_STATE
  {
    StepNKeepsNonzero(XsFromSeed(seed), 2 * TILES_LENGTH);
  }

  /** The all-zero seed builds the same board as the fallback seed. */
  lemma ZeroSeedBoard()
    ensures BoardOf(ZERO_SEED) == BoardOf(FALLBACK_SEED)
  {
    ZeroSeedRemap();
  }
}
