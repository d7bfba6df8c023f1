/**
 * The 16 x 16 tile grid: coordinates, and the row-major conversion between
 * a coordinate pair and a tile index.
 */
module Tile {

  /** `tile::Coord`, a Rust `u8`. */
  type Coord = x: int | 0 <= x < 0x100

  /** `tile::Count`, a Rust `u32`. */
  type Count = x: int | 0 <= x < 0x1_0000_0000

  /** A Rust `usize` on a 64-bit target. */
  type usize = x: int | 0 <= x < 0x1_0000_0000_0000_0000

  /** `X::MAX` and `Y::MAX`: `0b1111`. The grid's side, `X::COUNT` and
      `Y::COUNT`, is `MAX + 1 == 16`, and `XY::COUNT` is `16 * 16 == 256`;
      the functions below write these two numbers out. */
  const MAX: Coord := 15

  /** `tile::XY`; `X` and `Y` wrap a `Coord` each. */
  datatype XY = XY(x: Coord, y: Coord)

  /** A coordinate pair that lies on the grid. */
  predicate OnGrid(xy: XY)
  {
    xy.x <= MAX && xy.y <= MAX
  }

  /** `to_coord_or_default`: the `u32` as a `u8` when it fits, else `0`. */
  function ToCoordOrDefault(n: Count): Coord
  {
    if n < 0x100 then n else 0
  }

  /** `xy_to_i_usize`: row `y`, column `x`, rows of 16 tiles. The sum
      must not overflow `usize`. */
  function XyToIUsize(x: usize, y: usize): (i: usize)
    requires y * 16 + x < 0x1_0000_0000_0000_0000
    ensures x < 16 ==> i % 16 == x && i / 16 == y
  {
    y * 16 + x
  }

  /** `xy_to_i`: the index of a tile's coordinates. */
  function XyToI(xy: XY): (i: usize)
    ensures OnGrid(xy) ==> i < 256
  {
    XyToIUsize(xy.x, xy.y)
  }

  /** `i_to_xy`: column `index % 16`, row `(index % 256) / 16`. Both
      are below `0x100`, so the default of `to_coord_or_default` is never
      taken and the result is always on the grid. */
  function IToXy(index: usize): (xy: XY)
    ensures OnGrid(xy)
    ensures xy.x == index % 16 && xy.y == (index % 256) / 16
  {
    XY(ToCoordOrDefault(index % 16), ToCoordOrDefault((index % 256) / 16))
  }

  /** Division by 16 undoes `q * 16 + r` for a remainder `r < 16`, and
      likewise for 256. */
  lemma DivModUnique(n: int, d: int, q: int, r: int)
    requires d == 16 || d == 256
    requires 0 <= r < d && n == q * d + r
    ensures n % d == r && n / d == q
  {
    if d == 16 {
      assert n == q * 16 + r;
    } else {
      assert n == q * 256 + r;
    }
  }

  /** Every tile index maps to coordinates that map back to it. */
  lemma IndexRoundTrip(i: usize)
    requires i < 256
    ensures XyToI(IToXy(i)) == i
  {
    DivModUnique(i, 256, 0, i);
    DivModUnique(i, 16, i / 16, i % 16);
  }

  /** Every coordinate pair on the grid maps to an index that maps back to it. */
  lemma CoordRoundTrip(xy: XY)
    requires OnGrid(xy)
    ensures IToXy(XyToI(xy)) == xy
  {
    var i := xy.y * 16 + xy.x;
    DivModUnique(i, 256, 0, i);
    DivModUnique(i, 16, xy.y, xy.x);
  }

  /** `i_to_xy` only looks at the index modulo the number of tiles. */
  lemma IToXyPeriodic(i: usize)
    ensures IToXy(i) == IToXy(i % 256)
  {
    var a, b := i / 256, i % 256;
    var c, d := b / 16, b % 16;
    DivModUnique(i, 16, a * 16 + c, d);
    DivModUnique(b, 256, 0, b);
  }

  /** Distinct tile indices have distinct coordinates. */
  lemma IToXyInjective(i: usize, j: usize)
    requires i < 256 && j < 256 && IToXy(i) == IToXy(j)
    ensures i == j
  {
    IndexRoundTrip(i);
    IndexRoundTrip(j);
  }
}
