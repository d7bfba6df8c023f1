/**
 * The two closed enums the game draws at random, `ArrowKind` and `Dir`, each
 * with its fixed `ALL` array, its `COUNT` and `from_rng`, which indexes `ALL`
 * with `xs_u32(rng, 0, ALL.len())`.
 */
module Pick {
  import opened Rng

  datatype ArrowKind = Red | Green

  datatype Dir = Up | UpRight | Right | DownRight | Down | DownLeft | Left | UpLeft

  /** `ArrowKind::COUNT`: one per variant. */
  const ARROW_KIND_COUNT: nat := 2

  /** `ArrowKind::ALL`: the variants in declaration order. */
  const ARROW_KIND_ALL: seq<ArrowKind> := [Red, Green]

  /** `Dir::COUNT`: one per variant. */
  const DIR_COUNT: nat := 8

  /** `Dir::ALL`: the variants in declaration order. */
  const DIR_ALL: seq<Dir> := [Up, UpRight, Right, DownRight, Down, DownLeft, Left, UpLeft]

  /** The position of a variant in declaration order. */
  function ArrowKindIndex(k: ArrowKind): nat
  {
    match k
    case Red => 0
    case Green => 1
  }

  /** The position of a variant in declaration order. */
  function DirIndex(d: Dir): nat
  {
    match d
    case Up => 0
    case UpRight => 1
    case Right => 2
    case DownRight => 3
    case Down => 4
    case DownLeft => 5
    case Left => 6
    case UpLeft => 7
  }

  /** `ALL` holds exactly `COUNT` entries, each variant once, at its own
      position. */
  lemma ArrowKindAll()
    ensures |ARROW_KIND_ALL| == ARROW_KIND_COUNT
    ensures forall k: ArrowKind :: ArrowKindIndex(k) < ARROW_KIND_COUNT && ARROW_KIND_ALL[ArrowKindIndex(k)] == k
    ensures forall i :: 0 <= i < ARROW_KIND_COUNT ==> ArrowKindIndex(ARROW_KIND_ALL[i]) == i
  {
  }

  /** `ALL` holds exactly `COUNT` entries, each variant once, at its own
      position. */
  lemma DirAll()
    ensures |DIR_ALL| == DIR_COUNT
    ensures forall d: Dir :: DirIndex(d) < DIR_COUNT && DIR_ALL[DirIndex(d)] == d
    ensures forall i :: 0 <= i < DIR_COUNT ==> DirIndex(DIR_ALL[i]) == i
  {
  }

  /** The entry of `all` that the drawn word `w` selects. */
  function Choose<T>(all: seq<T>, w: bv32): (r: T)
    requires 0 < |all| < 0x1_0000_0000
    ensures r in all
  {
    all[Reduce(w, 0, |all|)]
  }

  /** What `ArrowKind::from_rng` returns from the word it draws:
      `Choose(ARROW_KIND_ALL, w)`, with the table's length written out. */
  function ArrowKindOf(w: bv32): (r: ArrowKind)
    ensures r in ARROW_KIND_ALL
    ensures ArrowKindIndex(r) == ValueOf(w) % 2
  {
    ARROW_KIND_ALL[Reduce(w, 0, 2)]
  }

  /** What `Dir::from_rng` returns from the word it draws:
      `Choose(DIR_ALL, w)`, with the table's length written out. */
  function DirOf(w: bv32): (r: Dir)
    ensures r in DIR_ALL
    ensures DirIndex(r) == ValueOf(w) % 8
  {
    DIR_ALL[Reduce(w, 0, 8)]
  }

  /** The two draws are `Choose` on their tables. */
  lemma OfIsChoose(w: bv32)
    ensures ArrowKindOf(w) == Choose(ARROW_KIND_ALL, w)
    ensures DirOf(w) == Choose(DIR_ALL, w)
  {
  }

  /** Every arrow kind can be drawn: the word `k` yields variant `k`. */
  lemma ArrowKindReachable(k: ArrowKind)
    ensures ArrowKindOf(ArrowKindIndex(k) as bv32) == k
  {
    match k
    case Red => assert ValueOf(0) == 0;
    case Green => assert ValueOf(1) == 1;
  }

  /** Every direction can be drawn: the word `k` yields variant `k`. */
  lemma DirReachable(d: Dir)
    ensures DirOf(DirIndex(d) as bv32) == d
  {
    match d
    case Up => assert ValueOf(0) == 0;
    case UpRight => assert ValueOf(1) == 1;
    case Right => assert ValueOf(2) == 2;
    case DownRight => assert ValueOf(3) == 3;
    case Down => assert ValueOf(4) == 4;
    case DownLeft => assert ValueOf(5) == 5;
    case Left => assert ValueOf(6) == 6;
    case UpLeft => assert ValueOf(7) == 7;
  }

  /** `ArrowKind::from_rng`: one bounded draw in `[0, COUNT)`, used as an
      index into `ALL`. */
  method ArrowKindFromRng(rng: array<bv32>) returns (k: ArrowKind)
    requires rng.Length == 4
    modifies rng
    ensures rng[..] == Step(old(rng[..]))
    ensures k == ArrowKindOf(Output(old(rng[..])))
  {
    var i := XsU32(rng, 0, |ARROW_KIND_ALL|);
    k := ARROW_KIND_ALL[i];
  }

  /** `Dir::from_rng`: one bounded draw in `[0, COUNT)`, used as an index
      into `ALL`. */
  method DirFromRng(rng: array<bv32>) returns (d: Dir)
    requires rng.Length == 4
    modifies rng
    ensures rng[..] == Step(old(rng[..]))
    ensures d == DirOf(Output(old(rng[..])))
  {
    var i := XsU32(rng, 0, |DIR_ALL|);
    d := DIR_ALL[i];
  }
}
