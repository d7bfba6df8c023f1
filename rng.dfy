/**
 * The xorshift128 generator of Marsaglia ("Xorshift RNGs", 2003) as the game
 * uses it: four 32-bit words of state, updated in place by one step per draw,
 * a bounded draw, a shuffle, seed derivation and seeding from 16 bytes.
 *
 * The methods work on the state as an `array<bv32>` of length 4 (the Rust
 * `[Wrapping<u32>; 4]` passed by `&mut`); the functions are their
 * specification on the state's value, an `XsState`.
 */
module Rng {

  /** A Rust `u32` used as a number (bounds of a draw, a draw's result). */
  type u32 = x: int | 0 <= x < 0x1_0000_0000

  /** The value of the generator state: `[xs[0], xs[1], xs[2], xs[3]]`. */
  type XsState = s: seq<bv32> | |s| == 4 witness [1, 0, 0, 0]

  /** The 16 bytes of external entropy. */
  type Seed = s: seq<bv8> | |s| == 16 witness [0, 0, 0, 0, 0, 0, 0, 0, 0, 0, 0, 0, 0, 0, 0, 0]

  /** The degenerate state: a step maps it to itself. */
  const ZERO_STATE: XsState := [0, 0, 0, 0]

  /** The all-zero seed, which is never used as it stands. */
  const ZERO_SEED: Seed := [0, 0, 0, 0, 0, 0, 0, 0, 0, 0, 0, 0, 0, 0, 0, 0]

  // ---------------------------------------------------------------------------
  // One step of the recurrence
  // ---------------------------------------------------------------------------

  /** `t ^= t << 11` */
  function XorShl11(t: bv32): bv32
  {
    t ^ (t << 11)
  }

  /** `t ^= t >> 8` */
  function XorShr8(t: bv32): bv32
  {
    t ^ (t >> 8)
  }

  /** The new leading word from the mixed last word `t` and the old leading
      word `x`: `t ^ x ^ (x >> 19)`. */
  function NewLead(t: bv32, x: bv32): bv32
  {
    t ^ x ^ (x >> 19)
  }

  /** Undoes `XorShl11`: xoring in the shifts by 11 and 22 cancels the
      shifted copy, whose own shift by 33 falls off the word. */
  function UnXorShl11(u: bv32): bv32
  {
    u ^ (u << 11) ^ (u << 22)
  }

  /** Undoes `XorShr8` in the same way, with shifts by 8, 16 and 24. */
  function UnXorShr8(u: bv32): bv32
  {
    u ^ (u >> 8) ^ (u >> 16) ^ (u >> 24)
  }

  lemma XorShl11Bijective(t: bv32)
    ensures UnXorShl11(XorShl11(t)) == t
    ensures XorShl11(UnXorShl11(t)) == t
  {
    assert XorShl11(t) == t ^ (t << 11);
    assert UnXorShl11(t) == t ^ (t << 11) ^ (t << 22);
  }

  lemma XorShr8Bijective(t: bv32)
    ensures UnXorShr8(XorShr8(t)) == t
    ensures XorShr8(UnXorShr8(t)) == t
  {
    assert XorShr8(t) == t ^ (t >> 8);
    assert UnXorShr8(t) == t ^ (t >> 8) ^ (t >> 16) ^ (t >> 24);
  }

  /** Given the old leading word, the new one determines the mixed word. */
  lemma NewLeadInvolution(t: bv32, x: bv32)
    ensures NewLead(NewLead(t, x), x) == t
  {
    assert NewLead(t, x) == t ^ x ^ (x >> 19);
  }

  /** One xorshift128 step: the words move down one place and the new
      leading word mixes the old last word with the old leading word. */
  function Step(s: XsState): XsState
  {
    [NewLead(XorShr8(XorShl11(s[3])), s[0]), s[0], s[1], s[2]]
  }

  /** The word a step returns: the new leading word. */
  function Output(s: XsState): bv32
  {
    Step(s)[0]
  }

  /** `n` steps in a row. */
  function StepN(s: XsState, n: nat): XsState
    decreases n
  {
    if n == 0 then s else Step(StepN(s, n - 1))
  }

  /** The step run backwards: the old last word is recovered from the new
      leading word and the old leading word (now in place 1). */
  function Unstep(r: XsState): (s: XsState)
    ensures s[0] == r[1] && s[1] == r[2] && s[2] == r[3]
  {
    [r[1], r[2], r[3], UnXorShl11(UnXorShr8(NewLead(r[0], r[1])))]
  }

  /** The step is a bijection on states: no two states share a successor. */
  lemma StepBijective(s: XsState)
    ensures Unstep(Step(s)) == s
    ensures Step(Unstep(s)) == s
  {
    NewLeadInvolution(XorShr8(XorShl11(s[3])), s[0]);
    XorShr8Bijective(XorShl11(s[3]));
    XorShl11Bijective(s[3]);
    var u := NewLead(s[0], s[1]);
    NewLeadInvolution(s[0], s[1]);
    XorShr8Bijective(u);
    XorShl11Bijective(UnXorShr8(u));
  }

  /** The zero state is the one fixed point that matters: a non-zero state
      never steps to zero. */
  lemma StepKeepsNonzero(s: XsState)
    requires s != ZERO_STATE
    ensures Step(s) != ZERO_STATE
  {
    StepBijective(s);
    assert Step(ZERO_STATE) == ZERO_STATE;
    StepBijective(ZERO_STATE);
  }

  lemma {:induction false} StepNKeepsNonzero(s: XsState, n: nat)
    requires s != ZERO_STATE
    ensures StepN(s, n) != ZERO_STATE
    decreases n
  {
    if n > 0 {
      StepNKeepsNonzero(s, n - 1);
      StepKeepsNonzero(StepN(s, n - 1));
    }
  }

  /** `xorshift`: one step in place, returning the new leading word. */
  method Xorshift(xs: array<bv32>) returns (r: bv32)
    requires xs.Length == 4
    modifies xs
    ensures xs[1] == old(xs[0]) && xs[2] == old(xs[1]) && xs[3] == old(xs[2])
    ensures xs[..] == Step(old(xs[..]))
    ensures r == xs[0] && r == Output(old(xs[..]))
  {
    var t := xs[3];

    xs[3] := xs[2];
    xs[2] := xs[1];
    xs[1] := xs[0];

    t := XorShl11(t);
    t := XorShr8(t);
    xs[0] := NewLead(t, xs[0]);

    r := xs[0];
  }

  // ---------------------------------------------------------------------------
  // Bounded draws
  // ---------------------------------------------------------------------------

  /** A word read as the unsigned number it stands for. */
  function ValueOf(w: bv32): u32
  {
    w as int
  }

  /** The reduction `xs_u32` applies to a drawn word. The subtraction and the
      modulus are only defined when `min < onePastMax`. */
  function Reduce(w: bv32, min: u32, onePastMax: u32): (r: u32)
    requires min < onePastMax
    ensures min <= r < onePastMax
  {
    ValueOf(w) % (onePastMax - min) + min
  }

  /** `xs_u32`: one step, then the new word reduced into `[min, onePastMax)`. */
  method XsU32(xs: array<bv32>, min: u32, onePastMax: u32) returns (r: u32)
    requires xs.Length == 4
    requires min < onePastMax
    modifies xs
    ensures xs[..] == Step(old(xs[..]))
    ensures r == Reduce(xs[0], min, onePastMax)
    ensures min <= r < onePastMax
  {
    var w := Xorshift(xs);
    r := ValueOf(w) % (onePastMax - min) + min;
  }

  // ---------------------------------------------------------------------------
  // Shuffle
  // ---------------------------------------------------------------------------

  function Swap<A>(a: seq<A>, i: nat, j: nat): (r: seq<A>)
    requires i < |a| && j < |a|
    ensures |r| == |a|
  {
    a[i := a[j]][j := a[i]]
  }

  /** A swap is a permutation. */
  lemma SwapPermutes<A>(a: seq<A>, i: nat, j: nat)
    requires i < |a| && j < |a|
    ensures multiset(Swap(a, i, j)) == multiset(a)
  {
  }

  /** The position that the pass at index `i` swaps with index `i`, drawn
      from the generator in state `s`: never beyond `i`. */
  function SwapIndex(s: XsState, i: nat): (r: nat)
    requires i < 0xFFFF_FFFF
    ensures r <= i
  {
    Reduce(Output(s), 0, i + 1)
  }

  /** One pass of `xs_shuffle`, at index `i`: one draw, one swap. */
  function ShufflePass<A>(sa: (XsState, seq<A>), i: nat): (r: (XsState, seq<A>))
    requires i < |sa.1| && i < 0xFFFF_FFFF
    ensures |r.1| == |sa.1|
  {
    (Step(sa.0), Swap(sa.1, i, SwapIndex(sa.0, i)))
  }

  /** The state and slice after the passes of `xs_shuffle` at indices
      1, ..., k - 1, starting from generator state `s` and slice `a`. */
  function ShuffleUpTo<A>(s: XsState, a: seq<A>, k: nat): (r: (XsState, seq<A>))
    requires 1 <= k && (k == 1 || k <= |a|) && k < 0x1_0000_0000
    ensures |r.1| == |a|
    decreases k
  {
    if k == 1 then (s, a) else ShufflePass(ShuffleUpTo(s, a, k - 1), k - 1)
  }

  /** The shuffle only ever swaps: the result is a permutation of its input. */
  lemma {:induction false} ShuffleUpToPermutes<A>(s: XsState, a: seq<A>, k: nat)
    requires 1 <= k && (k == 1 || k <= |a|) && k < 0x1_0000_0000
    ensures multiset(ShuffleUpTo(s, a, k).1) == multiset(a)
    decreases k
  {
    if k > 1 {
      ShuffleUpToPermutes(s, a, k - 1);
      var prev := ShuffleUpTo(s, a, k - 1);
      var j := SwapIndex(prev.0, k - 1);
      assert ShuffleUpTo(s, a, k).1 == Swap(prev.1, k - 1, j);
      SwapPermutes(prev.1, k - 1, j);
    }
  }

  /** The shuffle consumes exactly one draw per pass. */
  lemma {:induction false} ShuffleUpToDraws<A>(s: XsState, a: seq<A>, k: nat)
    requires 1 <= k && (k == 1 || k <= |a|) && k < 0x1_0000_0000
    ensures ShuffleUpTo(s, a, k).0 == StepN(s, k - 1)
    decreases k
  {
    if k > 1 {
      ShuffleUpToDraws(s, a, k - 1);
    }
  }

  /** `slice::swap`: exchanges two elements in place. */
  method SliceSwap<A>(slice: array<A>, i: nat, j: nat)
    requires i < slice.Length && j < slice.Length
    modifies slice
    ensures slice[..] == Swap(old(slice[..]), i, j)
  {
    var tmp := slice[i];
    slice[i] := slice[j];
    slice[j] := tmp;
  }

  /** Where the loop of `xs_shuffle` stops: the exclusive end of the
      range `1..len as u32`, that is the length truncated to `u32`, with an
      empty range, `1..0`, ending where it starts. The passes run at
      indices `1, ..., LoopEnd(len) - 1`. */
  function LoopEnd(len: nat): (k: nat)
    ensures 1 <= k && k < 0x1_0000_0000
    ensures k == 1 || k <= len
    ensures len % 0x1_0000_0000 != 0 ==> k == len % 0x1_0000_0000
    ensures len < 0x1_0000_0000 ==> k - 1 == if len == 0 then 0 else len - 1
  {
    var n := len % 0x1_0000_0000;
    if n == 0 then 1 else n
  }

  /** What `xs_shuffle` leaves in the state and the slice. */
  function Shuffle<A>(s: XsState, a: seq<A>): (r: (XsState, seq<A>))
    ensures |r.1| == |a|
  {
    ShuffleUpTo(s, a, LoopEnd(|a|))
  }

  /** `xs_shuffle` permutes the slice and advances the generator once per pass. */
  lemma ShufflePermutes<A>(s: XsState, a: seq<A>)
    ensures multiset(Shuffle(s, a).1) == multiset(a)
    ensures Shuffle(s, a).0 == StepN(s, LoopEnd(|a|) - 1)
  {
    ShuffleUpToPermutes(s, a, LoopEnd(|a|));
    ShuffleUpToDraws(s, a, LoopEnd(|a|));
  }

  /** A slice shorter than 2^32 is shuffled in full: one pass, and so one
      draw, for every index but the first. */
  lemma ShuffleFullLength<A>(s: XsState, a: seq<A>)
    requires 1 <= |a| < 0x1_0000_0000
    ensures Shuffle(s, a).0 == StepN(s, |a| - 1)
  {
    ShufflePermutes(s, a);
  }

  /** The body of the `xs_shuffle` loop at index `i`. */
  method ShuffleStep<A>(rng: array<bv32>, slice: array<A>, i: nat)
    requires rng.Length == 4 && i < slice.Length && i < 0xFFFF_FFFF
    requires rng as object != slice as object
    modifies rng, slice
    ensures (rng[..], slice[..]) == ShufflePass((old(rng[..]), old(slice[..])), i)
  {
    var r := XsU32(rng, 0, i + 1);
    SliceSwap(slice, i, r);
  }

  /** `xs_shuffle`: for `i` from 1 below `slice.len() as u32`, swap index
      `i` with a draw from `[0, i + 1)`. The `as u32` cast truncates, so a
      slice of 2^32 elements or more is shuffled only in its first
      `len mod 2^32` places. */
  method XsShuffle<A>(rng: array<bv32>, slice: array<A>)
    requires rng.Length == 4
    requires rng as object != slice as object
    modifies rng, slice
    ensures (rng[..], slice[..]) == Shuffle(old(rng[..]), old(slice[..]))
  {
    ghost var s0, a0 := rng[..], slice[..];
    var n := slice.Length % 0x1_0000_0000;
    var i := 1;
    while i < n
      invariant 1 <= i && (i == 1 || i <= n)
      invariant (rng[..], slice[..]) == ShuffleUpTo(s0, a0, i)
    {
      ShuffleStep(rng, slice, i);
      i := i + 1;
    }
    assert i == LoopEnd(slice.Length);
  }

  // ---------------------------------------------------------------------------
  // Little-endian bytes, new_seed and xs_from_seed
  // ---------------------------------------------------------------------------

  /** `u32::to_le_bytes`. */
  function LeBytes(w: bv32): (b: seq<bv8>)
    ensures |b| == 4
    ensures w == b[0] as bv32 + 0x100 * b[1] as bv32 + 0x1_0000 * b[2] as bv32 + 0x100_0000 * b[3] as bv32
  {
    [(w & 0xFF) as bv8, ((w >> 8) & 0xFF) as bv8, ((w >> 16) & 0xFF) as bv8, (w >> 24) as bv8]
  }

  /** `u32::from_le_bytes`. */
  function FromLeBytes(b0: bv8, b1: bv8, b2: bv8, b3: bv8): (w: bv32)
    ensures w == b0 as bv32 + 0x100 * b1 as bv32 + 0x1_0000 * b2 as bv32 + 0x100_0000 * b3 as bv32
  {
    (b0 as bv32) | ((b1 as bv32) << 8) | ((b2 as bv32) << 16) | ((b3 as bv32) << 24)
  }

  /** Reading back the bytes of a word gives the word. */
  lemma FromLeBytesOfLeBytes(w: bv32)
    ensures FromLeBytes(LeBytes(w)[0], LeBytes(w)[1], LeBytes(w)[2], LeBytes(w)[3]) == w
  {
    var b := LeBytes(w);
    assert b == [(w & 0xFF) as bv8, ((w >> 8) & 0xFF) as bv8, ((w >> 16) & 0xFF) as bv8, (w >> 24) as bv8];
  }

  /** Writing out the word read from four bytes gives those bytes. */
  lemma LeBytesOfFromLeBytes(b0: bv8, b1: bv8, b2: bv8, b3: bv8)
    ensures LeBytes(FromLeBytes(b0, b1, b2, b3)) == [b0, b1, b2, b3]
  {
    var w := FromLeBytes(b0, b1, b2, b3);
    assert w == (b0 as bv32) | ((b1 as bv32) << 8) | ((b2 as bv32) << 16) | ((b3 as bv32) << 24);
  }

  /** The two byte conversions are inverse to each other. */
  lemma LeBytesRoundTrip(w: bv32, b0: bv8, b1: bv8, b2: bv8, b3: bv8)
    ensures FromLeBytes(LeBytes(w)[0], LeBytes(w)[1], LeBytes(w)[2], LeBytes(w)[3]) == w
    ensures LeBytes(FromLeBytes(b0, b1, b2, b3)) == [b0, b1, b2, b3]
  {
    FromLeBytesOfLeBytes(w);
    LeBytesOfFromLeBytes(b0, b1, b2, b3);
  }

  /** A word read from bytes is zero exactly when every byte is. */
  lemma FromLeBytesZero(b0: bv8, b1: bv8, b2: bv8, b3: bv8)
    ensures FromLeBytes(b0, b1, b2, b3) == 0 <==> b0 == 0 && b1 == 0 && b2 == 0 && b3 == 0
  {
  }

  /** `0xBAD_5EED_u128.to_le_bytes()`, the seed used instead of all zeros.
      The constant is below 2^32, so its sixteen little-endian bytes are the
      four of the `u32` 0x0BAD_5EED followed by twelve zero bytes. */
  const FALLBACK_SEED: Seed := LeBytes(0x0BAD_5EED) + [0, 0, 0, 0, 0, 0, 0, 0, 0, 0, 0, 0]

  lemma FallbackSeedBytes()
    ensures FALLBACK_SEED == [0xED, 0x5E, 0xAD, 0x0B, 0, 0, 0, 0, 0, 0, 0, 0, 0, 0, 0, 0]
  {
  }

  /** The four words `xs_from_seed` reads from the seed it settles on. */
  function WordsOf(b: Seed): XsState
  {
    [FromLeBytes(b[0], b[1], b[2], b[3]),
     FromLeBytes(b[4], b[5], b[6], b[7]),
     FromLeBytes(b[8], b[9], b[10], b[11]),
     FromLeBytes(b[12], b[13], b[14], b[15])]
  }

  /** `xs_from_seed`: the all-zero seed is replaced by `FALLBACK_SEED`, then
      each group of four bytes is one word, little-endian. Seeding never
      produces the degenerate all-zero state. */
  function XsFromSeed(seed: Seed): (r: XsState)
    ensures r != ZERO_STATE
  {
    var b := if seed == ZERO_SEED then FALLBACK_SEED else seed;
    FallbackSeedBytes();
    assert FALLBACK_SEED[0] != ZERO_SEED[0];
    WordsOfNonzero(b);
    WordsOf(b)
  }

  /** Reading words from bytes loses nothing: a non-zero seed gives a
      non-zero state. */
  lemma {:induction false} WordsOfNonzero(b: Seed)
    requires b != ZERO_SEED
    ensures WordsOf(b) != ZERO_STATE
  {
    var k :| 0 <= k < 16 && b[k] != 0;
    var q := k / 4 * 4;
    FromLeBytesZero(b[q], b[q + 1], b[q + 2], b[q + 3]);
    assert WordsOf(b)[k / 4] != 0;
  }

  /** The all-zero seed seeds the generator exactly as the little-endian
      bytes of `0xBAD5EED` do. */
  lemma {:induction false} ZeroSeedRemap()
    ensures XsFromSeed(ZERO_SEED) == XsFromSeed(FALLBACK_SEED)
    ensures XsFromSeed(ZERO_SEED) == [0x0BAD_5EED, 0, 0, 0]
  {
    FallbackSeedBytes();
    assert FALLBACK_SEED[0] != ZERO_SEED[0];
  }

  /** The seed `new_seed` derives from state `s`: the little-endian bytes of
      the four words the next four steps return, in the order drawn. */
  function NewSeedBytes(s: XsState): Seed
  {
    LeBytes(StepN(s, 1)[0]) + LeBytes(StepN(s, 2)[0]) + LeBytes(StepN(s, 3)[0]) + LeBytes(StepN(s, 4)[0])
  }

  /** `new_seed`: four draws, each written out as four little-endian bytes. */
  method NewSeed(rng: array<bv32>) returns (seed: Seed)
    requires rng.Length == 4
    modifies rng
    ensures seed == NewSeedBytes(old(rng[..]))
    ensures rng[..] == StepN(old(rng[..]), 4)
  {
    ghost var s := rng[..];
    var w0 := Xorshift(rng);
    var w1 := Xorshift(rng);
    var w2 := Xorshift(rng);
    var w3 := Xorshift(rng);
    var s0, s1, s2, s3 := LeBytes(w0), LeBytes(w1), LeBytes(w2), LeBytes(w3);
    seed := s0 + s1 + s2 + s3;
  }

  /** A seed drawn with `new_seed` from a non-zero state seeds a generator
      with the four drawn words, in the order drawn; that is the drawing
      generator's own new state with its words in reverse order. */
  lemma {:induction false} NewSeedRoundTrip(s: XsState)
    requires s != ZERO_STATE
    ensures XsFromSeed(NewSeedBytes(s)) == [StepN(s, 1)[0], StepN(s, 2)[0], StepN(s, 3)[0], StepN(s, 4)[0]]
    ensures XsFromSeed(NewSeedBytes(s)) == [StepN(s, 4)[3], StepN(s, 4)[2], StepN(s, 4)[1], StepN(s, 4)[0]]
  {
    var b := NewSeedBytes(s);
    var w := [StepN(s, 1)[0], StepN(s, 2)[0], StepN(s, 3)[0], StepN(s, 4)[0]];
    FromLeBytesOfLeBytes(w[0]);
    FromLeBytesOfLeBytes(w[1]);
    FromLeBytesOfLeBytes(w[2]);
    FromLeBytesOfLeBytes(w[3]);
    assert WordsOf(b) == w;
    StepNKeepsNonzero(s, 4);
    assert StepN(s, 4) == [w[3], w[2], w[1], w[0]];
    FromLeBytesZero(0, 0, 0, 0);
    assert WordsOf(ZERO_SEED) == ZERO_STATE;
  }
}
