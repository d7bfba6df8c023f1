/**
 * Decoding the 16-bit input flag word the platform layer passes to `update`
 * into the one input the frame acts on.
 */
module InputDecode {

  /** `InputFlags`, a Rust `u16` bit set. Bits 0 to 3 say a direction key
      was pressed this frame, bits 4 to 7 that it is held down, bit 8 that
      the interact key was pressed. */
  type InputFlags = bv16

  const INPUT_UP_PRESSED: InputFlags := 0x0001
  const INPUT_DOWN_PRESSED: InputFlags := 0x0002
  const INPUT_LEFT_PRESSED: InputFlags := 0x0004
  const INPUT_RIGHT_PRESSED: InputFlags := 0x0008

  const INPUT_UP_DOWN: InputFlags := 0x0010
  const INPUT_DOWN_DOWN: InputFlags := 0x0020
  const INPUT_LEFT_DOWN: InputFlags := 0x0040
  const INPUT_RIGHT_DOWN: InputFlags := 0x0080

  const INPUT_INTERACT_PRESSED: InputFlags := 0x0100

  /** The bits `from_flags` reads: bits 4 to 8. */
  const DECODED_BITS: InputFlags := 0x01F0

  datatype Input = NoChange | Up | Down | Left | Right | Interact

  /** Whether the bit `flag` is set in `flags`. */
  predicate Has(flags: InputFlags, flag: InputFlags)
  {
    flag & flags != 0
  }

  /** `Input::from_flags`: interact wins over everything; otherwise the first
      held direction in the order up, down, left, right; otherwise nothing. */
  function FromFlags(flags: InputFlags): (r: Input)
    ensures r == Interact <==> Has(flags, INPUT_INTERACT_PRESSED)
    ensures r == Up <==> !Has(flags, INPUT_INTERACT_PRESSED) && Has(flags, INPUT_UP_DOWN)
    ensures r == Down <==> !Has(flags, INPUT_INTERACT_PRESSED) && !Has(flags, INPUT_UP_DOWN)
                           && Has(flags, INPUT_DOWN_DOWN)
    ensures r == Left <==> !Has(flags, INPUT_INTERACT_PRESSED) && !Has(flags, INPUT_UP_DOWN)
                           && !Has(flags, INPUT_DOWN_DOWN) && Has(flags, INPUT_LEFT_DOWN)
    ensures r == Right <==> !Has(flags, INPUT_INTERACT_PRESSED) && !Has(flags, INPUT_UP_DOWN)
                            && !Has(flags, INPUT_DOWN_DOWN) && !Has(flags, INPUT_LEFT_DOWN)
                            && Has(flags, INPUT_RIGHT_DOWN)
    ensures r == NoChange <==> flags & DECODED_BITS == 0
  {
    if Has(flags, INPUT_INTERACT_PRESSED) then Interact
    else if Has(flags, INPUT_UP_DOWN) then Up
    else if Has(flags, INPUT_DOWN_DOWN) then Down
    else if Has(flags, INPUT_LEFT_DOWN) then Left
    else if Has(flags, INPUT_RIGHT_DOWN) then Right
    else NoChange
  }

  /** The decision table of `from_flags`, highest priority first. */
  const PRIORITY: seq<(InputFlags, Input)> := [
    (INPUT_INTERACT_PRESSED, Interact),
    (INPUT_UP_DOWN, Up),
    (INPUT_DOWN_DOWN, Down),
    (INPUT_LEFT_DOWN, Left),
    (INPUT_RIGHT_DOWN, Right)
  ]

  /** The input of the first table row whose bit is set, or `NoChange`. */
  function FirstSet(flags: InputFlags, table: seq<(InputFlags, Input)>): Input
    decreases |table|
  {
    if table == [] then NoChange
    else if Has(flags, table[0].0) then table[0].1
    else FirstSet(flags, table[1..])
  }

  /** `from_flags` is the first-match reading of its decision table. */
  lemma FromFlagsIsFirstSet(flags: InputFlags)
    ensures FromFlags(flags) == FirstSet(flags, PRIORITY)
  {
    var t4 := [(INPUT_RIGHT_DOWN, Right)];
    var t3 := [(INPUT_LEFT_DOWN, Left)] + t4;
    var t2 := [(INPUT_DOWN_DOWN, Down)] + t3;
    var t1 := [(INPUT_UP_DOWN, Up)] + t2;
    assert PRIORITY == [(INPUT_INTERACT_PRESSED, Interact)] + t1;
    assert t4[1..] == [] && t3[1..] == t4 && t2[1..] == t3 && t1[1..] == t2 && PRIORITY[1..] == t1;
    assert FirstSet(flags, t4) == if Has(flags, INPUT_RIGHT_DOWN) then Right else NoChange;
    assert FirstSet(flags, t3) == if Has(flags, INPUT_LEFT_DOWN) then Left else FirstSet(flags, t4);
    assert FirstSet(flags, t2) == if Has(flags, INPUT_DOWN_DOWN) then Down else FirstSet(flags, t3);
    assert FirstSet(flags, t1) == if Has(flags, INPUT_UP_DOWN) then Up else FirstSet(flags, t2);
  }

  /** Only bits 4 to 8 matter: the pressed bits 0 to 3 and the unused bits
      9 to 15 never change the result. */
  lemma FromFlagsReadsDecodedBits(flags: InputFlags)
    ensures FromFlags(flags) == FromFlags(flags & DECODED_BITS)
  {
  }

  /** In particular, pressing a direction key without holding it decodes to
      nothing. */
  lemma PressedBitsIgnored(flags: InputFlags)
    requires flags & !0x000F == 0
    ensures FromFlags(flags) == NoChange
  {
  }
}
