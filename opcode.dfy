/** The 16-bit instruction word: how it is assembled from two memory bytes,
    how it splits into four nibbles, and which instruction it selects. */
module Opcode {
  import opened Bits

  /** `uint8_t`: one register or one memory cell. */
  type Byte = b: int | 0 <= b < 0x100

  /** `uint16_t`: one instruction word. */
  type Word = w: int | 0 <= w < 0x1_0000

  /** A four-bit field of an instruction word. */
  type Nibble = n: int | 0 <= n < 0x10

  /** The opcode read from a high byte and the byte after it:
      `(op_byte1 << 8) | op_byte2`, so the word is big-endian. */
  function Combine(hi: Byte, lo: Byte): (op: Word)
    ensures op == hi * 0x100 + lo
  {
    assert Pow2(8) == 0x100;
    OrDisjoint(hi, lo, 8);
    Or(ShiftLeft(hi, 8), lo)
  }

  /** The bytes of a word come back out of Combine unchanged, and every word
      is the combination of its two bytes. */
  lemma CombineInjective(hi: Byte, lo: Byte, hi': Byte, lo': Byte)
    requires Combine(hi, lo) == Combine(hi', lo')
    ensures hi == hi' && lo == lo'
  {
  }

  lemma CombineSurjective(op: Word)
    ensures Combine(op / 0x100, op % 0x100) == op
  {
  }

  /** The four nibbles of an opcode: `c` (bits 12-15), `x` (bits 8-11),
      `y` (bits 4-7) and `d` (bits 0-3). */
  datatype Fields = Fields(c: Nibble, x: Nibble, y: Nibble, d: Nibble)

  /** The base-16 digits of a word, most significant first. */
  function Digits(op: Word): Fields
  {
    Fields(op / 0x1000, op / 0x100 % 0x10, op / 0x10 % 0x10, op % 0x10)
  }

  /** The opcode with the given nibbles. */
  function Encode(f: Fields): Word
  {
    f.c * 0x1000 + f.x * 0x100 + f.y * 0x10 + f.d
  }

  /** Digits and Encode are inverse to each other, in both directions. */
  lemma DigitsEncode(f: Fields)
    ensures Digits(Encode(f)) == f
  {
    NibbleDigits(f, Encode(f));
  }

  lemma EncodeDigits(op: Word)
    ensures Encode(Digits(op)) == op
  {
    var hi, lo := op / 0x100, op % 0x100;
    DivModUnique(op, 0x1000, hi / 0x10, hi % 0x10 * 0x100 + lo);
    DivModUnique(op, 0x10, hi * 0x10 + lo / 0x10, lo % 0x10);
    DivModUnique(op / 0x10, 0x10, hi, lo / 0x10);
  }

  /** Nibbles that add up to a word are its base-16 digits. */
  lemma NibbleDigits(f: Fields, op: Word)
    requires f.c * 0x1000 + f.x * 0x100 + f.y * 0x10 + f.d == op
    ensures Digits(op) == f
  {
    DivModUnique(op, 0x1000, f.c, f.x * 0x100 + f.y * 0x10 + f.d);
    DivModUnique(op, 0x100, f.c * 0x10 + f.x, f.y * 0x10 + f.d);
    DivModUnique(f.c * 0x10 + f.x, 0x10, f.c, f.x);
    DivModUnique(op, 0x10, f.c * 0x100 + f.x * 0x10 + f.y, f.d);
    DivModUnique(f.c * 0x100 + f.x * 0x10 + f.y, 0x10, f.c * 0x10 + f.x, f.y);
  }

  /** The mask-and-shift decoding of the run loop:
      `c = (op & 0xF000) >> 12`, `x = (op & 0x0F00) >> 8`,
      `y = (op & 0x00F0) >> 4`, `d = op & 0x000F`.
      Each field is a nibble, and together they are the digits of op. */
  function Decode(op: Word): (f: Fields)
    ensures f.c * 0x1000 + f.x * 0x100 + f.y * 0x10 + f.d == op
    ensures f == Digits(op)
  {
    DecodeSplits(op);
    var f := Fields(ShiftRight(And(op, 0xF000), 12), ShiftRight(And(op, 0x0F00), 8),
                    ShiftRight(And(op, 0x00F0), 4), And(op, 0x000F));
    NibbleDigits(f, op);
    f
  }

  /** The four masked fields are nibbles that add back up to the opcode. */
  lemma DecodeSplits(op: Word)
    ensures var c, x, y, d := ShiftRight(And(op, 0xF000), 12), ShiftRight(And(op, 0x0F00), 8),
                             ShiftRight(And(op, 0x00F0), 4), And(op, 0x000F);
      c < 0x10 && x < 0x10 && y < 0x10 && d < 0x10 &&
      c * 0x1000 + x * 0x100 + y * 0x10 + d == op
  {
    assert Pow2(4) == 0x10 && Pow2(8) == 0x100 && Pow2(12) == 0x1000 && Pow2(16) == 0x1_0000;
    AndLowMask(op, 4);
    SplitAt(op, 4);
    var s4, s8, s12 := ShiftRight(op, 4), ShiftRight(op, 8), ShiftRight(op, 12);
    NibbleAt(op, 4);
    SplitAt(s4, 4);
    ShiftShift(op, 4, 4);
    NibbleAt(op, 8);
    SplitAt(s8, 4);
    ShiftShift(op, 8, 4);
    NibbleAt(op, 12);
    SplitAt(s12, 4);
    ShiftShift(op, 12, 4);
    ShiftRightSmall(op, 16);
  }

  /** What the dispatch of the run loop does with an opcode. */
  datatype Instruction =
    | Halt                          // 0x0000
    | Add(x: Nibble, y: Nibble)     // 0x8XY4
    | Unhandled                     // everything else: reported, then skipped

  /** The dispatch chain of the run loop on the decoded fields: HALT is tested
      first, then 8XY4, and everything else is unhandled. */
  function Classify(f: Fields): (i: Instruction)
    ensures i == Halt <==> f == Fields(0, 0, 0, 0)
    ensures i.Add? <==> f.c == 8 && f.d == 4
    ensures i.Add? ==> i.x == f.x && i.y == f.y
  {
    if f.c == 0 && f.x == 0 && f.y == 0 && f.d == 0 then Halt
    else if f.c == 0x8 && f.d == 0x4 then Add(f.x, f.y)
    else Unhandled
  }

  /** The instruction an opcode selects: the dispatch chain applied to its
      digits. Only the word 0x0000 halts. */
  function Dispatch(op: Word): (i: Instruction)
    ensures i == Halt <==> op == 0
  {
    if op == 0 then Classify(Digits(op))
    else
      EncodeDigits(op);
      Classify(Digits(op))
  }

  /** HALT is exactly the word 0x0000, ADD Vx,Vy is every word 8XY4 with x
      and y its middle digits, and every other word is unhandled. */
  lemma DispatchCases(op: Word)
    ensures Dispatch(op) == Halt <==> op == 0
    ensures Dispatch(op).Add? <==> op / 0x1000 == 8 && op % 0x10 == 4
    ensures Dispatch(op).Add? ==>
      Dispatch(op).x == op / 0x100 % 0x10 && Dispatch(op).y == op / 0x10 % 0x10
  {
    if op != 0 {
      EncodeDigits(op);
    }
  }

  /** Every 8XY4 opcode adds, whatever registers it names. */
  lemma ClassifyAddAnyRegisters(x: Nibble, y: Nibble)
    ensures Classify(Digits(Encode(Fields(8, x, y, 4)))) == Add(x, y)
  {
    DigitsEncode(Fields(8, x, y, 4));
  }
}
