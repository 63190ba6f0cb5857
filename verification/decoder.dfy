/** The structural fields an LS8 opcode carries in its own bits: bits 7-6
    give the operand count, bit 5 marks an ALU operation, bit 4 marks an
    instruction that sets PC itself, bits 3-0 identify the instruction.
    The executor computes the fields with shifts and masks on whatever
    integer sits at PC; for a negative or over-wide integer the shift is a
    floor division, which is what Dafny's `/` by a positive constant is. */
module Decoder {

  datatype Fields = Fields(operands: int, isAlu: bool, setsPc: bool, id: int)

  /** `ir >> 6`, `(ir >> 5) & 1`, `(ir >> 4) & 1` and `ir & 0xF`. */
  function Decode(ir: int): (f: Fields)
    ensures 0 <= ir < 256 ==> 0 <= f.operands < 4
    ensures 0 <= f.id < 16
  {
    Fields(ir / 64, (ir / 32) % 2 == 1, (ir / 16) % 2 == 1, ir % 16)
  }

  /** The number of cells one instruction occupies when PC advances past it. */
  function Width(ir: int): int
  {
    Decode(ir).operands + 1
  }

  /** Fields that some byte carries. */
  predicate WellFormed(f: Fields)
  {
    0 <= f.operands < 4 && 0 <= f.id < 16
  }

  /** Assembles an opcode byte from its fields; the inverse of Decode. */
  function Encode(f: Fields): (ir: int)
    requires WellFormed(f)
    ensures 0 <= ir < 256
  {
    f.operands * 64 + (if f.isAlu then 32 else 0) + (if f.setsPc then 16 else 0) + f.id
  }

  lemma {:induction false} DecodeEncode(f: Fields)
    requires WellFormed(f)
    ensures Decode(Encode(f)) == f
  {
    var a := if f.isAlu then 1 else 0;
    var s := if f.setsPc then 1 else 0;
    var ir := Encode(f);
    assert ir == 16 * (4 * f.operands + 2 * a + s) + f.id;
    assert ir / 16 == 4 * f.operands + 2 * a + s;
    assert ir / 32 == 2 * f.operands + a;
    assert ir / 64 == f.operands;
  }

  lemma {:induction false} EncodeDecode(ir: int)
    requires 0 <= ir < 256
    ensures WellFormed(Decode(ir)) && Encode(Decode(ir)) == ir
  {
    var low := ir % 16;
    var q := ir / 16;
    assert ir == 16 * q + low;
    assert ir / 32 == q / 2;
    assert ir / 64 == q / 4;
    assert q == 4 * (q / 4) + 2 * ((q / 2) % 2) + q % 2;
  }
}
