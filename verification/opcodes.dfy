/** The instruction set the LS8 executor's branch table knows: one opcode
    byte per instruction, and the table that maps a fetched byte back to its
    instruction. Bytes outside the table are unsupported operations. */
module Opcodes {
  import opened Indexing
  import opened Decoder

  datatype AluOp = Add | Sub | Mul | Div

  datatype Op =
    | Call | Hlt | Iret | Jmp | Ldi | Pop | Pra | Prn | Push | Ret | St
    | Alu(aluOp: AluOp)

  /** The opcode byte assigned to each instruction. */
  function Code(op: Op): (ir: int)
    ensures 0 < ir < 256
  {
    match op
    case Call => 0x50        // 0b01010000
    case Hlt => 0x01         // 0b00000001
    case Iret => 0x13        // 0b00010011
    case Jmp => 0x54         // 0b01010100
    case Ldi => 0x82         // 0b10000010
    case Pop => 0x46         // 0b01000110
    case Pra => 0x48         // 0b01001000
    case Prn => 0x47         // 0b01000111
    case Push => 0x45        // 0b01000101
    case Ret => 0x11         // 0b00010001
    case St => 0x84          // 0b10000100
    case Alu(Mul) => 0xA2    // 0b10100010
    case Alu(Add) => 0xA0    // 0b10100000
    case Alu(Div) => 0xA3    // 0b10100011
    case Alu(Sub) => 0xA1    // 0b10100001
  }

  /** The branch-table lookup `ir in branchtable`. */
  function Lookup(ir: int): (r: Option<Op>)
    ensures r.Some? ==> Code(r.value) == ir
    ensures r.None? ==> forall op :: Code(op) != ir
  {
    if ir == 0x50 then Some(Call)
    else if ir == 0x01 then Some(Hlt)
    else if ir == 0x13 then Some(Iret)
    else if ir == 0x54 then Some(Jmp)
    else if ir == 0x82 then Some(Ldi)
    else if ir == 0x46 then Some(Pop)
    else if ir == 0x48 then Some(Pra)
    else if ir == 0x47 then Some(Prn)
    else if ir == 0x45 then Some(Push)
    else if ir == 0x11 then Some(Ret)
    else if ir == 0x84 then Some(St)
    else if ir == 0xA2 then Some(Alu(Mul))
    else if ir == 0xA0 then Some(Alu(Add))
    else if ir == 0xA3 then Some(Alu(Div))
    else if ir == 0xA1 then Some(Alu(Sub))
    else None
  }

  /** Every instruction has exactly one byte and the table finds it. */
  lemma LookupCode(op: Op)
    ensures Lookup(Code(op)) == Some(op)
  {
  }

  /** Operand bytes each instruction's handler actually uses. */
  function Arity(op: Op): nat
  {
    match op
    case Hlt | Ret | Iret => 0
    case Call | Jmp | Pop | Pra | Prn | Push => 1
    case Ldi | St | Alu(_) => 2
  }

  /** The bit fields of every table entry agree with how it is dispatched:
      the ALU flag is set exactly on the four arithmetic instructions, the
      sets-PC flag exactly on the four control transfers, and the operand
      count is the number of operand bytes the handler consumes. */
  lemma FieldsAgreeWithHandlers(op: Op)
    ensures Decode(Code(op)).isAlu <==> op.Alu?
    ensures Decode(Code(op)).setsPc <==> op in {Call, Jmp, Ret, Iret}
    ensures Decode(Code(op)).operands == Arity(op)
    ensures 0 <= Code(op) < 256
  {
  }
}
