/** The per-instruction handlers of the LS8 branch table and the ALU. Each
    takes the running state and the two raw operand bytes fetched after the
    opcode, and returns the state the handler leaves: either still running
    or faulted at the first subscript or arithmetic error it raises, with
    the changes it made before raising kept. Handlers never advance PC; the
    ones that set PC (CALL, JMP, RET, IRET) assign it themselves. */
module Handlers {
  import opened Indexing
  import opened Machine
  import opened Opcodes

  /** The register cell an in-range register operand names. */
  function Reg(i: int): (k: nat)
    requires -8 <= i < 8
    ensures k < RegCount
  {
    Slot(RegCount, i).value
  }

  /** The RAM cell an in-range address names. */
  function Cell(m: int): (k: nat)
    requires -256 <= m < 256
    ensures k < RamSize
  {
    Slot(RamSize, m).value
  }

  /** LDI: `register[a] = b`. */
  function Ldi(c: Cpu, a: int, b: int): (r: Cpu)
    requires Valid(c) && c.status == Running
    ensures Valid(r)
    ensures r.status == Running <==> -8 <= a < 8
    ensures r.status == Running ==>
              && r.reg[Reg(a)] == b
              && AgreeExcept(r.reg, c.reg, Reg(a))
              && r.ram == c.ram && r.pc == c.pc && r.fl == c.fl && r.out == c.out
    ensures r.status != Running ==> r == Raise(c, IndexError(a))
  {
    match Set(c.reg, a, b)
    case None => Raise(c, IndexError(a))
    case Some(regs) => c.(reg := regs)
  }

  /** POP: read the cell SP addresses, store it in `register[a]`, then
      increment SP. When `a` names SP itself the popped value lands in SP
      and is then incremented. */
  function Pop(c: Cpu, a: int): (r: Cpu)
    requires Valid(c) && c.status == Running
    ensures Valid(r)
    ensures r.status == Running <==> -256 <= c.reg[SP] < 256 && -8 <= a < 8
    ensures r.status == Running ==>
              var top := c.ram[Cell(c.reg[SP])];
              && (Reg(a) != SP ==> r.reg[Reg(a)] == top && r.reg[SP] == c.reg[SP] + 1)
              && (Reg(a) == SP ==> r.reg[SP] == top + 1)
              && (forall j :: 0 <= j < RegCount && j != Reg(a) && j != SP ==> r.reg[j] == c.reg[j])
              && r.ram == c.ram && r.pc == c.pc && r.fl == c.fl && r.out == c.out
    ensures r.status != Running ==> r.reg == c.reg && r.ram == c.ram && r.pc == c.pc
  {
    match RamRead(c, c.reg[SP])
    case None => Raise(c, IndexError(c.reg[SP]))
    case Some(top) =>
      match Slot(RegCount, a)
      case None => Raise(c, IndexError(a))
      case Some(k) =>
        var regs := c.reg[k := top];
        c.(reg := regs[SP := regs[SP] + 1])
  }

  /** PUSH: decrement SP, then write `register[a]` to the cell SP addresses.
      SP stays decremented even when the write raises. */
  function Push(c: Cpu, a: int): (r: Cpu)
    requires Valid(c) && c.status == Running
    ensures Valid(r)
    ensures r.reg[SP] == c.reg[SP] - 1 && AgreeExcept(r.reg, c.reg, SP)
    ensures r.status == Running <==> -8 <= a < 8 && -256 <= c.reg[SP] - 1 < 256
    ensures r.status == Running ==>
              var pushed := if Reg(a) == SP then c.reg[SP] - 1 else c.reg[Reg(a)];
              && r.ram[Cell(r.reg[SP])] == pushed
              && AgreeExcept(r.ram, c.ram, Cell(r.reg[SP]))
              && r.pc == c.pc && r.fl == c.fl && r.out == c.out
    ensures r.status != Running ==> r.ram == c.ram && r.pc == c.pc
  {
    var sp := c.reg[SP] - 1;
    var c1 := c.(reg := c.reg[SP := sp]);
    match RegRead(c1, a)
    case None => Raise(c1, IndexError(a))
    case Some(v) =>
      match RamWrite(c1, sp, v)
      case None => Raise(c1, IndexError(sp))
      case Some(c2) => c2
  }

  /** CALL: decrement SP, write the return address PC + 2 to the cell SP
      addresses, then jump to `register[a]`. */
  function Call(c: Cpu, a: int): (r: Cpu)
    requires Valid(c) && c.status == Running
    ensures Valid(r)
    ensures r.reg[SP] == c.reg[SP] - 1 && AgreeExcept(r.reg, c.reg, SP)
    ensures r.status == Running <==> -256 <= c.reg[SP] - 1 < 256 && -8 <= a < 8
    ensures r.status == Running ==>
              && r.ram[Cell(r.reg[SP])] == c.pc + 2
              && AgreeExcept(r.ram, c.ram, Cell(r.reg[SP]))
              && r.pc == (if Reg(a) == SP then c.reg[SP] - 1 else c.reg[Reg(a)])
              && r.fl == c.fl && r.out == c.out
    ensures r.status != Running ==> r.pc == c.pc
  {
    var sp := c.reg[SP] - 1;
    var c1 := c.(reg := c.reg[SP := sp]);
    match RamWrite(c1, sp, c.pc + 2)
    case None => Raise(c1, IndexError(sp))
    case Some(c2) =>
      match RegRead(c2, a)
      case None => Raise(c2, IndexError(a))
      case Some(target) => c2.(pc := target)
  }

  /** RET: PC takes the cell SP addresses, then SP is incremented. */
  function Ret(c: Cpu): (r: Cpu)
    requires Valid(c) && c.status == Running
    ensures Valid(r)
    ensures r.status == Running <==> -256 <= c.reg[SP] < 256
    ensures r.status == Running ==>
              && r.pc == c.ram[Cell(c.reg[SP])]
              && r.reg[SP] == c.reg[SP] + 1 && AgreeExcept(r.reg, c.reg, SP)
              && r.ram == c.ram && r.fl == c.fl && r.out == c.out
    ensures r.status != Running ==> r.reg == c.reg && r.pc == c.pc
  {
    match RamRead(c, c.reg[SP])
    case None => Raise(c, IndexError(c.reg[SP]))
    case Some(target) => c.(pc := target, reg := c.reg[SP := c.reg[SP] + 1])
  }

  /** JMP: PC takes `register[a]`. */
  function Jmp(c: Cpu, a: int): (r: Cpu)
    requires Valid(c) && c.status == Running
    ensures Valid(r)
    ensures r.status == Running <==> -8 <= a < 8
    ensures r.status == Running ==> r == c.(pc := c.reg[Reg(a)])
    ensures r.status != Running ==> r == Raise(c, IndexError(a))
  {
    match RegRead(c, a)
    case None => Raise(c, IndexError(a))
    case Some(target) => c.(pc := target)
  }

  /** ST: write `register[b]` to the cell `register[a]` addresses. */
  function St(c: Cpu, a: int, b: int): (r: Cpu)
    requires Valid(c) && c.status == Running
    ensures Valid(r)
    ensures r.status == Running <==>
              -8 <= a < 8 && -8 <= b < 8 && -256 <= c.reg[Reg(a)] < 256
    ensures r.status == Running ==>
              && r.ram[Cell(c.reg[Reg(a)])] == c.reg[Reg(b)]
              && AgreeExcept(r.ram, c.ram, Cell(c.reg[Reg(a)]))
              && r.reg == c.reg && r.pc == c.pc && r.fl == c.fl && r.out == c.out
    ensures r.status != Running ==> r.ram == c.ram && r.reg == c.reg && r.pc == c.pc
  {
    match RegRead(c, a)
    case None => Raise(c, IndexError(a))
    case Some(address) =>
      match RegRead(c, b)
      case None => Raise(c, IndexError(b))
      case Some(v) =>
        match RamWrite(c, address, v)
        case None => Raise(c, IndexError(address))
        case Some(c2) => c2
  }

  /** PRN: print `register[a]` as a number. */
  function Prn(c: Cpu, a: int): (r: Cpu)
    requires Valid(c) && c.status == Running
    ensures Valid(r)
    ensures r.status == Running <==> -8 <= a < 8
    ensures r.status == Running ==> r == c.(out := c.out + [Number(c.reg[Reg(a)])])
    ensures r.status != Running ==> r == Raise(c, IndexError(a))
  {
    match RegRead(c, a)
    case None => Raise(c, IndexError(a))
    case Some(v) => c.(out := c.out + [Number(v)])
  }

  /** The code points a character can have. */
  const MaxCodePoint: int := 0x10FFFF

  /** PRA: print the character whose code point is `register[a]`; a value
      outside [0, 0x10FFFF] names no character and raises. */
  function Pra(c: Cpu, a: int): (r: Cpu)
    requires Valid(c) && c.status == Running
    ensures Valid(r)
    ensures r.status == Running <==> -8 <= a < 8 && 0 <= c.reg[Reg(a)] <= MaxCodePoint
    ensures r.status == Running ==> r == c.(out := c.out + [Character(c.reg[Reg(a)])])
    ensures -8 <= a < 8 && r.status != Running ==> r == Raise(c, BadCodePoint(c.reg[Reg(a)]))
  {
    match RegRead(c, a)
    case None => Raise(c, IndexError(a))
    case Some(v) =>
      if 0 <= v <= MaxCodePoint then c.(out := c.out + [Character(v)])
      else Raise(c, BadCodePoint(v))
  }

  /** HLT: the machine stops; nothing else changes. */
  function Hlt(c: Cpu): (r: Cpu)
    requires Valid(c) && c.status == Running
    ensures Valid(r) && r.status == Halted
    ensures r.ram == c.ram && r.reg == c.reg && r.pc == c.pc && r.out == c.out
  {
    c.(status := Halted)
  }

  /** IRET as the emulator writes it: it iterates over the three values 6,
      -1, -1 rather than over R6 down to R0, so it pops into R6 and then
      twice into register -1, which is SP itself. It restores no flags and
      leaves PC alone. */
  function Iret(c: Cpu): (r: Cpu)
    requires Valid(c) && c.status == Running
    ensures Valid(r)
    ensures r.status == Running ==>
              && -256 <= c.reg[SP] < 256 && -256 <= c.reg[SP] + 1 < 256
              && r.reg[6] == c.ram[Cell(c.reg[SP])]
              && var sp1 := c.ram[Cell(c.reg[SP] + 1)] + 1;
              && -256 <= sp1 < 256
              && r.reg[SP] == c.ram[Cell(sp1)] + 1
              && (forall j :: 0 <= j < 6 ==> r.reg[j] == c.reg[j])
              && r.ram == c.ram && r.pc == c.pc && r.fl == c.fl && r.out == c.out
  {
    var c1 := Pop(c, 6);
    if c1.status != Running then c1
    else
      var c2 := Pop(c1, -1);
      if c2.status != Running then c2 else Pop(c2, -1)
  }

  /** Division truncating toward zero. */
  function Quot(x: int, y: int): (q: int)
    requires y != 0
    ensures Abs(x - q * y) < Abs(y)
    ensures x - q * y == 0 || (x - q * y < 0 <==> x < 0)
  {
    var m := Abs(x) / Abs(y);
    if (x < 0) == (y < 0) then m else -m
  }

  /** The arithmetic of each ALU operation. */
  function Apply(op: AluOp, x: int, y: int): int
    requires op == Div ==> y != 0
  {
    match op
    case Add => x + y
    case Sub => x - y
    case Mul => x * y
    case Div => Quot(x, y)
  }

  /** The ALU: `register[a] op= register[b]`. DIV first checks the divisor
      register and raises on zero, leaving `register[a]` as it was. */
  function Alu(c: Cpu, op: AluOp, a: int, b: int): (r: Cpu)
    requires Valid(c) && c.status == Running
    ensures Valid(r)
    ensures r.status == Running <==>
              -8 <= a < 8 && -8 <= b < 8 && !(op == Div && c.reg[Reg(b)] == 0)
    ensures r.status == Running ==>
              var x, y := c.reg[Reg(a)], c.reg[Reg(b)];
              && (op == Add ==> r.reg[Reg(a)] == x + y)
              && (op == Sub ==> r.reg[Reg(a)] == x - y)
              && (op == Mul ==> r.reg[Reg(a)] == x * y)
              && (op == Div ==> y != 0 && r.reg[Reg(a)] == Quot(x, y))
              && AgreeExcept(r.reg, c.reg, Reg(a))
              && r.ram == c.ram && r.pc == c.pc && r.fl == c.fl && r.out == c.out
    ensures op == Div && -8 <= b < 8 && c.reg[Reg(b)] == 0 ==> r == Raise(c, DivisionByZero)
    ensures r.status != Running ==> r.reg == c.reg && r.ram == c.ram && r.pc == c.pc
  {
    if op == Div then
      match RegRead(c, b)
      case None => Raise(c, IndexError(b))
      case Some(y) =>
        if y == 0 then Raise(c, DivisionByZero)
        else
          match RegRead(c, a)
          case None => Raise(c, IndexError(a))
          case Some(x) => c.(reg := c.reg[Reg(a) := Quot(x, y)])
    else
      match RegRead(c, a)
      case None => Raise(c, IndexError(a))
      case Some(x) =>
        match RegRead(c, b)
        case None => Raise(c, IndexError(b))
        case Some(y) => c.(reg := c.reg[Reg(a) := Apply(op, x, y)])
  }
}
