/** What one cycle, and two consecutive cycles, do to the whole machine
    state for each instruction: the full successor state is given, so every
    register, RAM cell, PC, status and output not mentioned is unchanged. */
module Cycles {
  import opened Indexing
  import opened Decoder
  import opened Opcodes
  import opened Machine
  import opened Executor
  import Handlers

  /** The machine is running and the cycle about to start fetches opcode
      `op` without raising. */
  predicate Fetches(c: Cpu, op: Op)
  {
    && Valid(c) && c.status == Running
    && Fetch(c).Some? && Fetch(c).value.ir == Code(op)
  }

  /** As Fetches, with first operand byte `a`. */
  predicate Executing(c: Cpu, op: Op, a: int)
  {
    Fetches(c, op) && Fetch(c).value.a == a
  }

  /** A cycle that fetches a known opcode is that opcode's handler followed,
      unless the handler stopped the machine or the opcode sets PC, by the
      PC advance. */
  lemma Dispatch(c: Cpu, op: Op)
    requires Fetches(c, op)
    ensures var f := Fetch(c).value;
            var h := Execute(c, op, f.a, f.b);
            Step(c) == if h.status != Running || Decode(Code(op)).setsPc then h
                       else h.(pc := h.pc + Decoder.Width(Code(op)))
  {
    LookupCode(op);
  }

  /** LDI r, imm: register r takes the immediate and PC moves past both
      operands; a register operand outside [-8, 8) raises instead. */
  lemma LdiCycle(c: Cpu, a: int)
    requires Executing(c, Ldi, a)
    ensures Step(c) == if -8 <= a < 8
                       then c.(reg := c.reg[Handlers.Reg(a) := Fetch(c).value.b], pc := c.pc + 3)
                       else Raise(c, IndexError(a))
  {
    var r := Step(c);
    if -8 <= a < 8 {
      assert r.reg == c.reg[Handlers.Reg(a) := Fetch(c).value.b];
    }
  }

  /** ST a, b: the cell register a addresses takes register b; registers
      and every other cell are unchanged. */
  lemma StCycle(c: Cpu, a: int)
    requires Executing(c, St, a)
    requires -8 <= a < 8 && -8 <= Fetch(c).value.b < 8
    ensures var address := c.reg[Handlers.Reg(a)];
            var v := c.reg[Handlers.Reg(Fetch(c).value.b)];
            Step(c) == if -256 <= address < 256
                       then c.(ram := c.ram[Handlers.Cell(address) := v], pc := c.pc + 3)
                       else Raise(c, IndexError(address))
  {
    var address := c.reg[Handlers.Reg(a)];
    var r := Step(c);
    if -256 <= address < 256 {
      assert r.ram == c.ram[Handlers.Cell(address) := c.reg[Handlers.Reg(Fetch(c).value.b)]];
    }
  }

  /** The ALU handler alone: `register[a] op= register[b]`, or a
      DivisionByZero fault with nothing changed. */
  lemma AluHandler(c: Cpu, op: AluOp, a: int, b: int)
    requires Valid(c) && c.status == Running && -8 <= a < 8 && -8 <= b < 8
    ensures var x := c.reg[Handlers.Reg(a)];
            var y := c.reg[Handlers.Reg(b)];
            Handlers.Alu(c, op, a, b)
            == if op == Div && y == 0 then Raise(c, DivisionByZero)
               else c.(reg := c.reg[Handlers.Reg(a) := Handlers.Apply(op, x, y)])
  {
    var y := c.reg[Handlers.Reg(b)];
    if !(op == Div && y == 0) {
      var r := Handlers.Alu(c, op, a, b);
      assert r.reg == c.reg[Handlers.Reg(a) := Handlers.Apply(op, c.reg[Handlers.Reg(a)], y)];
    }
  }

  /** ADD, SUB, MUL and DIV store `register[a] op register[b]` in register
      a and nothing else; DIV by a zero register raises and leaves every
      register as it was. */
  lemma AluCycle(c: Cpu, op: AluOp, a: int)
    requires Executing(c, Alu(op), a)
    requires -8 <= a < 8 && -8 <= Fetch(c).value.b < 8
    ensures var x := c.reg[Handlers.Reg(a)];
            var y := c.reg[Handlers.Reg(Fetch(c).value.b)];
            Step(c) == if op == Div && y == 0
                       then Raise(c, DivisionByZero)
                       else c.(reg := c.reg[Handlers.Reg(a) := Handlers.Apply(op, x, y)],
                               pc := c.pc + 3)
  {
    var b := Fetch(c).value.b;
    AluHandler(c, op, a, b);
    FieldsAgreeWithHandlers(Alu(op));
    Dispatch(c, Alu(op));
    assert Execute(c, Alu(op), a, b) == Handlers.Alu(c, op, a, b);
  }

  /** PRN r appends register r to the output as a number. */
  lemma PrnCycle(c: Cpu, a: int)
    requires Executing(c, Prn, a) && -8 <= a < 8
    ensures Step(c) == c.(out := c.out + [Number(c.reg[Handlers.Reg(a)])], pc := c.pc + 2)
  {
  }

  /** PRA r appends the character register r codes, or raises when the
      value is no code point. */
  lemma PraCycle(c: Cpu, a: int)
    requires Executing(c, Pra, a) && -8 <= a < 8
    ensures var v := c.reg[Handlers.Reg(a)];
            Step(c) == if 0 <= v <= Handlers.MaxCodePoint
                       then c.(out := c.out + [Character(v)], pc := c.pc + 2)
                       else Raise(c, BadCodePoint(v))
  {
  }

  /** JMP r: PC takes register r and nothing else changes. */
  lemma JmpCycle(c: Cpu, a: int)
    requires Executing(c, Jmp, a) && -8 <= a < 8
    ensures Step(c) == c.(pc := c.reg[Handlers.Reg(a)])
  {
  }

  /** HLT stops the machine where it stands. */
  lemma HltCycle(c: Cpu)
    requires Fetches(c, Hlt)
    ensures Step(c) == c.(status := Halted)
  {
  }

  /** PUSH r: SP drops by one and the cell it now addresses takes register
      r (the decremented SP itself when r names SP). */
  lemma PushCycle(c: Cpu, a: int)
    requires Executing(c, Push, a) && -8 <= a < 8
    requires -256 <= c.reg[SP] - 1 < 256
    ensures var sp := c.reg[SP] - 1;
            var pushed := if Handlers.Reg(a) == SP then sp else c.reg[Handlers.Reg(a)];
            Step(c) == c.(reg := c.reg[SP := sp], ram := c.ram[Handlers.Cell(sp) := pushed],
                          pc := c.pc + 2)
  {
    var sp := c.reg[SP] - 1;
    var pushed := if Handlers.Reg(a) == SP then sp else c.reg[Handlers.Reg(a)];
    var r := Step(c);
    assert r.reg == c.reg[SP := sp];
    assert r.ram == c.ram[Handlers.Cell(sp) := pushed];
  }

  /** POP r: register r takes the cell SP addresses and SP rises by one
      (when r names SP, SP becomes that cell plus one). */
  lemma PopCycle(c: Cpu, a: int)
    requires Executing(c, Pop, a) && -8 <= a < 8
    requires -256 <= c.reg[SP] < 256
    ensures var top := c.ram[Handlers.Cell(c.reg[SP])];
            Step(c) == c.(reg := if Handlers.Reg(a) == SP then c.reg[SP := top + 1]
                                 else c.reg[Handlers.Reg(a) := top][SP := c.reg[SP] + 1],
                          pc := c.pc + 2)
  {
    var top := c.ram[Handlers.Cell(c.reg[SP])];
    var r := Step(c);
    assert r.reg == if Handlers.Reg(a) == SP then c.reg[SP := top + 1]
                    else c.reg[Handlers.Reg(a) := top][SP := c.reg[SP] + 1];
  }

  /** CALL r: SP drops by one, the cell it now addresses takes the return
      address PC + 2, and PC takes register r. */
  lemma CallCycle(c: Cpu, a: int)
    requires Executing(c, Call, a) && -8 <= a < 8
    requires -256 <= c.reg[SP] - 1 < 256
    ensures var sp := c.reg[SP] - 1;
            Step(c) == c.(reg := c.reg[SP := sp], ram := c.ram[Handlers.Cell(sp) := c.pc + 2],
                          pc := if Handlers.Reg(a) == SP then sp else c.reg[Handlers.Reg(a)])
  {
    var sp := c.reg[SP] - 1;
    var r := Step(c);
    assert r.reg == c.reg[SP := sp];
    assert r.ram == c.ram[Handlers.Cell(sp) := c.pc + 2];
  }

  /** RET: PC takes the cell SP addresses and SP rises by one. */
  lemma RetCycle(c: Cpu)
    requires Fetches(c, Ret) && -256 <= c.reg[SP] < 256
    ensures Step(c) == c.(reg := c.reg[SP := c.reg[SP] + 1], pc := c.ram[Handlers.Cell(c.reg[SP])])
  {
    var r := Step(c);
    assert r.reg == c.reg[SP := c.reg[SP] + 1];
  }

  /** PUSH Ra followed by POP Rb copies register a into register b, restores
      SP to its value before the PUSH, leaves every other register alone and
      moves PC past both instructions. */
  lemma PushThenPop(c: Cpu, a: int, b: int)
    requires Executing(c, Push, a) && -8 <= a < 8 && Handlers.Reg(a) != SP
    requires -256 <= c.reg[SP] - 1 < 256
    requires Executing(Step(c), Pop, b) && -8 <= b < 8 && Handlers.Reg(b) != SP
    ensures Step(c).ram[Handlers.Cell(c.reg[SP] - 1)] == c.reg[Handlers.Reg(a)]
    ensures Step(Step(c)) == Step(c).(reg := c.reg[Handlers.Reg(b) := c.reg[Handlers.Reg(a)]],
                                      pc := c.pc + 4)
  {
    PushCycle(c, a);
    var c1 := Step(c);
    PopCycle(c1, b);
    assert c1.reg[Handlers.Reg(b) := c1.ram[Handlers.Cell(c1.reg[SP])]][SP := c1.reg[SP] + 1]
           == c.reg[Handlers.Reg(b) := c.reg[Handlers.Reg(a)]];
  }

  /** CALL Ra stores the return address PC + 2 just below SP, decrements SP
      and jumps to register a; a RET executed next returns to PC + 2 with
      every register, SP included, as before the CALL. */
  lemma CallThenRet(c: Cpu, a: int)
    requires Executing(c, Call, a) && -8 <= a < 8
    requires -256 <= c.reg[SP] - 1 < 256
    requires Fetches(Step(c), Ret)
    ensures Step(Step(c)) == Step(c).(reg := c.reg, pc := c.pc + 2)
  {
    CallCycle(c, a);
    var c1 := Step(c);
    RetCycle(c1);
    assert c1.reg[SP := c1.reg[SP] + 1] == c.reg;
  }

  /** `n` copies of one event. */
  function Repeat(e: Event, n: nat): (s: seq<Event>)
    ensures |s| == n && forall i :: 0 <= i < n ==> s[i] == e
  {
    if n == 0 then [] else Repeat(e, n - 1) + [e]
  }

  /** A value the table does not know sits at PC of a running machine, and
      the cycle will not move PC past it: either its sets-PC bit is set, or
      it is a negative cell whose width `(ir >> 6) + 1` is zero. */
  predicate SpinsAt(c: Cpu)
  {
    && Valid(c) && c.status == Running && Fetch(c).Some?
    && Lookup(Fetch(c).value.ir).None?
    && (Decode(Fetch(c).value.ir).setsPc || Width(Fetch(c).value.ir) == 0)
  }

  /** One cycle on such a value prints the diagnostic and leaves the machine
      about to fetch the same value again. */
  lemma SpinStep(c: Cpu)
    requires SpinsAt(c)
    ensures Step(c) == c.(out := c.out + [UnsupportedOperation])
    ensures SpinsAt(c.(out := c.out + [UnsupportedOperation]))
  {
    StepUnknownOpcode(c);
    assert Fetch(c.(out := c.out + [UnsupportedOperation])) == Fetch(c);
  }

  /** One event followed by n - 1 more copies is n copies. */
  lemma RepeatOnceMore(out: seq<Event>, e: Event, n: nat)
    requires n >= 1
    ensures out + [e] + Repeat(e, n - 1) == out + Repeat(e, n)
  {
    assert [e] + Repeat(e, n - 1) == Repeat(e, n);
  }

  /** A value the table does not know, that either has its sets-PC bit set
      or has width zero, never moves PC: every further cycle fetches it
      again and prints the diagnostic again, and no amount of fuel ends the
      run. */
  lemma {:induction false} UnknownByteSpins(c: Cpu, n: nat)
    requires SpinsAt(c)
    ensures Run(c, n) == c.(out := c.out + Repeat(UnsupportedOperation, n))
    decreases n
  {
    if n > 0 {
      var next := c.(out := c.out + [UnsupportedOperation]);
      SpinStep(c);
      RunVia(c, next, n);
      UnknownByteSpins(next, n - 1);
      RepeatOnceMore(c.out, UnsupportedOperation, n);
    }
  }

  /** A cell holding -64, which no program byte can be but a stored
      difference can, has the sets-PC bit clear and width
      `(-64 >> 6) + 1 == 0`: the machine spins on it as well. */
  lemma MinusSixtyFourSpins(c: Cpu)
    requires Valid(c) && c.status == Running && 0 <= c.pc < 254 && c.ram[c.pc] == -64
    ensures !Decode(-64).setsPc && Width(-64) == 0
    ensures SpinsAt(c)
  {
  }

  /** A cell holding -96 has the sets-PC bit clear and width
      `(-96 >> 6) + 1 == -1`: the cycle prints the diagnostic and moves PC
      one cell backwards. */
  lemma MinusNinetySixStepsBack(c: Cpu)
    requires Valid(c) && c.status == Running && 0 <= c.pc < 254 && c.ram[c.pc] == -96
    ensures Step(c) == c.(pc := c.pc - 1, out := c.out + [UnsupportedOperation])
  {
    StepUnknownOpcode(c);
  }
}
