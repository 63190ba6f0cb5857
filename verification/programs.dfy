/** Small LS8 programs run to completion on the model: a freshly
    constructed CPU with the program image placed at address 0, as the
    loader leaves it, run for a bounded number of cycles.

    Each program is taken apart the same way: a lemma about the cycles
    themselves (what `Step` does, one instruction after another) and a
    lemma that lifts those cycles to a fuel-bounded `Run`. */
module Programs {
  import opened Indexing
  import opened Opcodes
  import opened Machine
  import opened Executor
  import opened Cycles

  /** A new CPU whose RAM holds `image` from address 0 on. */
  function Boot(image: seq<int>): (c: Cpu)
    requires |image| <= RamSize
    ensures Valid(c) && c.status == Running && c.pc == 0 && c.out == []
    ensures c.reg == Init().reg
    ensures forall i :: 0 <= i < |image| ==> c.ram[i] == image[i]
    ensures forall i :: |image| <= i < RamSize ==> c.ram[i] == 0
  {
    Init().(ram := image + seq(RamSize - |image|, _ => 0))
  }

  /** The prologue `LDI R0,x; LDI R1,y` at address 0. */
  lemma LoadTwo(c: Cpu, x: int, y: int)
    requires Valid(c) && c.status == Running && c.pc == 0
    requires c.ram[..6] == [Code(Ldi), 0, x, Code(Ldi), 1, y]
    ensures Step(c).status == Running
    ensures Step(Step(c)) == c.(reg := c.reg[0 := x][1 := y], pc := 6)
  {
    LdiCycle(c, 0);
    LdiCycle(Step(c), 1);
  }

  /** Running through the prologue: two cycles load R0 and R1 and leave PC
      at 6, and the rest of the run goes on from there. */
  lemma RunPrologue(c: Cpu, x: int, y: int, fuel: nat)
    requires Valid(c) && c.status == Running && c.pc == 0
    requires c.ram[..6] == [Code(Ldi), 0, x, Code(Ldi), 1, y]
    requires fuel >= 2
    ensures Run(c, fuel) == Run(c.(reg := c.reg[0 := x][1 := y], pc := 6), fuel - 2)
  {
    LoadTwo(c, x, y);
    IterateFirstTwo(Next, c, fuel);
  }

  /** The epilogue `PRN R0; HLT` sits at PC of a running machine. */
  predicate EpilogueAt(c: Cpu)
  {
    && Valid(c) && c.status == Running && 0 <= c.pc < 250
    && c.ram[c.pc] == Code(Prn) && c.ram[c.pc + 1] == 0 && c.ram[c.pc + 2] == Code(Hlt)
  }

  /** The state the epilogue leaves: R0 printed, halted on the HLT. */
  function Printed(c: Cpu): (r: Cpu)
    requires Valid(c)
    ensures Valid(r) && r.status == Halted
  {
    c.(out := c.out + [Number(c.reg[0])], pc := c.pc + 2, status := Halted)
  }

  /** The epilogue's two cycles: PRN prints R0 and moves to the HLT, which
      halts. */
  lemma EpilogueSteps(c: Cpu)
    requires EpilogueAt(c)
    ensures Step(c).status == Running
    ensures Step(Step(c)) == Printed(c)
  {
    assert Executing(c, Prn, 0);
    PrnCycle(c, 0);
    assert Fetches(Step(c), Hlt);
    HltCycle(Step(c));
  }

  /** A run through the epilogue goes on from the halted state. */
  lemma EpilogueRun(c: Cpu, fuel: nat)
    requires EpilogueAt(c) && fuel >= 2
    ensures Run(c, fuel) == Run(Printed(c), fuel - 2)
  {
    EpilogueSteps(c);
    IterateFirstTwo(Next, c, fuel);
  }

  /** Running the epilogue prints R0 and halts; further fuel changes
      nothing. */
  lemma PrintAndHalt(c: Cpu, fuel: nat)
    requires EpilogueAt(c) && fuel >= 2
    ensures Run(c, fuel) == Printed(c)
  {
    EpilogueRun(c, fuel);
    RunKeepsShape(Printed(c), fuel - 2);
  }

  /** LDI R0,8; PRN R0; HLT */
  const PrintEight: seq<int> := [0x82, 0, 8, 0x47, 0, 0x01]

  /** The first cycle of PrintEight loads 8 into R0 and reaches the
      epilogue. */
  lemma PrintEightFirstStep()
    ensures EpilogueAt(Step(Boot(PrintEight)))
    ensures Printed(Step(Boot(PrintEight))).out == [Number(8)]
  {
    var c0 := Boot(PrintEight);
    LdiCycle(c0, 0);
  }

  lemma PrintEightPrints8()
    ensures Run(Boot(PrintEight), 3).status == Halted
    ensures Run(Boot(PrintEight), 3).out == [Number(8)]
  {
    var c0 := Boot(PrintEight);
    PrintEightFirstStep();
    IterateFirst(Next, c0, 3);
    PrintAndHalt(Step(c0), 2);
  }

  /** The prologue, one ALU instruction on R0 and R1, and the epilogue. */
  function AluProgram(op: AluOp, x: int, y: int): seq<int>
  {
    [Code(Ldi), 0, x, Code(Ldi), 1, y, Code(Alu(op)), 0, 1, Code(Prn), 0, Code(Hlt)]
  }

  /** `op R0,R1` followed by the epilogue sits at PC of a running machine
      that holds x in R0 and y in R1. */
  predicate AluTailAt(c: Cpu, op: AluOp, x: int, y: int)
  {
    && Valid(c) && c.status == Running && 0 <= c.pc < 247
    && c.ram[c.pc] == Code(Alu(op)) && c.ram[c.pc + 1] == 0 && c.ram[c.pc + 2] == 1
    && c.ram[c.pc + 3] == Code(Prn) && c.ram[c.pc + 4] == 0 && c.ram[c.pc + 5] == Code(Hlt)
    && c.reg[0] == x && c.reg[1] == y && (op == Div ==> y != 0)
  }

  /** The state the ALU instruction leaves: `x op y` in R0, PC on the
      epilogue. */
  function AluStored(c: Cpu, op: AluOp, x: int, y: int): (r: Cpu)
    requires Valid(c) && (op == Div ==> y != 0)
    ensures Valid(r)
  {
    c.(reg := c.reg[0 := Handlers.Apply(op, x, y)], pc := c.pc + 3)
  }

  /** After the ALU store the epilogue is at PC, and running it leaves
      exactly R0 changed, the result printed and the machine halted five
      cells on. */
  lemma AluStoredShape(c: Cpu, op: AluOp, x: int, y: int)
    requires AluTailAt(c, op, x, y)
    ensures EpilogueAt(AluStored(c, op, x, y))
    ensures var v := Handlers.Apply(op, x, y);
            Printed(AluStored(c, op, x, y))
            == c.(reg := c.reg[0 := v], pc := c.pc + 5, status := Halted, out := c.out + [Number(v)])
  {
  }

  /** The ALU cycle stores `x op y` in R0 and moves PC past its operands. */
  lemma AluTailStep(c: Cpu, op: AluOp, x: int, y: int)
    requires AluTailAt(c, op, x, y)
    ensures Step(c) == AluStored(c, op, x, y)
  {
    assert Executing(c, Alu(op), 0);
    AluCycle(c, op, 0);
  }

  /** A run through the ALU cycle goes on from the stored state. */
  lemma AluTailRun(c: Cpu, op: AluOp, x: int, y: int, fuel: nat)
    requires AluTailAt(c, op, x, y) && fuel >= 1
    ensures Run(c, fuel) == Run(AluStored(c, op, x, y), fuel - 1)
  {
    AluTailStep(c, op, x, y);
    RunVia(c, AluStored(c, op, x, y), fuel);
  }

  /** `op R0,R1; PRN R0; HLT` at PC with x in R0 and y in R1: three cycles
      store and print `x op y`, then halt. */
  lemma AluThenPrint(c: Cpu, op: AluOp, x: int, y: int, fuel: nat)
    requires AluTailAt(c, op, x, y) && fuel >= 3
    ensures var v := Handlers.Apply(op, x, y);
            Run(c, fuel) == c.(reg := c.reg[0 := v], pc := c.pc + 5, status := Halted,
                               out := c.out + [Number(v)])
  {
    AluStoredShape(c, op, x, y);
    AluTailRun(c, op, x, y, fuel);
    PrintAndHalt(AluStored(c, op, x, y), fuel - 1);
  }

  /** What AluProgram at address 0 holds, seen from the state the prologue
      leaves: the ALU instruction and the epilogue at PC 6 with x in R0 and
      y in R1, and the register file after the ALU store. */
  lemma AluProgramLayout(c: Cpu, op: AluOp, x: int, y: int)
    requires Valid(c) && c.status == Running && c.pc == 0
    requires c.ram[..12] == AluProgram(op, x, y) && (op == Div ==> y != 0)
    ensures c.ram[..6] == [Code(Ldi), 0, x, Code(Ldi), 1, y]
    ensures var c2 := c.(reg := c.reg[0 := x][1 := y], pc := 6);
            && AluTailAt(c2, op, x, y)
            && var v := Handlers.Apply(op, x, y);
               c2.(reg := c2.reg[0 := v], pc := c2.pc + 5, status := Halted, out := c2.out + [Number(v)])
               == c.(reg := c.reg[0 := v][1 := y], pc := 11, status := Halted, out := c.out + [Number(v)])
  {
    assert c.ram[..6] == c.ram[..12][..6];
    assert c.ram[6] == c.ram[..12][6] && c.ram[7] == c.ram[..12][7] && c.ram[8] == c.ram[..12][8];
    assert c.ram[9] == c.ram[..12][9] && c.ram[10] == c.ram[..12][10] && c.ram[11] == c.ram[..12][11];
    var v := Handlers.Apply(op, x, y);
    assert c.reg[0 := x][1 := y][0 := v] == c.reg[0 := v][1 := y];
  }

  /** AluProgram at address 0 of any running CPU: after five cycles R0
      holds `x op y`, R1 holds y, the result has been printed and the
      machine has halted on the HLT at address 11; more fuel changes
      nothing. */
  lemma AluProgramRuns(c: Cpu, op: AluOp, x: int, y: int, fuel: nat)
    requires Valid(c) && c.status == Running && c.pc == 0
    requires c.ram[..12] == AluProgram(op, x, y)
    requires op == Div ==> y != 0
    requires fuel >= 5
    ensures var v := Handlers.Apply(op, x, y);
            Run(c, fuel) == c.(reg := c.reg[0 := v][1 := y], pc := 11, status := Halted,
                               out := c.out + [Number(v)])
  {
    AluProgramLayout(c, op, x, y);
    RunPrologue(c, x, y, fuel);
    AluThenPrint(c.(reg := c.reg[0 := x][1 := y], pc := 6), op, x, y, fuel - 2);
  }

  /** A new CPU loaded with AluProgram prints `x op y` and halts. */
  lemma AluProgramPrints(op: AluOp, x: int, y: int, fuel: nat)
    requires op == Div ==> y != 0
    requires fuel >= 5
    ensures Run(Boot(AluProgram(op, x, y)), fuel).status == Halted
    ensures Run(Boot(AluProgram(op, x, y)), fuel).out == [Number(Handlers.Apply(op, x, y))]
  {
    var c0 := Boot(AluProgram(op, x, y));
    assert c0.ram[..12] == AluProgram(op, x, y);
    AluProgramRuns(c0, op, x, y, fuel);
  }

  /** LDI R0,8; LDI R1,9; MUL R0,R1; PRN R0; HLT prints 72. */
  lemma MultiplyPrints72()
    ensures Run(Boot(AluProgram(Mul, 8, 9)), 5).out == [Number(72)]
  {
    AluProgramPrints(Mul, 8, 9, 5);
  }

  /** Registers are not eight bits wide: LDI R0,255; LDI R1,1; ADD R0,R1
      prints 256, not 0. */
  lemma AddDoesNotWrap()
    ensures Run(Boot(AluProgram(Add, 255, 1)), 5).out == [Number(256)]
  {
    AluProgramPrints(Add, 255, 1, 5);
  }

  /** `DIV R0,R1` sits at PC of a running machine whose R1 is zero. */
  predicate DivByZeroAt(c: Cpu)
  {
    && Valid(c) && c.status == Running && 0 <= c.pc < 253
    && c.ram[c.pc] == Code(Alu(Div)) && c.ram[c.pc + 1] == 0 && c.ram[c.pc + 2] == 1
    && c.reg[1] == 0
  }

  /** The DIV cycle raises with nothing changed. */
  lemma DivideStep(c: Cpu)
    requires DivByZeroAt(c)
    ensures Step(c) == Raise(c, DivisionByZero)
  {
    assert Executing(c, Alu(Div), 0);
    AluCycle(c, Div, 0);
  }

  /** A run through the DIV cycle goes on from the faulted state. */
  lemma DivideRun(c: Cpu, fuel: nat)
    requires DivByZeroAt(c) && fuel >= 1
    ensures Run(c, fuel) == Run(Raise(c, DivisionByZero), fuel - 1)
  {
    DivideStep(c);
    RunVia(c, Raise(c, DivisionByZero), fuel);
  }

  /** The faulting DIV leaves a stopped machine: the run ends there with
      every register as it was and nothing printed, whatever fuel is
      left. */
  lemma DivideFaults(c: Cpu, fuel: nat)
    requires DivByZeroAt(c) && fuel >= 1
    ensures Run(c, fuel) == Raise(c, DivisionByZero)
  {
    DivideRun(c, fuel);
    RunKeepsShape(Raise(c, DivisionByZero), fuel - 1);
  }

  /** LDI R0,x; LDI R1,0; DIV R0,R1; PRN R0; HLT ends the run with
      DivisionByZero before anything is printed, and R0 keeps x. */
  lemma DivideByZeroFaults(x: int, fuel: nat)
    requires fuel >= 3
    ensures var r := Run(Boot(AluProgram(Div, x, 0)), fuel);
            r.status == Faulted(DivisionByZero) && Valid(r) && r.reg[0] == x && r.out == []
  {
    var c0 := Boot(AluProgram(Div, x, 0));
    assert c0.ram[..12] == AluProgram(Div, x, 0);
    assert c0.ram[..6] == c0.ram[..12][..6];
    var c2 := c0.(reg := c0.reg[0 := x][1 := 0], pc := 6);
    assert DivByZeroAt(c2) && c2.reg[0] == x;
    RunPrologue(c0, x, 0, fuel);
    DivideFaults(c2, fuel - 2);
  }
}
