/** The four-instruction toy interpreter that precedes the LS8: a fixed
    memory image, eight registers and a program counter, interpreted until
    HALT or an unknown instruction.

      PRINT_NICK (1)       print "Nick!"; PC += 1
      HALT (2)             leave the loop
      SAVE_REG (3) r v     register[r] = v; PC += 3
      PRINT_REG (4) r      print register[r]; PC += 2
      anything else        print "Unknown Instruction" and stop

    Memory and register subscripts follow the host language: a negative
    subscript counts from the end, and one out of range raises, which ends
    the run as Crashed. */
module Toy {
  import opened Indexing
  import Decimal

  const PrintNick: int := 1
  const Halt: int := 2
  const SaveReg: int := 3
  const PrintReg: int := 4

  /** PRINT_NICK; SAVE_REG R0,37; PRINT_NICK; PRINT_REG R0; HALT */
  const Program: seq<int> := [PrintNick, SaveReg, 0, 37, PrintNick, PrintReg, 0, Halt]

  datatype Status =
    | Running
    | Halted            // HALT broke out of the loop
    | Stopped           // an unknown instruction cleared the running flag
    | Crashed(index: int)  // a subscript raised

  datatype Toy = Toy(memory: seq<int>, register: seq<int>, pc: int, status: Status, out: seq<string>)

  predicate Valid(t: Toy)
  {
    |t.register| == 8
  }

  /** The interpreter as it starts: the program in memory, all registers 0. */
  function Start(): (t: Toy)
    ensures Valid(t) && t.status == Running && t.pc == 0 && t.out == []
    ensures t.memory == Program && forall i :: 0 <= i < 8 ==> t.register[i] == 0
  {
    Toy(Program, seq(8, _ => 0), 0, Running, [])
  }

  /** One pass through the body of the interpreter loop. */
  function Step(t: Toy): (r: Toy)
    requires Valid(t) && t.status == Running
    ensures Valid(r) && r.memory == t.memory
    ensures t.out <= r.out && |r.out| <= |t.out| + 1
    // Only SAVE_REG writes a register.
    ensures Get(t.memory, t.pc) != Some(SaveReg) ==> r.register == t.register
    ensures r.status == Halted <==> Get(t.memory, t.pc) == Some(Halt)
  {
    match Get(t.memory, t.pc)
    case None => t.(status := Crashed(t.pc))
    case Some(inst) =>
      if inst == PrintNick then
        t.(out := t.out + ["Nick!"], pc := t.pc + 1)
      else if inst == SaveReg then
        match (Get(t.memory, t.pc + 1), Get(t.memory, t.pc + 2))
        case (None, _) => t.(status := Crashed(t.pc + 1))
        case (Some(_), None) => t.(status := Crashed(t.pc + 2))
        case (Some(regNum), Some(value)) =>
          match Set(t.register, regNum, value)
          case None => t.(status := Crashed(regNum))
          case Some(regs) => t.(register := regs, pc := t.pc + 3)
      else if inst == PrintReg then
        match Get(t.memory, t.pc + 1)
        case None => t.(status := Crashed(t.pc + 1))
        case Some(regNum) =>
          match Get(t.register, regNum)
          case None => t.(status := Crashed(regNum))
          case Some(value) => t.(out := t.out + [Decimal.Render(value)], pc := t.pc + 2)
      else if inst == Halt then
        t.(status := Halted)
      else
        t.(out := t.out + ["Unknown Instruction"], status := Stopped)
  }

  /** The instruction at PC, when PC is a valid non-negative address. */
  predicate At(t: Toy, inst: int)
  {
    Valid(t) && t.status == Running && 0 <= t.pc < |t.memory| && t.memory[t.pc] == inst
  }

  /** PRINT_NICK prints "Nick!" and moves to the next cell; registers are
      untouched. */
  lemma PrintNickStep(t: Toy)
    requires At(t, PrintNick)
    ensures Step(t) == t.(out := t.out + ["Nick!"], pc := t.pc + 1)
  {
  }

  /** SAVE_REG r v stores the literal v in register r and moves PC past
      both operands; every other register is unchanged. */
  lemma SaveRegStep(t: Toy)
    requires At(t, SaveReg) && t.pc + 2 < |t.memory|
    requires -8 <= t.memory[t.pc + 1] < 8
    ensures var k := Slot(8, t.memory[t.pc + 1]).value;
            && Step(t) == t.(register := t.register[k := t.memory[t.pc + 2]], pc := t.pc + 3)
            && Step(t).register[k] == t.memory[t.pc + 2]
            && forall j :: 0 <= j < 8 && j != k ==> Step(t).register[j] == t.register[j]
  {
    var k := Slot(8, t.memory[t.pc + 1]).value;
    assert Step(t).register == t.register[k := t.memory[t.pc + 2]];
  }

  /** PRINT_REG r prints register r in decimal and moves PC past its
      operand; registers are untouched. */
  lemma PrintRegStep(t: Toy)
    requires At(t, PrintReg) && t.pc + 1 < |t.memory|
    requires -8 <= t.memory[t.pc + 1] < 8
    ensures var v := t.register[Slot(8, t.memory[t.pc + 1]).value];
            && Step(t) == t.(out := t.out + [Decimal.Render(v)], pc := t.pc + 2)
            && Decimal.Parse(Step(t).out[|t.out|]) == Some(v)
  {
    Decimal.RenderRoundTrip(t.register[Slot(8, t.memory[t.pc + 1]).value]);
  }

  /** HALT ends the loop; an unrecognised instruction prints a diagnostic
      and ends it too. Neither changes PC or a register. */
  lemma StoppingSteps(t: Toy)
    requires Valid(t) && t.status == Running && 0 <= t.pc < |t.memory|
    requires t.memory[t.pc] !in {PrintNick, SaveReg, PrintReg}
    ensures Step(t).status != Running
    ensures Step(t) == if t.memory[t.pc] == Halt then t.(status := Halted)
                       else t.(out := t.out + ["Unknown Instruction"], status := Stopped)
  {
  }

  /** Up to `fuel` passes through the loop, stopping when it ends. */
  function Run(t: Toy, fuel: nat): (r: Toy)
    requires Valid(t)
    ensures Valid(r) && r.memory == t.memory && t.out <= r.out
    ensures t.status != Running ==> r == t
    decreases fuel
  {
    if fuel == 0 || t.status != Running then t else Run(Step(t), fuel - 1)
  }

  /** The state the fixed program ends in. */
  function Final(): Toy
  {
    Toy(Program, seq(8, i => if i == 0 then 37 else 0), 7, Halted, ["Nick!", "Nick!", "37"])
  }

  /** The fixed program halts after five passes, whatever fuel beyond that
      is given, with 37 in R0 and "Nick!", "Nick!", "37" printed. */
  lemma WholeProgram(fuel: nat)
    requires fuel >= 5
    ensures Run(Start(), fuel) == Final()
    ensures Final().status == Halted && Final().register[0] == 37
    ensures Final().out == ["Nick!", "Nick!", "37"]
  {
    var t0 := Start();
    PrintNickStep(t0);
    var t1 := Step(t0);
    SaveRegStep(t1);
    var t2 := Step(t1);
    PrintNickStep(t2);
    var t3 := Step(t2);
    PrintRegStep(t3);
    var t4 := Step(t3);
    StoppingSteps(t4);
    var t5 := Step(t4);
    assert Decimal.Render(37) == "37" by {
      assert Decimal.Digits(37) == Decimal.Digits(3) + [Decimal.DigitChar(7)];
    }
    assert t5.register == seq(8, i => if i == 0 then 37 else 0);
    assert t5 == Final();
    assert Run(t0, fuel) == Run(t1, fuel - 1) == Run(t2, fuel - 2) == Run(t3, fuel - 3)
           == Run(t4, fuel - 4) == Run(t5, fuel - 5);
  }
}
