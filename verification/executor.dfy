/** One cycle of the LS8 executor and a fuel-bounded run of cycles.

    A cycle reads the opcode at PC and, unconditionally, the two cells after
    it; decodes the opcode's fields; dispatches to the handler the branch
    table holds for it (ALU handlers also receive the opcode) or, for a byte
    not in the table, prints a diagnostic and does nothing else; and finally
    advances PC by the operand count plus one unless the opcode's sets-PC
    bit is set. A handler that raises or halts ends the cycle before PC is
    advanced. */
module Executor {
  import opened Indexing
  import opened Decoder
  import opened Opcodes
  import opened Machine
  import Handlers

  /** The opcode and the two operand bytes read at the start of a cycle. */
  datatype Fetched = Fetched(ir: int, a: int, b: int)

  /** The three reads at PC, PC + 1 and PC + 2, or the first address that
      raises. */
  function Fetch(c: Cpu): (r: Indexing.Option<Fetched>)
    requires Valid(c)
    ensures r.Some? <==> -256 <= c.pc && c.pc + 2 < 256
    ensures r.Some? ==>
              && r.value.ir == c.ram[Handlers.Cell(c.pc)]
              && r.value.a == c.ram[Handlers.Cell(c.pc + 1)]
              && r.value.b == c.ram[Handlers.Cell(c.pc + 2)]
  {
    match (RamRead(c, c.pc), RamRead(c, c.pc + 1), RamRead(c, c.pc + 2))
    case (Some(ir), Some(a), Some(b)) => Some(Fetched(ir, a, b))
    case _ => None
  }

  /** The address whose read raises when the fetch fails. */
  function FetchFault(c: Cpu): int
  {
    if c.pc < -256 || 256 <= c.pc then c.pc
    else if 256 <= c.pc + 1 then c.pc + 1
    else c.pc + 2
  }

  /** The branch table: each instruction's handler. */
  function Execute(c: Cpu, op: Op, a: int, b: int): (r: Cpu)
    requires Valid(c) && c.status == Running
    ensures Valid(r)
  {
    match op
    case Call => Handlers.Call(c, a)
    case Hlt => Handlers.Hlt(c)
    case Iret => Handlers.Iret(c)
    case Jmp => Handlers.Jmp(c, a)
    case Ldi => Handlers.Ldi(c, a, b)
    case Pop => Handlers.Pop(c, a)
    case Pra => Handlers.Pra(c, a)
    case Prn => Handlers.Prn(c, a)
    case Push => Handlers.Push(c, a)
    case Ret => Handlers.Ret(c)
    case St => Handlers.St(c, a, b)
    case Alu(aluOp) => Handlers.Alu(c, aluOp, a, b)
  }

  /** Only HLT halts; only the control-transfer handlers move PC; a handler
      prints at most one event and never retracts output. */
  lemma ExecuteShape(c: Cpu, op: Op, a: int, b: int)
    requires Valid(c) && c.status == Running
    ensures Execute(c, op, a, b).status == Halted <==> op == Hlt
    ensures !(op in {Call, Jmp, Ret, Iret}) ==> Execute(c, op, a, b).pc == c.pc
    ensures c.out <= Execute(c, op, a, b).out && |Execute(c, op, a, b).out| <= |c.out| + 1
  {
  }

  /** One iteration of the fetch/decode/execute loop. */
  function Step(c: Cpu): (r: Cpu)
    requires Valid(c) && c.status == Running
    ensures Valid(r)
  {
    match Fetch(c)
    case None => Raise(c, IndexError(FetchFault(c)))
    case Some(Fetched(ir, a, b)) =>
      var after :=
        match Lookup(ir)
        case None => c.(out := c.out + [UnsupportedOperation])
        case Some(op) => Execute(c, op, a, b);
      if after.status != Running || Decode(ir).setsPc then after
      else after.(pc := after.pc + Width(ir))
  }

  /** What any one cycle guarantees. A fetch that runs off RAM raises at the
      first bad address; the machine halts exactly when the opcode is HLT;
      output only grows, by at most one event. */
  lemma StepShape(c: Cpu)
    requires Valid(c) && c.status == Running
    ensures c.out <= Step(c).out && |Step(c).out| <= |c.out| + 1
    ensures Fetch(c).None? ==> Step(c) == Raise(c, IndexError(FetchFault(c)))
    ensures Step(c).status == Halted <==> Fetch(c).Some? && Fetch(c).value.ir == Code(Hlt)
  {
    match Fetch(c)
    case None =>
    case Some(f) =>
      match Lookup(f.ir)
      case None =>
      case Some(op) =>
        ExecuteShape(c, op, f.a, f.b);
        LookupCode(op);
  }

  /** With the sets-PC bit clear, a cycle that completes moves PC past the
      opcode and exactly as many operand bytes as bits 7-6 announce. */
  lemma StepAdvancesPc(c: Cpu)
    requires Valid(c) && c.status == Running && Fetch(c).Some?
    requires Step(c).status == Running && !Decode(Fetch(c).value.ir).setsPc
    ensures Step(c).pc == c.pc + Decode(Fetch(c).value.ir).operands + 1
  {
    var f := Fetch(c).value;
    match Lookup(f.ir)
    case None =>
    case Some(op) =>
      ExecuteShape(c, op, f.a, f.b);
      LookupCode(op);
      FieldsAgreeWithHandlers(op);
  }

  /** A byte the table does not know changes nothing but PC and the output;
      with its sets-PC bit set it does not even move PC. */
  lemma StepUnknownOpcode(c: Cpu)
    requires Valid(c) && c.status == Running && Fetch(c).Some? && Lookup(Fetch(c).value.ir).None?
    ensures var ir := Fetch(c).value.ir;
            Step(c) == c.(pc := if Decode(ir).setsPc then c.pc else c.pc + Decode(ir).operands + 1,
                          out := c.out + [UnsupportedOperation])
  {
  }

  /** One more cycle if the machine is still running; a stopped machine
      stays as it is. */
  function Next(c: Cpu): (r: Cpu)
    ensures Valid(c) ==> Valid(r)
    ensures c.status != Running ==> r == c
  {
    if Valid(c) && c.status == Running then Step(c) else c
  }

  /** `n` applications of `f`. */
  function Iterate(f: Cpu -> Cpu, c: Cpu, n: nat): Cpu
    decreases n
  {
    if n == 0 then c else f(Iterate(f, c, n - 1))
  }

  /** Applying `f` m times and then n more is applying it m + n times. */
  lemma {:induction false} IterateAdditive(f: Cpu -> Cpu, c: Cpu, m: nat, n: nat)
    ensures Iterate(f, c, m + n) == Iterate(f, Iterate(f, c, m), n)
    decreases n
  {
    if n > 0 {
      IterateAdditive(f, c, m, n - 1);
    }
  }

  /** The first application can be taken off the front. */
  lemma {:induction false} IterateFirst(f: Cpu -> Cpu, c: Cpu, n: nat)
    requires n >= 1
    ensures Iterate(f, c, n) == Iterate(f, f(c), n - 1)
    decreases n
  {
    if n > 1 {
      IterateFirst(f, c, n - 1);
    }
  }

  /** The first two applications can be taken off the front. */
  lemma IterateFirstTwo(f: Cpu -> Cpu, c: Cpu, n: nat)
    requires n >= 2
    ensures Iterate(f, c, n) == Iterate(f, f(f(c)), n - 2)
  {
    IterateFirst(f, c, n);
    IterateFirst(f, f(c), n - 1);
  }

  /** Once an iteration reaches a fixed point of `f` it stays there. */
  lemma {:induction false} IterateFixed(f: Cpu -> Cpu, c: Cpu, m: nat, n: nat)
    requires m <= n && f(Iterate(f, c, m)) == Iterate(f, c, m)
    ensures Iterate(f, c, n) == Iterate(f, c, m)
    decreases n
  {
    if n > m {
      IterateFixed(f, c, m, n - 1);
    }
  }

  /** Up to `fuel` cycles, stopping early once the machine halts or faults. */
  function Run(c: Cpu, fuel: nat): Cpu
  {
    Iterate(Next, c, fuel)
  }

  /** A run keeps the state well formed, never retracts output and leaves
      a stopped machine as it is. */
  lemma {:induction false} RunKeepsShape(c: Cpu, fuel: nat)
    requires Valid(c)
    ensures Valid(Run(c, fuel))
    ensures c.out <= Run(c, fuel).out
    ensures c.status != Running ==> Run(c, fuel) == c
    decreases fuel
  {
    if fuel > 0 {
      RunKeepsShape(c, fuel - 1);
      var before := Run(c, fuel - 1);
      if before.status == Running {
        StepShape(before);
      }
    }
  }

  /** A one-cycle run is a step. */
  lemma RunOne(c: Cpu)
    requires Valid(c) && c.status == Running
    ensures Run(c, 1) == Step(c)
  {
  }

  /** Running m cycles and then n more is running m + n cycles. */
  lemma RunAdditive(c: Cpu, m: nat, n: nat)
    ensures Run(c, m + n) == Run(Run(c, m), n)
  {
    IterateAdditive(Next, c, m, n);
  }

  /** A run from a running machine is its first cycle followed by the rest. */
  lemma RunFirst(c: Cpu, fuel: nat)
    requires Valid(c) && c.status == Running && fuel >= 1
    ensures Run(c, fuel) == Run(Step(c), fuel - 1)
  {
    IterateFirst(Next, c, fuel);
  }

  /** A run through a cycle known to lead from c to d goes on from d. */
  lemma RunVia(c: Cpu, d: Cpu, fuel: nat)
    requires Valid(c) && c.status == Running && Step(c) == d && fuel >= 1
    ensures Run(c, fuel) == Run(d, fuel - 1)
  {
    IterateFirst(Next, c, fuel);
  }

  /** Once a run has stopped, more fuel changes nothing. */
  lemma RunStaysStopped(c: Cpu, m: nat, n: nat)
    requires m <= n && Run(c, m).status != Running
    ensures Run(c, n) == Run(c, m)
  {
    IterateFixed(Next, c, m, n);
  }
}
