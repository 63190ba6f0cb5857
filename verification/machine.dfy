/** The LS8 machine state: 256 RAM cells, eight registers of which R7 is the
    stack pointer, the program counter, the flags register, whether the
    machine is still running, and what it has printed so far.
    Cells and registers hold unbounded integers, as they do in the emulator:
    nothing truncates a value to a byte when it is stored. */
module Machine {
  import opened Indexing

  const RamSize: nat := 256
  const RegCount: nat := 8
  /** The register reserved as stack pointer. */
  const SP: nat := 7
  /** Where the stack starts: the stack grows down from just below 0xF4. */
  const InitialSp: int := 0xF4

  /** What ends a run abnormally: an exception raised inside the cycle. */
  datatype Fault =
    | IndexError(index: int)     // a RAM or register subscript outside [-n, n)
    | DivisionByZero             // DIV with a zero divisor register
    | BadCodePoint(code: int)    // PRA of a value that names no character

  datatype Status = Running | Halted | Faulted(fault: Fault)

  /** One line on the output stream. */
  datatype Event =
    | Number(value: int)         // PRN: the value in decimal
    | Character(code: int)       // PRA: the character with this code point
    | UnsupportedOperation       // the diagnostic for a byte not in the table

  datatype Cpu = Cpu(
    ram: seq<int>,
    reg: seq<int>,
    pc: int,
    fl: int,
    status: Status,
    out: seq<Event>)

  /** The shape every state keeps: the lists never change length. */
  predicate Valid(c: Cpu)
  {
    |c.ram| == RamSize && |c.reg| == RegCount
  }

  /** A freshly constructed CPU. */
  function Init(): (c: Cpu)
    ensures Valid(c) && c.status == Running && c.out == []
    ensures forall a :: 0 <= a < RamSize ==> c.ram[a] == 0
    ensures forall i :: 0 <= i < RegCount && i != SP ==> c.reg[i] == 0
    ensures c.reg[SP] == 0xF4
    ensures c.pc == 0 && c.fl == 0
  {
    Cpu(seq(RamSize, _ => 0), seq(RegCount, i => if i == SP then InitialSp else 0),
        0, 0, Running, [])
  }

  /** The state a handler leaves when it raises: whatever it had already
      changed stays changed. */
  function Raise(c: Cpu, f: Fault): (r: Cpu)
    ensures r.status == Faulted(f)
    ensures r.ram == c.ram && r.reg == c.reg && r.pc == c.pc && r.out == c.out
  {
    c.(status := Faulted(f))
  }

  /** `ram_read(mar)`: the cell at `mar`, None where the subscript raises. */
  function RamRead(c: Cpu, mar: int): (r: Option<int>)
    requires Valid(c)
    ensures r.Some? <==> -256 <= mar < 256
    ensures 0 <= mar < 256 ==> r == Some(c.ram[mar])
    ensures -256 <= mar < 0 ==> r == Some(c.ram[mar + 256])
  {
    Get(c.ram, mar)
  }

  /** `ram_write(mar, mdr)`: the state with the cell replaced, None where the
      subscript raises. */
  function RamWrite(c: Cpu, mar: int, mdr: int): (r: Option<Cpu>)
    requires Valid(c)
    ensures r.Some? <==> -256 <= mar < 256
    ensures r.Some? ==> Valid(r.value) && r.value == c.(ram := r.value.ram)
  {
    match Set(c.ram, mar, mdr)
    case None => None
    case Some(ram) => Some(c.(ram := ram))
  }

  /** Read-after-write: reading the address just written returns the value
      written (through either of its two subscripts), and every other cell
      reads as before. */
  lemma RamReadAfterWrite(c: Cpu, mar: int, mdr: int, m: int)
    requires Valid(c) && -256 <= mar < 256
    ensures RamRead(RamWrite(c, mar, mdr).value, m)
            == if Slot(RamSize, m) == Slot(RamSize, mar) then Some(mdr) else RamRead(c, m)
  {
    GetAfterSet(c.ram, mar, mdr, m);
  }

  /** The register named by an operand byte, None where the subscript raises. */
  function RegRead(c: Cpu, i: int): (r: Option<int>)
    requires Valid(c)
    ensures r.Some? <==> -8 <= i < 8
    ensures r.Some? ==> r.value == c.reg[Slot(RegCount, i).value]
  {
    Get(c.reg, i)
  }

  /** Two register files, or two RAMs, agree everywhere except possibly at
      index `k`. */
  predicate AgreeExcept(x: seq<int>, y: seq<int>, k: int)
  {
    |x| == |y| && forall j :: 0 <= j < |x| && j != k ==> x[j] == y[j]
  }
}
