# LS8 emulator core, modelled in Dafny

This project models the execution engine of an LS8 emulator, an eight-bit
teaching machine. The machine has 256 cells of RAM and eight registers, and
R7 serves as the stack pointer (SP). It keeps a program counter (PC) and a
flags register. A fetch/decode/execute loop interprets opcodes whose bits
carry their own structure. Bits 7-6 give the operand count, bit 5 marks an
ALU instruction and bit 4 marks an instruction that sets PC itself.

The model is functional. A `Cpu` datatype holds RAM, registers, PC, flags,
a status (`Running`, `Halted`, `Faulted(fault)`) and the output printed so
far. Every instruction handler is a pure function from one `Cpu` to the
next, and so is one cycle of the loop (`Executor.Step`). `Executor.Run`
chains cycles under a fuel bound. The smaller toy interpreter that precedes
the LS8 (`comp.py`: PRINT_NICK, SAVE_REG, PRINT_REG, HALT over a fixed
memory image) is modelled the same way in module `Toy`.

Modules:

- `Indexing`: list subscripts as the host language does them. A negative
  index counts from the end, and an index outside [-n, n) raises.
- `Decoder`: opcode bit fields, and the encoder that inverts them.
- `Opcodes`: the instruction set and the branch-table lookup.
- `Machine`: the state, the constructor, `ram_read` and `ram_write`.
- `Handlers`: LDI, PRN, PRA, PUSH, POP, CALL, RET, JMP, ST, HLT, IRET and
  the ALU.
- `Executor`: fetch, dispatch, one cycle, and fuel-bounded runs.
- `Cycles`: the full successor state of one cycle for each instruction,
  and the PUSH/POP and CALL/RET round trips.
- `Programs`: short programs run to the end.
- `Decimal`: the decimal text a printed integer takes.
- `Toy`: the `comp.py` interpreter and its fixed program.

Modelling choices, where the code and its design notes diverge (the code
is followed):

- Registers and RAM cells hold unbounded integers. The emulator stores
  Python integers and never masks them to a byte, so ADD of 255 and 1
  gives 256, not 0 (`Programs.AddDoesNotWrap`).
- A value not in the branch table is not fatal. The loop prints
  "Unsupported operation" and goes on. PC moves by (ir >> 6) + 1 unless bit
  4 is set. RAM cells are unbounded, so a negative cell can reach PC (a SUB
  result stored by ST, PUSH or CALL, for instance). For such a cell the
  move is zero or negative. When bit 4 is set, or the move is zero (any
  value in [-64, 0), such as -64), the machine spins on
  that cell forever (`Cycles.UnknownByteSpins`). A lower value such as -96
  moves PC backwards (`Cycles.MinusNinetySixStepsBack`).
- SP has no stack-region bounds. Every address goes through list
  subscription, so an address in [-256, 0) silently reaches the top of RAM,
  and only an address outside [-256, 256) faults, with `IndexError`.
- HLT calls process exit. It becomes the status `Halted`, with PC left
  unadvanced.
- An exception raised inside a handler ends the run with status
  `Faulted(fault)`. The state keeps whatever the handler had already
  changed. For example, PUSH has already decremented SP when its RAM write
  raises.
- DIV is integer division truncating toward zero (`Handlers.Quot`). The
  emulator's `/=` would produce a float instead.
- IRET is modelled as written. It iterates over the tuple (6, -1, -1), so
  it pops into R6 and then twice into register -1, which is SP itself. It
  does not touch flags or PC.

## Model

| member | source | states |
|---|---|---|
| Indexing.Slot | ls8/cpu.py:179-190 | A subscript i of a list of length n is valid exactly when -n <= i < n. It then names cell i, or cell i + n for a negative i. |
| Indexing.SameSlot | ls8/cpu.py:179-190 | Two valid subscripts name the same cell exactly when they are equal or differ by n. |
| Indexing.Get | ls8/cpu.py:179-184 | A read succeeds exactly for a valid subscript and yields the cell it names. |
| Indexing.Set | ls8/cpu.py:186-190 | A write succeeds exactly for a valid subscript. It keeps the length and changes only the named cell, to the written value. |
| Indexing.GetAfterSet | ls8/cpu.py:179-190 | After a write, a read through a subscript naming the same cell yields the written value. Any other subscript reads as before. |
| Machine.Init | ls8/cpu.py:26-32 | A new CPU has 256 zero RAM cells, registers all 0 except SP = 0xF4, PC = 0 and flags 0, and it is running with nothing printed. |
| Machine.RamRead | ls8/cpu.py:179-184 | Reading address m succeeds exactly when -256 <= m < 256. It yields cell m, or cell m + 256 for a negative m. |
| Machine.RamWrite | ls8/cpu.py:186-190 | Writing succeeds exactly when the address is in [-256, 256). Only RAM changes. |
| Machine.RegRead | ls8/cpu.py:56-58 | A register read `self.register[i]` succeeds exactly when -8 <= i < 8. It yields register i, or register i + 8 for a negative i. |
| Machine.RamReadAfterWrite | ls8/cpu.py:179-190 | After writing v at m, a read through any subscript naming the same cell yields v. Every other cell reads as before. |
| Decoder.Decode | ls8/cpu.py:205-211 | For a byte, the operand count from bits 7-6 lies in 0..3, and the identity nibble lies in 0..15. |
| Decoder.DecodeEncode | ls8/cpu.py:205-211 | Decoding the byte assembled from any well-formed fields gives back those fields. |
| Decoder.EncodeDecode | ls8/cpu.py:205-211 | Every byte 0..255 is the encoding of its decoded fields, so the fields describe the byte completely. |
| Opcodes.Code | ls8/cpu.py:5-20 | Each instruction's opcode constant, each a nonzero byte. LookupCode and FieldsAgreeWithHandlers state what the constants mean. |
| Opcodes.Lookup | ls8/cpu.py:33-49 | The branch table finds an instruction only for that instruction's byte. A byte outside the table matches no instruction's code. |
| Opcodes.LookupCode | ls8/cpu.py:5-20 | Every instruction's opcode byte looks up to that instruction. |
| Opcodes.FieldsAgreeWithHandlers | ls8/cpu.py:5-20 | Every opcode is a byte. Its ALU bit is set exactly for ADD/SUB/MUL/DIV, and its sets-PC bit exactly for CALL/JMP/RET/IRET. Its operand count equals the operand bytes its handler uses. |
| Handlers.Ldi | ls8/cpu.py:87-91 | LDI succeeds exactly when the register operand is in [-8, 8). It then sets that register to the immediate and changes nothing else. On failure it faults with nothing changed. |
| Handlers.Pop | ls8/cpu.py:93-103 | POP succeeds exactly when SP and the operand are valid subscripts. The target register gets the top-of-stack cell and SP rises by one. If the target is SP itself, SP becomes the popped value plus one. Other registers and RAM are unchanged. |
| Handlers.Push | ls8/cpu.py:118-125 | PUSH always lowers SP by one. On success the new top cell holds the register (the lowered SP if the operand names SP), and every other cell, PC and the output are unchanged. |
| Handlers.Call | ls8/cpu.py:51-58 | CALL lowers SP by one and stores PC + 2 in the new top cell. It then sets PC to the operand register, or to the lowered SP when the operand names SP. No other cell changes. |
| Handlers.Ret | ls8/cpu.py:127-132 | RET sets PC to the top-of-stack cell and raises SP by one. It fails exactly when SP is out of range. |
| Handlers.Jmp | ls8/cpu.py:81-85 | JMP sets PC to the operand register and changes nothing else. A bad register operand faults. |
| Handlers.St | ls8/cpu.py:134-138 | ST succeeds exactly when both register operands and the address in register a are in range. It then writes register b to that cell only. |
| Handlers.Prn | ls8/cpu.py:112-116 | PRN appends the register's value to the output and changes nothing else. |
| Handlers.Pra | ls8/cpu.py:105-109 | PRA appends the register as a character when it is a code point in [0, 0x10FFFF]. Otherwise it faults with BadCodePoint. |
| Handlers.Hlt | ls8/cpu.py:61-65 | HLT moves to Halted and leaves RAM, registers, PC and output as they were. |
| Handlers.Iret | ls8/cpu.py:67-79 | When IRET completes, R6 holds the old top of stack and R0-R5, RAM, PC and flags are unchanged. SP ends as a cell value read through the clobbered SP, plus one. |
| Handlers.Apply | ls8/cpu.py:165-173 | The arithmetic of ADD, SUB, MUL and DIV on unbounded integers. It is defined only for a nonzero divisor; Handlers.Alu raises before that case. It has no contract of its own: Handlers.Quot states DIV's meaning, and Cycles.AluCycle and Programs.AluProgramPrints state the effect on the machine. |
| Handlers.Quot | ls8/cpu.py:171-173 | The integer quotient truncates toward zero. The remainder is smaller than the divisor in magnitude and is zero or has the dividend's sign. |
| Handlers.Alu | ls8/cpu.py:162-177 | ADD/SUB/MUL/DIV store reg[a] op reg[b] in reg[a] only. DIV with a zero divisor register faults with DivisionByZero and leaves every register unchanged. |
| Executor.Fetch | ls8/cpu.py:200-203 | The fetch succeeds exactly when PC, PC+1 and PC+2 are all valid RAM subscripts. It then yields the opcode and both operand cells. |
| Executor.Execute | ls8/cpu.py:33-49 | The branch table as a total dispatch from instruction to handler. The only contract of its own is that the state stays well formed. ExecuteShape states the shared properties, and the handler rows the per-instruction ones. |
| Executor.ExecuteShape | ls8/cpu.py:213-217 | Dispatch halts exactly on HLT. Only CALL/JMP/RET/IRET can move PC. At most one output line is added. |
| Executor.Step | ls8/cpu.py:199-221 | One iteration of the loop: fetch, decode, dispatch or print the diagnostic, then the PC advance. The only contract of its own is that the state stays well formed. StepShape, StepAdvancesPc, StepUnknownOpcode and Cycles.Dispatch state what a cycle does. |
| Executor.StepShape | ls8/cpu.py:199-221 | A failed fetch faults with nothing else changed. The cycle halts exactly when the fetched opcode is HLT. Output only grows, by at most one event. |
| Executor.StepAdvancesPc | ls8/cpu.py:205-221 | A cycle that completes with bit 4 clear moves PC by (ir >> 6) + 1, the operand count plus one. |
| Executor.StepUnknownOpcode | ls8/cpu.py:213-221 | A byte outside the table prints the diagnostic and changes nothing else. PC advances by (ir >> 6) + 1, or stays put when bit 4 is set. |
| Executor.Run | ls8/cpu.py:199-221 | The `while True` loop cut off after `fuel` cycles, as one more cycle at a time while the machine runs. It has no contract of its own: RunKeepsShape, RunOne, RunAdditive, RunFirst, RunVia and RunStaysStopped state its behaviour. |
| Executor.Next | ls8/cpu.py:199-221 | One more pass keeps a well-formed state well formed. A halted or faulted machine is left exactly as it is. |
| Executor.RunKeepsShape | ls8/cpu.py:199-221 | A bounded run keeps the state shape, never retracts output, and leaves a stopped machine unchanged. |
| Executor.RunOne | ls8/cpu.py:199-221 | A run of one cycle is exactly one pass of the loop body. |
| Executor.RunAdditive | ls8/cpu.py:199-221 | Running m cycles and then n more is the same as running m + n cycles. |
| Executor.RunFirst | ls8/cpu.py:199-221 | A run from a running machine is its first cycle followed by a run one cycle shorter. |
| Executor.RunVia | ls8/cpu.py:199-221 | When one cycle leads from c to d, a run from c goes on as a run from d with one cycle less. |
| Executor.RunStaysStopped | ls8/cpu.py:199-221 | Once a run has halted or faulted, more fuel leaves the result unchanged. |
| Cycles.Dispatch | ls8/cpu.py:213-221 | A cycle that fetches a known opcode is its handler's result. PC then advances by the width unless the handler stopped the machine or the opcode sets PC. |
| Cycles.LdiCycle | ls8/cpu.py:87-91 | A whole LDI cycle sets the register to the immediate and advances PC by 3, with everything else unchanged. A bad register operand faults instead. |
| Cycles.StCycle | ls8/cpu.py:134-138 | A whole ST cycle writes register b at the cell register a addresses and advances PC by 3, with everything else unchanged. It faults on an out-of-range address. |
| Cycles.AluCycle | ls8/cpu.py:162-175 | A whole ALU cycle replaces only reg[a] by reg[a] op reg[b] and advances PC by 3. DIV by zero faults with every register unchanged. |
| Cycles.PrnCycle | ls8/cpu.py:112-116 | A whole PRN cycle appends the register's value and advances PC by 2, with nothing else changed. |
| Cycles.PraCycle | ls8/cpu.py:105-109 | A whole PRA cycle appends the character and advances PC by 2, or faults on a value that is no code point. |
| Cycles.JmpCycle | ls8/cpu.py:81-85 | A whole JMP cycle sets PC to the register and changes nothing else. |
| Cycles.HltCycle | ls8/cpu.py:61-65 | A whole HLT cycle changes only the status, to Halted. |
| Cycles.PushCycle | ls8/cpu.py:118-125 | A whole PUSH cycle lowers SP, writes the register at the new top cell and advances PC by 2, with nothing else changed. |
| Cycles.PopCycle | ls8/cpu.py:93-103 | A whole POP cycle loads the top cell into the register, raises SP and advances PC by 2, with nothing else changed. |
| Cycles.CallCycle | ls8/cpu.py:51-58 | A whole CALL cycle lowers SP, stores PC + 2 at the new top cell and jumps to the register. |
| Cycles.RetCycle | ls8/cpu.py:127-132 | A whole RET cycle sets PC to the top cell and raises SP, with nothing else changed. |
| Cycles.PushThenPop | ls8/cpu.py:93-125 | PUSH Ra then POP Rb (neither naming SP) leaves reg[b] equal to the old reg[a]. SP and all other registers are restored, and PC advances by 4. |
| Cycles.CallThenRet | ls8/cpu.py:51-132 | CALL Ra at p followed by RET at the called address resumes at p + 2, with every register, SP included, as before the CALL. |
| Cycles.SpinStep | ls8/cpu.py:205-221 | One cycle on an unknown value with bit 4 set or width zero appends the diagnostic and leaves PC on that same cell. |
| Cycles.UnknownByteSpins | ls8/cpu.py:205-221 | A value outside the table with bit 4 set, or with (ir >> 6) + 1 == 0, never halts. Every further cycle only appends another "Unsupported operation", and PC, registers and RAM stay as they are. |
| Cycles.MinusSixtyFourSpins | ls8/cpu.py:205-221 | A cell holding -64 has bit 4 clear and width (-64 >> 6) + 1 = 0, so the machine spins on it too. |
| Cycles.MinusNinetySixStepsBack | ls8/cpu.py:205-221 | A cycle on a cell holding -96 prints the diagnostic and moves PC back by one, since (-96 >> 6) + 1 = -1 and bit 4 is clear. |
| Programs.Boot | ls8/cpu.py:26-32 | A new CPU with a program image at address 0 is running at PC 0 with nothing printed. The image fills the first cells and zeros fill the rest. |
| Programs.RunPrologue | ls8/cpu.py:87-91 | LDI R0,x; LDI R1,y at address 0 takes two cycles, leaving x in R0, y in R1 and PC at 6. |
| Programs.PrintAndHalt | ls8/cpu.py:61-65 | PRN R0; HLT prints R0 and halts on the HLT. Further fuel changes nothing. |
| Programs.AluThenPrint | ls8/cpu.py:162-175 | op R0,R1; PRN R0; HLT stores x op y in R0 only, prints it and halts five cells on. |
| Programs.AluProgramRuns | ls8/cpu.py:162-175 | From any running CPU holding the ALU program at address 0, five cycles end halted at 11. R0 then holds x op y, R1 holds y, and the result has been printed. |
| Programs.DivideFaults | ls8/cpu.py:171-173 | DIV R0,R1 with R1 = 0 ends the run faulted with DivisionByZero. The state is otherwise unchanged, whatever fuel is left. |
| Programs.AluProgramPrints | ls8/cpu.py:162-175 | LDI R0,x; LDI R1,y; op R0,R1; PRN R0; HLT halts after 5 cycles having printed exactly x op y. |
| Programs.PrintEightPrints8 | ls8/cpu.py:87-116 | LDI R0,8; PRN R0; HLT halts after 3 cycles having printed 8. |
| Programs.MultiplyPrints72 | ls8/cpu.py:169-170 | MUL of 8 and 9 followed by PRN prints 72. |
| Programs.AddDoesNotWrap | ls8/cpu.py:165-166 | ADD of 255 and 1 prints 256, so registers do not wrap at eight bits. |
| Programs.DivideByZeroFaults | ls8/cpu.py:171-175 | DIV by a zero register faults before PRN with nothing printed, and R0 keeps its value. |
| Decimal.Digits | comp.py:42 | The digits of n are at least one decimal digit, with no leading zero unless n is 0. |
| Decimal.ParseDigits | comp.py:42 | The digits of a natural number read back as that number. |
| Decimal.ParseNegative | comp.py:42 | A minus sign followed by a positive number's digits reads back as the negated number. |
| Decimal.DigitsRoundTrip | comp.py:42 | The decimal digits of n read back as n. |
| Decimal.RenderRoundTrip | comp.py:42 | The printed text of every integer, sign included, parses back to that integer. |
| Toy.Start | comp.py:8-24 | The interpreter starts with the fixed program in memory, all eight registers 0, PC 0, running, with nothing printed. |
| Toy.Step | comp.py:26-50 | One pass keeps memory and the register count. Only SAVE_REG writes a register. The loop ends by HALT exactly on HALT. Output grows by at most one line. |
| Toy.PrintNickStep | comp.py:29-31 | PRINT_NICK prints "Nick!", advances PC by 1 and leaves registers unchanged. |
| Toy.SaveRegStep | comp.py:33-37 | SAVE_REG r v sets register[r] = v only and advances PC by 3. |
| Toy.PrintRegStep | comp.py:39-43 | PRINT_REG r prints register[r] as decimal text that parses back to the value. Registers are unchanged and PC advances by 2. |
| Toy.StoppingSteps | comp.py:45-50 | HALT ends the loop. Any other unrecognised instruction prints "Unknown Instruction" and stops. Neither changes PC or registers. |
| Toy.Run | comp.py:26-50 | A bounded run keeps memory, never retracts output, and leaves a stopped interpreter unchanged. |
| Toy.WholeProgram | comp.py:8-50 | With any fuel of 5 or more, the fixed program ends Halted with R0 = 37 and output "Nick!", "Nick!", "37". |

## Left out

- `CPU.load` (ls8/cpu.py:141-160) parses program text from a file. It is file I/O, so programs are placed directly in RAM (`Programs.Boot`).
- `ls8/ls8.py` only builds a file path from the command line. It is not part of this model.
- `trace` (ls8/cpu.py:224-242) is debug printing only.
- Printing is modelled as a sequence of output events (a number, a character code, or the unsupported-operation diagnostic). Text encoding and the `chr` conversion are not modelled, apart from its range check.
- The unbounded `while True` loop is modelled as `Executor.Run` with fuel. Non-termination is shown only for the unknown-opcode spin.
- The ALU's "Unsupported ALU operation" exception (ls8/cpu.py:176-177) cannot be reached. The ALU receives only the four ALU opcodes, which form a closed enumeration here.
- Floating-point results of `/=` are not modelled. DIV yields an integer, so the later type errors a float register would cause are absent.
- The flags register is initialised and carried along, but no instruction in the source reads or writes it.
- Handlers.Pra: only `chr`'s range check is modelled. Printing a lone surrogate (0xD800-0xDFFF), or a character the output stream's encoding cannot represent, raises an encoding error in the emulator. The model appends the character and keeps running, because the stream's encoding is outside the program.
- Handlers.Iret: the contract states only the outcome when all three pops succeed. A failing pop leaves the partially updated state, as the body shows.
- Interrupt delivery (ls8/cpu.py:197) is a TODO in the source and is not modelled.
