# SIMPLESEM virtual machine and debugger, modelled in Dafny

`sem` compiles SIMPLESEM programs into a linked list of stack-machine
instructions (`struct Op`) and runs them on a small virtual machine
(`struct VM`): a data memory, an operand stack, an instruction pointer, the
current source line and a flags word. The same engine runs a whole program
(`eval_code` in src/vm.c), or runs until the next source line in step mode
and can then be resumed (`evalCode` in src/eval.c). An interactive debugger
(src/debug.c) sits on top of it. It has the commands `next`, `run`,
`memory`, `ip`, `list`, `dump`, `quit`, `help`, `warranty` and the
unimplemented `break`/`trace`. Each command is found by its full name or by
its first letter.

This project models that core:

- `Int32`: the C `int`, with wrap-around and C's truncating `/` and `%`.
- `Flags`: the flags word and the `SET`/`UNSET`/`IS_SET` macros.
- `Bytecode`: the opcode enumeration, `struct Op` and `struct Code` as an
  arena of instructions (the head, START, is index 0; `next` is an index),
  the constraints the compiler gives them, and the debugger's `opstr`
  table.
- `Engine`: one trip round the engine loop as pure functions of the
  machine state, and the loop itself (`RunFrom`).
- `Machine`: `struct VM` as a class over `array`s, updated in place. Its
  methods `EvalCode`/`EvalCodeResumable` are proved to leave exactly the
  state `Engine.RunFrom` describes.
- `EngineProps`: what each opcode does, stated on the logical stack, plus
  facts about whole runs.
- `CString`: NUL-terminated strings and `drop_first_last_inplace`.
- `Display`: `repr`, the quoting the debugger uses for string operands.
- `Answers`: `ask`, the yes/no question.
- `MemoryView`: the `memory` command's rows.
- `CodeView`: the `dump` command's lines.
- `CommandTable`: the command table, `nameCmp`, `aliasCmp` and the lookup
  in `runCommand`.
- `Debugger`: `re` and the command callbacks over a `Machine.VM`, and
  `runCommand`.
- `Stepping`: step mode against batch mode, as described below.

The channels to the outside world are explicit values:

- Terminal output of the WRITE opcodes is a returned `seq<Out>`.
- The lines the READ opcode takes from the terminal are a `seq<Literal>`.
  Each is the outcome of `strtol`: a number, a range error, or the first
  junk character.
- The debugger's yes/no answers are a `seq<string>` of lines that are
  already trimmed.

The engine loop has no step bound of its own, so every run takes a `fuel`
argument. An outcome of `Continue` means the fuel ran out.

Signed overflow of `int` is undefined behaviour in C, and the code does
nothing to avoid it. This model uses one policy everywhere: every result is
reduced modulo 2^32 into the `int` range. `INT_MIN / -1` therefore gives
`INT_MIN`.

The binary opcodes pop their right operand first. `INT 0; INT 10; DIV`
pops `q` (the top, 10) and then `p` (0), and pushes `0 / 10 = 0`, so that
program does not fault; `INT 10; INT 0; DIV` is the division by zero
(`EngineProps.BinaryComputes`).

src/debug.c (2004-2010, over `struct VM` and `evalCode`) and src/debugger.c
(2003-2011, over `struct vm` and `eval_code`) are two versions of the same
debugger; src/debugger.c is the later one. The model follows src/debug.c,
which reads answers with `readline` and `trim`.

The module `Stepping` relates the two ways of running a program. `run` and
`eval_code` run it with STEP clear; `next`, given again and again, runs it
with STEP set and resumes after every suspension. The engine treats the two
alike except that step mode ends the line after WRITE_INT and WRITE_STR,
sets the current line on a taken jump, and raises HALTED on HALT. When
every jump-table entry is followed by a SETLINENO, both ways end with the
same outcome, state and input consumed, and print the same items up to
line ends (`Stepping.RunMatchesStepping`). Without that layout they can
differ: after a batch-mode jump the old line stays current until the next
SETLINENO, so IP pushes another value (`Stepping.StaleLineAfterJump`).

## Model

| member | source | states |
|---|---|---|
| Int32.Wrap | src/eval.c:288-304 | the 32-bit register value agrees with the exact result modulo 2^32, and is the exact result when that fits in an `int` |
| Int32.Quot | src/eval.c:306-313 | C's `/`: the remainder `p - q*r` is smaller than `q` in magnitude and is zero or has the sign of `p` (truncation toward zero) |
| Int32.Rem | src/eval.c:315-322 | C's `%`: `p == q * (p / q) + r`, with `r` smaller than `q` in magnitude and zero or of the sign of `p` |
| Flags.IsSet | src/sem.h:42 | `IS_SET` holds exactly when some bit of the flag is on |
| Flags.SetFlag | src/sem.h:40 | `SET` keeps every bit already on and turns on every bit of the flag |
| Flags.SetFlagIsSet | src/sem.h:40-42 | after `SET(v, f)` with `f` nonzero, `IS_SET(v, f)` holds |
| Flags.SetFlagKeepsOthers | src/sem.h:40 | `SET` changes no bit outside the flag |
| Flags.SetFlagOthers | src/sem.h:40-42 | setting one flag leaves `IS_SET` of a disjoint flag unchanged |
| Flags.FlagBitsDisjoint | src/sem.h:146-148 | STEP, TRACE and HALTED are the single bits 1, 2 and 4 |
| Flags.UnsetAsWritten | src/sem.h:41 | `UNSET` as written leaves the bits of the flag exactly as they were |
| Flags.UnsetAsWrittenNeverClears | src/sem.h:41 | `UNSET` as written never changes `IS_SET` of the flag it names |
| Flags.UnsetAsWrittenKeepsStep | src/sem.h:41 | applied to STEP, `UNSET` as written leaves STEP set; the corrected `Unset` clears it |
| Flags.Unset | src/sem.h:41 | the intended `UNSET` clears every bit of the flag and keeps every other bit |
| Bytecode.Number | src/sem.h:45-72 | every opcode has a value below 25 |
| Bytecode.NumberingRoundTrip | src/sem.h:45-72 | the enumeration is a bijection between the 25 opcodes and 0..24 |
| Bytecode.OpStrFollowsEnum | src/debug.c:219-227 | `opstr` has 25 entries and entry `k` spells the name of the enumerator whose value is `k` |
| Bytecode.HeadResumable | src/sem.h:88-94 | the head of a well-formed program always has a successor to fetch |
| Bytecode.ListFrom | src/sem.h:74-94 | following the `next` links from an instruction gives the list of instructions, linked in order and ending at the HALT that has no successor |
| Bytecode.ListFromIncreasing | src/sem.h:74-94 | the instructions of that list lie at strictly increasing indices, so the list is finite and has no cycles |
| Engine.Status | src/eval.c:366-372 | the status returned is 1 exactly after a fault (DIE) and 0 otherwise |
| Engine.Die | src/eval.c:113-124 | DIE is a fault of the given kind on the current line; its report has one entry per stack cell, the top first; the stack is left empty and nothing else changes |
| Engine.Push | src/eval.c:131-137 | PUSH continues exactly when the stack has room, storing the value at the depth and growing it by one with the cells below kept; a full stack is the stack-overflow fault; memory, ip, flags, output and input are kept |
| Engine.Apply | src/eval.c:288-358 | ADD, SUB, MUL and DIV give the exact result modulo 2^32 (DIV truncating), MOD gives C's remainder, and a comparison gives 0 or 1 |
| Engine.HaltFlags | src/eval.c:226-228 | after HALT, HALTED is set exactly when STEP was set or HALTED already was; STEP and every other bit are kept |
| Engine.TopToBottom | src/eval.c:113-124 | DIE prints the stack cells top first: entry `k` is the cell `k` places below the top |
| Engine.Fetched | src/eval.c:146-147 | `ip = ip->next` always lands on an instruction of the program |
| Engine.Binary | src/eval.c:288-358 | the arithmetic and comparison opcodes keep the trip invariant `Sound` (depth within the stack, sizes kept, flags unchanged, a fault empties the stack) |
| Engine.Jumped | src/eval.c:196-203 | a taken jump keeps `Sound` and suspends only in step mode |
| Engine.ExecSet | src/eval.c:159-167 | SET keeps `Sound` |
| Engine.ExecMem | src/eval.c:169-177 | MEM keeps `Sound` |
| Engine.ExecJump | src/eval.c:190-204 | JUMP keeps `Sound` and always ends on an instruction with a successor |
| Engine.ExecJumpT | src/eval.c:206-224 | JUMPT keeps `Sound` |
| Engine.ExecRead | src/eval.c:261-286 | READ keeps `Sound` |
| Engine.ExecWrite | src/eval.c:237-259 | the WRITE opcodes keep `Sound` |
| Engine.ExecSetLineNo | src/eval.c:179-188 | SETLINENO keeps `Sound` and suspends only in step mode |
| Engine.ExecHalt | src/eval.c:226-231 | HALT keeps `Sound`: the flags become `HaltFlags` and nothing else changes |
| Engine.ExecAt | src/eval.c:154-362 | every opcode, the unknown one included, keeps `Sound` |
| Engine.Exec | src/eval.c:144-363 | one trip of the loop (fetch, then execute) keeps `Sound` |
| Engine.RunFrom | src/eval.c:143-372 | a whole run keeps `Sound`; it suspends only in step mode, and only HALT raises a flag |
| Engine.Resume | src/eval.c:143-364 | a run that goes on after a trip only extends that trip's output; a trip that left the loop is the final result |
| Engine.RunFromOnce | src/eval.c:143-364 | a run is its first trip followed by the run from where that trip ended, with the output concatenated |
| EngineProps.NextIns | src/eval.c:146-154 | the next instruction has its string operand when its opcode writes one |
| EngineProps.PushedLive | src/eval.c:131-137 | PUSH appends the value to the logical stack |
| EngineProps.PoppedLive | src/eval.c:130 | POP removes exactly the values on top of the logical stack |
| EngineProps.DieDrains | src/eval.c:113-124 | DIE reports the line and the logical stack top first, leaves it empty, and gives status 1 |
| EngineProps.PushSpec | src/eval.c:131-137 | PUSH faults with stack overflow exactly when the stack is full; otherwise the value is the new top and nothing else changes |
| EngineProps.UnderflowFaults | src/eval.c:154-358 | every opcode that pops faults with stack underflow when there are fewer values than it pops, and changes nothing else |
| EngineProps.IntAndIpPush | src/eval.c:155-157 | INT pushes its operand and IP pushes the current line plus one; both continue at the fetched instruction |
| EngineProps.SetStores | src/eval.c:159-167 | SET pops the value, then the address below it, and stores the value there; an address outside memory is a fault naming it, and no other cell changes |
| EngineProps.MemLoads | src/eval.c:169-177 | MEM replaces the address on top by the cell stored there, or faults naming a bad address; it never overflows |
| EngineProps.ReadStores | src/eval.c:261-286 | READ checks the address before it reads anything; it then reads exactly one literal and stores its low 32 bits, or faults on a range error or junk character |
| EngineProps.JumpGoes | src/eval.c:190-204 | JUMP accepts exactly the lines 1 .. size-1 and continues at that line's jump-table entry; in step mode it sets the line and suspends |
| EngineProps.JumpTGoes | src/eval.c:206-224 | JUMPT checks the target even when the condition is 0; a zero condition falls through; any other value jumps as JUMP does |
| EngineProps.BinaryComputes | src/eval.c:288-358 | the binary opcodes pop `q`, then `p`, and push `p op q`; DIV and MOD by zero fault whatever `p` is |
| EngineProps.ComparisonsPushTruth | src/eval.c:324-358 | a comparison pushes 1 exactly when the relation holds and 0 otherwise |
| EngineProps.DivisionTruncates | src/eval.c:306-322 | `-7 / 2 == -3`, `-7 % 2 == -1`, `7 / -2 == -3`, `7 % -2 == 1` and `INT_MIN / -1 == INT_MIN` |
| EngineProps.WritePrints | src/eval.c:237-259 | WRITE_INT/WRITELN_INT pop and print the top and WRITE_STR/WRITELN_STR print their text; WRITELN ends the line, WRITE only in step mode |
| EngineProps.SetLineNoSuspends | src/eval.c:179-188 | SETLINENO makes its operand the current line and suspends exactly in step mode on lines after the first |
| EngineProps.HaltStops | src/eval.c:226-231 | HALT gives status 0 with the machine untouched; HALTED is raised exactly in step mode, and every other flag is kept |
| EngineProps.StartIsUnknown | src/eval.c:360-361 | reaching a START instruction is the unknown-opcode fault |
| EngineProps.Dispatch | src/eval.c:146-154 | a trip runs the case of the fetched opcode on the state moved to the fetched instruction |
| EngineProps.BatchNeverSuspends | src/eval.c:179-224 | outside step mode a run never suspends |
| EngineProps.MoreFuelChangesNothing | src/eval.c:143-364 | once a run has left the loop, more fuel gives the same result: fuel is only a bound |
| EngineProps.ResumeMoreFuel | src/eval.c:143-364 | the same for the rest of a run after one trip |
| EngineProps.Unroll | src/eval.c:143-364 | a run with fuel is its first trip followed by the run from where that trip ended |
| Machine.VM.constructor | src/vm.c:30-49 | `vm_init`: memory and stack of the requested sizes, all zero; empty stack; no instruction; line 1; no flags |
| Machine.VM.ForCode | src/eval.c:25-54 | `initVM`: as `vm_init`, with the program attached and the instruction pointer on its head |
| Machine.VM.Drain | src/eval.c:119-121 | DIE's loop empties the stack and collects the cells top first |
| Machine.VM.Die | src/eval.c:113-124 | DIE leaves the fault outcome and the drained stack that `Engine.Die` describes |
| Machine.VM.Push | src/eval.c:131-137 | PUSH on the arrays leaves the state `Engine.Push` describes |
| Machine.VM.ExecSet | src/eval.c:159-167 | SET on the arrays matches `Engine.ExecSet` |
| Machine.VM.ExecMem | src/eval.c:169-177 | MEM on the arrays matches `Engine.ExecMem` |
| Machine.VM.Jumped | src/eval.c:196-203 | a taken jump on the registers matches `Engine.Jumped` |
| Machine.VM.ExecJump | src/eval.c:190-204 | JUMP matches `Engine.ExecJump` |
| Machine.VM.ExecJumpT | src/eval.c:206-224 | JUMPT matches `Engine.ExecJumpT` |
| Machine.VM.ExecRead | src/eval.c:261-286 | READ on the arrays matches `Engine.ExecRead`, consuming the input it says |
| Machine.VM.ExecWrite | src/eval.c:237-259 | the WRITE opcodes print what `Engine.ExecWrite` says |
| Machine.VM.ExecBinary | src/eval.c:288-358 | the binary opcodes on the arrays match `Engine.Binary` |
| Machine.VM.ExecAt | src/eval.c:154-362 | the `switch` on the arrays matches `Engine.ExecAt` for every opcode |
| Machine.VM.Step | src/eval.c:144-363 | one trip on the arrays matches `Engine.Exec` |
| Machine.VM.Trip | src/eval.c:143-364 | one trip inside the loop keeps the loop's relation to `Engine.RunFrom` |
| Machine.VM.Run | src/eval.c:143-364 | the `for (;;)` loop on the arrays leaves exactly the result of `Engine.RunFrom` |
| Machine.VM.EvalCode | src/vm.c:86-341 | `eval_code` runs from the head and leaves exactly the state, output, outcome and status of `RunFrom`; `ip` and `lineno` keep their last values |
| Machine.VM.EvalCodeResumable | src/eval.c:89-373 | `evalCode` resumes from the saved registers and leaves the state of `RunFrom`; the registers are saved back exactly when the status is 0 |
| CString.CLength | src/debug.c:68 | `strlen`: the index of the first NUL, or the whole buffer when there is none |
| CString.ContentOfTerminated | src/test_memory.c:20-22 | a string written with its terminating NUL reads back as itself |
| CString.Dropped | src/memory.c:29-38 | the buffer `drop_first_last_inplace` leaves keeps its length |
| CString.DropFirstLast | src/memory.c:32-38 | the loop and the final store leave exactly `Dropped` of the old buffer |
| CString.DroppedContent | src/memory.c:26-38 | for a string of length `len`, the result reads as the string without its first and last characters, and the cells after `len` are untouched |
| CString.DropExample | src/test_memory.c:20-22 | "1234" becomes "23" |
| Display.UnescapeLetter | src/debug.c:81-94 | each escape letter stands for the control character whose escape it is |
| Display.EscapedAppend | src/debug.c:74-97 | the loop's output grows by one character's expansion per character |
| Display.EscapedLength | src/debug.c:67-97 | the escaped text is between `n` and `2n` characters; it is exactly `n` long, and equal to the input, exactly when no control character needs expanding |
| Display.UnescapeEscaped | src/debug.c:81-96 | for a text without backslashes, reading the escapes back gives the original |
| Display.BackslashIsAmbiguous | src/debug.c:81-96 | a backslash is not escaped, so a newline and the two characters `\n` show the same |
| Display.ReprExamples | src/test_memory.c:16-18 | `repr` of newline, tab and "a" are `"\n"`, `"\t"` and `"a"` |
| Display.Escaped | src/debug.c:74-97 | the text between the quotes holds no control character that `repr` expands |
| Display.Quoted | src/debug.c:71-100 | the text `repr` builds is the escaped text with a double quote before and after it, and holds no expanded control character |
| Display.Expand | src/debug.c:81-96 | one round of the loop appends exactly the character's expansion, one or two cells, and keeps what was written before |
| Display.Repr | src/debug.c:61-103 | the buffer has `2*strlen+3` cells and holds the quoted, escaped text followed by NUL |
| Answers.Lowered | src/debug.c:181-194 | lower-casing keeps the length and lowers each character |
| Answers.LowerIs | src/debug.c:181-194 | a character lowers to a lower-case letter exactly when it is that letter or its capital |
| Answers.CaseEqLowered | src/debug.c:181-194 | `strcasecmp(p, w) == 0` for a lower-case `w` exactly when `p` lowers to `w` |
| Answers.Classify | src/debug.c:176-203 | an accepted answer starts with Y or y, a refused one with N or n, and the empty line asks again |
| Answers.ClassifyIff | src/debug.c:176-203 | an answer accepts exactly when it is "y" or "yes" in any case, refuses exactly when it is "n" or "no"; anything else asks again |
| Answers.Ask | src/debug.c:158-208 | `ask` returns the first answer that is a yes or a no, with the lines after it; it returns none only when no answer qualifies (`Answered`) |
| MemoryView.RowEnd | src/debug.c:315-316 | a row holds one to ten cells, and exactly ten unless it reaches the end of memory |
| MemoryView.RowFrom | src/debug.c:313-324 | the row from cell `i` starts at `i`, is correctly labelled, and holds ten cells unless it reaches the end of memory |
| MemoryView.RowsAsWritten | src/debug.c:313-324 | as written there is a row exactly when `i` is inside memory, and the first starts at `i` |
| MemoryView.Rows | src/debug.c:313-324 | with the skip removed there is a row exactly when `i` is inside memory; the first starts at `i` and the last ends at the end of memory |
| MemoryView.RowsAdjoin | src/debug.c:313-324 | with the skip removed, each row starts where the one before it ended |
| MemoryView.AsWrittenGaps | src/debug.c:313-324 | as written, each row starts one cell after the one before it ended |
| MemoryView.Shown | src/debug.c:313-324 | the cells printed by a list of rows, in order |
| MemoryView.Labelled | src/debug.c:315-323 | a row's label `first - last` gives the first cell shown and one past the last (the cells `first` .. `last - 1`), and cells plus padding fill eleven fields |
| MemoryView.RowsShowAll | src/debug.c:308-327 | with the skip removed, the rows show every memory cell once, in order, each row correctly labelled |
| MemoryView.AsWrittenRows | src/debug.c:308-327 | as written, each row is still correctly labelled |
| MemoryView.AsWrittenSkips | src/debug.c:313-324 | as written, the cells 10, 21, 32, … are in no row |
| MemoryView.AsWrittenTwelveCells | src/debug.c:308-327 | with twelve cells, the rows as written show cells 0..9 and 11 but not 10; the fixed rows show all twelve |
| MemoryView.MemRowsAsWritten | src/debug.c:308-327 | the loops as written produce exactly `RowsAsWritten` |
| MemoryView.MemRowsFixed | src/debug.c:308-327 | the loops without the extra increment produce exactly `Rows` |
| MemoryView.RowCells | src/debug.c:315-316 | the inner loop prints the cells from `i` up to the row's end |
| MemoryView.Fill | src/debug.c:319-320 | the fill loop prints `11 - j` blank fields after `j` cells |
| CodeView.Clip | src/debug.c:247 | `%.50s` prints at most 50 characters, a prefix of the text, and the whole text when it fits |
| CodeView.ShowOperand | src/debug.c:239-255 | a shown integer is the instruction's integer operand; nothing is shown only when the integer is -1 and there is no string |
| CodeView.DumpFrom | src/debug.c:236-256 | the walk from an instruction prints at least one line, and the first is that instruction's |
| CodeView.DumpStep | src/debug.c:236-256 | the dump is the line of the current instruction followed by the dump from its successor |
| CodeView.DumpFollowsList | src/debug.c:230-259 | the dump has one line per instruction of the linked list, and line `k` shows the `k`-th instruction |
| CodeView.DumpEndsWithHalt | src/debug.c:236-256 | the walk from any instruction ends with the HALT line |
| CodeView.DumpStartsAndEnds | src/debug.c:230-259 | a program's dump opens with START and closes with HALT |
| CodeView.OperandShown | src/debug.c:239-255 | the integer operand is shown exactly when it is not -1; otherwise the string is shown quoted and cut to 50 characters; INT -1 looks like an instruction with no operand |
| CommandTable.First | src/debug.c:468 | `*p` is the first character, or NUL for the empty string |
| CommandTable.NameCmp | src/debug.c:465-469 | `nameCmp` holds exactly when the strings are equal |
| CommandTable.AliasCmp | src/debug.c:472-476 | `aliasCmp` holds exactly when the first characters agree |
| CommandTable.Matches | src/debug.c:486-489 | a line longer than one character is compared by `nameCmp`, a shorter one by `aliasCmp` |
| CommandTable.InitialsDistinct | src/debug.c:516-533 | the eleven commands have distinct first letters and names of at least two characters |
| CommandTable.MatchIff | src/debug.c:486-502 | a line matches a command exactly when it is its whole name, or one character equal to its first letter; it then matches no other command |
| CommandTable.Lookup | src/debug.c:492-502 | the search gives the first command that matches, or none when no command does |
| CommandTable.FindCommand | src/debug.c:492-502 | the search loop finds what `Lookup` gives |
| CommandTable.LookupFinds | src/debug.c:486-533 | every command is found by its whole name and by its first letter |
| CommandTable.LookupRejects | src/debug.c:486-505 | the abbreviation "ne" and the empty line name no command |
| Debugger.Zeros | src/debug.c:144-151 | a zeroed area of the given size |
| Debugger.Restarted | src/debug.c:134-155 | the state `re` leaves: ip on the head, line 1, empty stack, memory and stack of the same sizes and all zero |
| Debugger.RunRestarted | src/debug.c:134-155 | a run from the restarted machine keeps `Sound` |
| Debugger.InitialSession | src/eval.c:25-54 | a fresh `initVM` machine satisfies the debugger's session invariant |
| Debugger.Re | src/debug.c:134-155 | `re`: instruction pointer on the head, line 1, memory and stack zeroed, stack empty, flags 0, program kept |
| Debugger.NextCmd | src/debug.c:332-367 | `next` restarts and sets STEP when step mode is off, shows the line, resumes, and ends with the state of `RunFrom` (`NextDone`); flags are cleared when the program halted or faulted, and the saved registers kept on a fault |
| Debugger.RunCmd | src/debug.c:407-427 | `run` runs exactly when step mode is off or the answer is yes, the answer being the one `ask` gives; it then restarts, runs with no flags and never suspends, and leaves memory, stack, ip and line of that run, ip on the head and line 1 after a fault (`RunDone`); otherwise nothing changes |
| Debugger.QuitCmd | src/debug.c:372-402 | `quit` returns QUIT exactly when step mode is off or the answer is yes, CONTINUE otherwise; in step mode the answer is the one `ask` gives (`Answered`), otherwise nothing is asked |
| Debugger.IpCmd | src/debug.c:280-289 | `ip` shows the current line exactly when step mode is on |
| Debugger.ListCmd | src/debug.c:294-303 | `list` shows lines 1 .. size-1 in order |
| Debugger.MemCmd | src/debug.c:308-327 | `memory` shows the rows of the corrected loop, which show every cell once |
| Debugger.DumpCmd | src/debug.c:230-259 | `dump` walks the list from the head and prints exactly `DumpFrom` |
| Debugger.HelpCmd | src/debug.c:264-275 | `help` lists every command with its first letter, in table order |
| Debugger.RunCommand | src/debug.c:478-509 | `runCommand` runs the callback of the command `Lookup` finds, and its response and new state are that callback's contract (`NextDone`, `RunDone`, the `quit` answer, the rows, dump, line, list and help shown); an unknown line is reported and gives CONTINUE; it gives QUIT exactly when `quit` is found and step mode is off or the answer is yes; only `next` and `run` change the machine; the session invariant is kept |
| Stepping.Stepped | src/debug.c:332-367 | the debugger's way of running, `next` after `next`, never ends suspended |
| Stepping.StepOn | src/debug.c:332-367 | a step-mode trip that halted or faulted is the final result, and the stepped run never ends suspended |
| Stepping.VisibleAppend | src/eval.c:237-259 | the items printed by two pieces of output, line ends dropped, are those of each piece in turn |
| Stepping.BlindSame | src/eval.c:154-362 | every opcode other than the writes, the jumps, SETLINENO and HALT does the same with STEP set or clear |
| Stepping.WriteAgrees | src/eval.c:237-259 | a write prints the same item in both modes; only step mode may add a line end |
| Stepping.JumpAgrees | src/eval.c:190-224 | when the jump lands on a SETLINENO, a jump or conditional jump in batch mode and in step mode lead to agreeing states; step mode may suspend where batch mode goes on |
| Stepping.TripAgrees | src/eval.c:144-363 | one trip in each mode from agreeing states gives agreeing results |
| Stepping.RunAgrees | src/eval.c:143-364 | a batch run and the stepped run from agreeing states with the same fuel have the same outcome and input consumed, print the same items, and end in the same state once they stop |
| Stepping.RunMatchesStepping | src/eval.c:143-364 | a batch run that stops and the stepped run from the same state end with the same outcome, state and input consumed, and print the same items up to line ends |
| Stepping.SteppedMoreFuel | src/debug.c:332-367 | once the stepped run has stopped, more fuel changes nothing |
| Stepping.SteppingIsRounds | src/debug.c:332-367 | a step-mode run that suspends, followed by the stepped run from where it stopped, is the stepped run from the start |
| Stepping.StoppedRoundIsStepped | src/debug.c:332-367 | a step-mode run that halts or faults is the stepped run itself |
| Stepping.NewlineOnlyWhenStepping | src/eval.c:245-250 | WRITE_STR "a" then HALT prints `a` in batch mode and `a` with a line end when stepped |
| Stepping.StaleLineAfterJump | src/eval.c:190-204 | with a jump-table entry followed by IP instead of SETLINENO, the batch run pushes the old line plus one (2) and the stepped run the jumped-to line plus one (3) |

## Left out

- Output text: `printf`/`fprintf` formatting, field widths, `stderr` versus `stdout`, and the fault messages' exact words. These are I/O. The model returns the values printed (`Out`, `DumpLine`, `MemRow`, `Fault`, `Response`), not the characters.
- `file2lines`, the source lines `next` prints, `readline`, `trim` and the `debugCode` prompt loop (src/debug.c:512-567). These are terminal and file I/O. A command arrives as one trimmed line `p`, and answers as trimmed lines.
- `warrantyCmd`, `notImplCmd` and the command doc strings. They only print fixed text, and are modelled as the responses `WarrantyShown`/`NotImplemented`.
- `vm_destroy`, `finiVM` and every `malloc`/`free`. Memory management is not part of the model.
- Fuel: the engine loop and the debugger can run for ever. Every run takes a `fuel` bound, the model says nothing about runs that exhaust it, and `MoreFuelChangesNothing` shows that the bound changes nothing once a run stops.
- Stack underflow: the C code pops an empty stack without checking, which is undefined behaviour. The model reports a `StackUnderflow` fault instead, before the opcode does anything else.
- Engine.ExecRead: the conversion of a line by `strtol` is given as an already-converted `Literal`; its low 32 bits are stored.
- READ's line input: src/eval.c:268 and src/vm.c:242 read the line with `ask` from src/io.c:5-9. That `ask` passes `sizeof(answer_size)`, the size of an `int` (4), to `fgets`, so it reads at most 3 characters, and then overwrites the last one read with NUL: the line "123" is converted as "12". The model's `Literal` is the outcome of converting whatever the program obtained, so it does not capture this truncation. At end of input that `fgets` returns NULL and leaves the buffer as it was, so READ converts the previous line again (on the first read, `strlen` of the uninitialised buffer is undefined); the model reports `EndOfInput` instead.
- End of input: neither C function stops at end of input. READ converts the stale buffer again (see the line on READ's input just above), and the debugger's `ask` (src/debug.c:165-172) calls `readline` again after it returns NULL, forever. The model's `EndOfInput` fault and the none returned by `Answers.Ask` when the answer list is exhausted are choices of the model.
- Debugger.MemCmd: `memory` is modelled by the corrected loop (`MemRowsFixed`), which shows every cell. The loop as written skips cells 10, 21, 32, … (see Findings); `MemRowsAsWritten` models it, but the command uses the corrected rows.
- Stepping.RunMatchesStepping: the equivalence needs every jump-table entry to be followed by a SETLINENO. That is the layout the compiler is expected to produce, but the compiler is not part of this model, so the property is stated under that condition (`JumpsLandOnLines`), and `StaleLineAfterJump` shows it is needed. It also holds only up to the line ends step mode adds.
- Answers.Ask: when the list of answers runs out before a yes or a no, the model returns none where the C function would keep asking. The debugger commands then treat that as a no.
- src/debugger.c, the later version of the debugger over `struct vm` and `eval_code`, is not modelled separately. Its `ask` reads with `fgets(p, sizeof 20, stdin)` (the size of an `int`, not 20) into a `const` buffer, so it is not modelled.
- src/vm.c's READ: it reads the line with the same `ask` from src/io.c:5-9 as src/eval.c does (see the line on READ's input above); the engine takes the converted literals as its input.
- Display.Repr: the C loop's `break` on NUL cannot be taken, because the loop stops at `strlen`; the model iterates to `CLength`.
- The TRACE flag is declared but never set or tested by the core; it is modelled only as a constant.
- The `cb != NULL` test in `runCommand`: every entry of the table has a callback, so the branch that treats a NULL callback as unknown is not modelled.
- Signed overflow: the C behaviour is undefined. The model wraps modulo 2^32 (see above).
- The dump's `%-20s` and the memory view's `%4d` field widths are not modelled. `MemRow.pad` counts the blank fields that the fill loop prints.

## Findings

| source | as written | input that shows it | evidently intended | confidence | as-written member | corrected member |
|---|---|---|---|---|---|---|
| src/sem.h:41 | `UNSET(var, flag)` ORs `var` with `~(flag)`: it sets every other bit and leaves `flag` as it was | `UNSET(v, STEP)` with `v == STEP` leaves STEP set | AND `var` with `~(flag)`: clear the flag, keep the other bits | not executed | Flags.UnsetAsWritten, Flags.UnsetAsWrittenNeverClears, Flags.UnsetAsWrittenKeepsStep | Flags.Unset |
| src/debug.c:313-324 | the outer loop of `memCmd` increments `i` after the inner loop already advanced it past the row, so the cell after every full row is skipped | a memory of 12 cells: cell 10 is printed in no row | each row starts where the previous one ended, and every cell is shown once | not executed | MemoryView.MemRowsAsWritten, MemoryView.AsWrittenSkips, MemoryView.AsWrittenTwelveCells | MemoryView.MemRowsFixed, MemoryView.RowsShowAll |
